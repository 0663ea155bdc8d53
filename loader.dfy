/** The document loader: the course record and the forum topics, either of which
    may be missing, flattened into one ordered sequence of documents. Converting a
    post's HTML to text is a parameter (`strip`), not modelled. */
module Loader {
  import opened Wrappers
  import opened Collections
  import opened Text
  import opened Records
  import PostprocessCourse

  /** The `url` of every course-derived document except links. */
  const CourseUrl := "course"

  /** The longest forum text shown as a snippet without truncation. */
  const SnippetLimit := 200

  const Ellipsis := "\U{2026}"

  /** `d.get(key, [])`. */
  function OrEmpty<T>(o: Option<seq<T>>): seq<T>
  {
    match o
    case Some(s) => s
    case None => []
  }

  /** `topic.get("url", "")`. */
  function TopicUrl(t: Topic): string
  {
    match t.url
    case Some(u) => u
    case None => ""
  }

  /** `txt[:200] + ("…" if len(txt) > 200 else "")`. */
  function Snippet(txt: string): (r: string)
    ensures |txt| <= SnippetLimit ==> r == txt
    ensures |txt| > SnippetLimit ==> |r| == SnippetLimit + 1
    ensures |r| <= SnippetLimit + 1
  {
    txt[..Min(SnippetLimit, |txt|)] + (if |txt| > SnippetLimit then Ellipsis else "")
  }

  /** A truncated snippet is the first 200 characters of the text followed by the
      ellipsis U+2026. */
  lemma SnippetTruncates(txt: string)
    requires |txt| > SnippetLimit
    ensures Snippet(txt)[..SnippetLimit] == txt[..SnippetLimit] && Snippet(txt)[SnippetLimit] == '\U{2026}'
  {
  }

  function ParagraphDoc(para: string): Document
  {
    Document(para, CourseUrl, para)
  }

  function ListText(items: seq<string>): string
  {
    Join("\n", items)
  }

  function ListDoc(items: seq<string>): Document
  {
    Document(ListText(items), CourseUrl, ListText(items))
  }

  function RowText(cells: seq<string>): string
  {
    Join("\t", cells)
  }

  /** Cells tab-joined per row, rows newline-joined. */
  function TableText(rows: seq<seq<string>>): string
  {
    Join("\n", MapSeq(rows, RowText))
  }

  function TableDoc(rows: seq<seq<string>>): Document
  {
    Document(TableText(rows), CourseUrl, TableText(rows))
  }

  function LinkDoc(link: Link): Document
  {
    Document(link.text, link.url, link.text)
  }

  function PostDoc(url: string, post: Post, strip: string -> string): Document
  {
    Document(strip(post.html), url, Snippet(strip(post.html)))
  }

  /** The course documents: paragraphs, then lists, then tables, then links. */
  function CourseDocs(c: CourseJson): seq<Document>
  {
    MapSeq(OrEmpty(c.paragraphs), ParagraphDoc)
      + MapSeq(OrEmpty(c.lists), ListDoc)
      + MapSeq(OrEmpty(c.tables), TableDoc)
      + MapSeq(OrEmpty(c.links), LinkDoc)
  }

  function PostDocs(url: string, posts: seq<Post>, strip: string -> string): (r: seq<Document>)
    ensures |r| == |posts|
  {
    if posts == [] then []
    else PostDocs(url, posts[..|posts| - 1], strip) + [PostDoc(url, posts[|posts| - 1], strip)]
  }

  /** The documents of one topic's posts. */
  function TopicDocs(t: Topic, strip: string -> string): seq<Document>
  {
    PostDocs(TopicUrl(t), OrEmpty(t.posts), strip)
  }

  /** `TopicDocs` for a fixed `strip`, as one function value shared by every use. */
  function TopicDocsWith(strip: string -> string): Topic -> seq<Document>
  {
    (t: Topic) => TopicDocs(t, strip)
  }

  /** One document per post, topic after topic. */
  function ForumDocs(topics: seq<Topic>, strip: string -> string): seq<Document>
  {
    ConcatMap(topics, TopicDocsWith(strip))
  }

  /** The number of posts over all topics. */
  function PostCount(topics: seq<Topic>): nat
  {
    if topics == [] then 0
    else PostCount(topics[..|topics| - 1]) + |OrEmpty(topics[|topics| - 1].posts)|
  }

  function CourseCount(c: CourseJson): nat
  {
    |OrEmpty(c.paragraphs)| + |OrEmpty(c.lists)| + |OrEmpty(c.tables)| + |OrEmpty(c.links)|
  }

  /** What the loader returns for the two files, each present or missing. */
  function LoadedDocs(course: Option<CourseJson>, forum: Option<seq<Topic>>, strip: string -> string): seq<Document>
  {
    (if course.Some? then CourseDocs(course.value) else [])
      + (if forum.Some? then ForumDocs(forum.value, strip) else [])
  }

  /** `load_documents`, over the decoded contents of the two files (`None` when a
      file does not exist). */
  method LoadDocuments(course: Option<CourseJson>, forum: Option<seq<Topic>>, strip: string -> string)
    returns (docs: seq<Document>)
    ensures docs == LoadedDocs(course, forum, strip)
  {
    docs := [];
    if course.Some? {
      docs := LoadCourse(course.value);
    }
    if forum.Some? {
      var forumDocs := LoadForum(forum.value, strip);
      docs := docs + forumDocs;
    }
  }

  /** The course part of `load_documents`: four append loops. */
  method LoadCourse(c: CourseJson) returns (docs: seq<Document>)
    ensures docs == CourseDocs(c)
  {
    docs := [];
    var paragraphs := OrEmpty(c.paragraphs);
    for i := 0 to |paragraphs|
      invariant docs == MapSeq(paragraphs[..i], ParagraphDoc)
    {
      MapSeqSnoc(paragraphs, i, ParagraphDoc);
      var para := paragraphs[i];
      docs := docs + [Document(para, CourseUrl, para)];
    }
    assert paragraphs[..|paragraphs|] == paragraphs;
    var lists := OrEmpty(c.lists);
    ghost var before := docs;
    for i := 0 to |lists|
      invariant docs == before + MapSeq(lists[..i], ListDoc)
    {
      MapSeqSnoc(lists, i, ListDoc);
      var text := Join("\n", lists[i]);
      docs := docs + [Document(text, CourseUrl, text)];
    }
    assert lists[..|lists|] == lists;
    var tables := OrEmpty(c.tables);
    before := docs;
    for i := 0 to |tables|
      invariant docs == before + MapSeq(tables[..i], TableDoc)
    {
      MapSeqSnoc(tables, i, TableDoc);
      var rows := MapSeq(tables[i], RowText);
      var text := Join("\n", rows);
      docs := docs + [Document(text, CourseUrl, text)];
    }
    assert tables[..|tables|] == tables;
    var links := OrEmpty(c.links);
    before := docs;
    for i := 0 to |links|
      invariant docs == before + MapSeq(links[..i], LinkDoc)
    {
      MapSeqSnoc(links, i, LinkDoc);
      docs := docs + [Document(links[i].text, links[i].url, links[i].text)];
    }
    assert links[..|links|] == links;
  }

  /** The forum part of `load_documents`: one document per post, topic by topic. */
  method LoadForum(topics: seq<Topic>, strip: string -> string) returns (docs: seq<Document>)
    ensures docs == ForumDocs(topics, strip)
  {
    docs := [];
    for k := 0 to |topics|
      invariant docs == ForumDocs(topics[..k], strip)
    {
      ConcatMapSnoc(topics, k, TopicDocsWith(strip));
      var topic := topics[k];
      var url := TopicUrl(topic);
      var posts := OrEmpty(topic.posts);
      ghost var done := docs;
      for j := 0 to |posts|
        invariant docs == done + PostDocs(url, posts[..j], strip)
      {
        assert posts[..j + 1][..j] == posts[..j];
        var txt := strip(posts[j].html);
        docs := docs + [Document(txt, url, Snippet(txt))];
      }
      assert posts[..|posts|] == posts;
    }
    assert topics[..|topics|] == topics;
  }

  // ---- Properties of the loaded sequence ----

  lemma {:induction false} ForumDocsCount(topics: seq<Topic>, strip: string -> string)
    ensures |ForumDocs(topics, strip)| == PostCount(topics)
  {
    if topics != [] {
      var front := topics[..|topics| - 1];
      ForumDocsCount(front, strip);
      assert ForumDocs(topics, strip) == ForumDocs(front, strip) + TopicDocs(topics[|topics| - 1], strip);
    }
  }

  /** The count is |paragraphs| + |lists| + |tables| + |links| plus all posts; a
      missing file contributes nothing, and course documents come first. */
  lemma LoadedDocsLayout(course: Option<CourseJson>, forum: Option<seq<Topic>>, strip: string -> string)
    ensures var n := if course.Some? then CourseCount(course.value) else 0;
      |LoadedDocs(course, forum, strip)| == n + (if forum.Some? then PostCount(forum.value) else 0)
      && LoadedDocs(course, forum, strip)[..n] == (if course.Some? then CourseDocs(course.value) else [])
      && LoadedDocs(course, forum, strip)[n..] == (if forum.Some? then ForumDocs(forum.value, strip) else [])
  {
    if forum.Some? {
      ForumDocsCount(forum.value, strip);
    }
  }

  /** Paragraph `i` becomes document `i`: content and snippet the paragraph, url "course". */
  lemma ParagraphDocument(c: CourseJson, i: nat)
    requires i < |OrEmpty(c.paragraphs)|
    ensures var p := OrEmpty(c.paragraphs)[i];
      CourseDocs(c)[i] == Document(p, "course", p)
  {
    MapSeqAt(OrEmpty(c.paragraphs), ParagraphDoc, i);
  }

  /** List `j` becomes one document: its items joined by newlines. */
  lemma ListDocument(c: CourseJson, j: nat)
    requires j < |OrEmpty(c.lists)|
    ensures var text := Join("\n", OrEmpty(c.lists)[j]);
      CourseDocs(c)[|OrEmpty(c.paragraphs)| + j] == Document(text, "course", text)
  {
    MapSeqAt(OrEmpty(c.lists), ListDoc, j);
  }

  /** Table `j` becomes one document: cells tab-joined per row, rows newline-joined. */
  lemma TableDocument(c: CourseJson, j: nat)
    requires j < |OrEmpty(c.tables)|
    ensures var table := OrEmpty(c.tables)[j];
      var rows := MapSeq(table, RowText);
      (forall r :: 0 <= r < |table| ==> rows[r] == Join("\t", table[r]))
      && CourseDocs(c)[|OrEmpty(c.paragraphs)| + |OrEmpty(c.lists)| + j]
         == Document(Join("\n", rows), "course", Join("\n", rows))
  {
    var table := OrEmpty(c.tables)[j];
    MapSeqAt(OrEmpty(c.tables), TableDoc, j);
    forall r | 0 <= r < |table|
      ensures MapSeq(table, RowText)[r] == Join("\t", table[r])
    {
      MapSeqAt(table, RowText, r);
    }
  }

  /** Link `j` becomes one document: content and snippet its text, url its url. */
  lemma LinkDocument(c: CourseJson, j: nat)
    requires j < |OrEmpty(c.links)|
    ensures var l := OrEmpty(c.links)[j];
      CourseDocs(c)[|OrEmpty(c.paragraphs)| + |OrEmpty(c.lists)| + |OrEmpty(c.tables)| + j]
        == Document(l.text, l.url, l.text)
  {
    MapSeqAt(OrEmpty(c.links), LinkDoc, j);
  }

  /** Post `j` of topic `k` is forum document number (posts of earlier topics) + `j`:
      its content the post's text, its url the topic's url or "", its snippet the
      truncated text. */
  lemma ForumDocument(topics: seq<Topic>, k: nat, j: nat, strip: string -> string)
    requires k < |topics| && j < |OrEmpty(topics[k].posts)|
    ensures PostCount(topics[..k]) + j < |ForumDocs(topics, strip)|
    ensures var txt := strip(OrEmpty(topics[k].posts)[j].html);
      ForumDocs(topics, strip)[PostCount(topics[..k]) + j] == Document(txt, TopicUrl(topics[k]), Snippet(txt))
  {
    ForumDocsAt(topics, k, j, strip);
    ForumDocsCount(topics[..k], strip);
    PostDocsAt(TopicUrl(topics[k]), OrEmpty(topics[k].posts), j, strip);
  }

  /** Document `j` of topic `k` follows the documents of the earlier topics. */
  lemma ForumDocsAt(topics: seq<Topic>, k: nat, j: nat, strip: string -> string)
    requires k < |topics| && j < |TopicDocs(topics[k], strip)|
    ensures |ForumDocs(topics[..k], strip)| + j < |ForumDocs(topics, strip)|
      && ForumDocs(topics, strip)[|ForumDocs(topics[..k], strip)| + j] == TopicDocs(topics[k], strip)[j]
  {
    var f := TopicDocsWith(strip);
    assert f(topics[k]) == TopicDocs(topics[k], strip);
    ConcatMapAt(topics, k, j, f);
  }

  lemma {:induction false} PostDocsAt(url: string, posts: seq<Post>, j: nat, strip: string -> string)
    requires j < |posts|
    ensures PostDocs(url, posts, strip)[j] == PostDoc(url, posts[j], strip)
  {
    if j < |posts| - 1 {
      PostDocsAt(url, posts[..|posts| - 1], j, strip);
    }
  }

  /** A list whose items hold no newline can be recovered from its document. */
  lemma ListRoundTrip(items: seq<string>)
    requires items != []
    requires forall k :: 0 <= k < |items| ==> '\n' !in items[k]
    ensures Split('\n', ListDoc(items).content) == items
  {
    SplitJoin('\n', items);
  }

  function SplitRow(line: string): seq<string>
  {
    Split('\t', line)
  }

  /** A table with rows, each with cells, none holding a tab or a newline, can be
      recovered from its document by splitting at newlines and then at tabs. */
  lemma TableRoundTrip(rows: seq<seq<string>>)
    requires rows != []
    requires forall r :: 0 <= r < |rows| ==> rows[r] != []
    requires forall r, k :: 0 <= r < |rows| && 0 <= k < |rows[r]| ==>
      '\t' !in rows[r][k] && '\n' !in rows[r][k]
    ensures MapSeq(Split('\n', TableDoc(rows).content), SplitRow) == rows
  {
    var lines := MapSeq(rows, RowText);
    forall r | 0 <= r < |rows|
      ensures lines[r] == Join("\t", rows[r]) && '\n' !in lines[r]
    {
      MapSeqAt(rows, RowText, r);
      JoinAvoids('\n', "\t", rows[r]);
    }
    SplitJoin('\n', lines);
    var back := MapSeq(lines, SplitRow);
    forall r | 0 <= r < |rows|
      ensures back[r] == rows[r]
    {
      MapSeqAt(lines, SplitRow, r);
      SplitJoin('\t', rows[r]);
    }
  }

  /** A list whose only item is empty gives a document with empty content: the
      loader does not guarantee non-empty content. */
  lemma EmptyListItemGivesEmptyDocument()
    ensures CourseDocs(CourseJson(None, None, Some([[""]]), None, None)) == [Document("", "course", "")]
  {
    assert MapSeq([[""]], ListDoc) == [ListDoc([""])];
  }

  /** From a post-processed course, paragraph documents and link documents have
      non-empty content, and link documents a non-empty url. */
  lemma PostprocessedCourseDocs(page: PostprocessCourse.Page)
    ensures var c := PostprocessCourse.AsJson(PostprocessCourse.Structured(page));
      var docs := CourseDocs(c);
      var np, nl, nt := |OrEmpty(c.paragraphs)|, |OrEmpty(c.lists)|, |OrEmpty(c.tables)|;
      (forall i :: 0 <= i < np ==> docs[i].content != "")
      && (forall j :: np + nl + nt <= j < |docs| ==> docs[j].content != "" && docs[j].url != "")
  {
    var s := PostprocessCourse.Structured(page);
    var c := PostprocessCourse.AsJson(s);
    PostprocessCourse.StructuredWellFormed(page);
    var np, nl, nt := |s.paragraphs|, |s.lists|, |s.tables|;
    forall i | 0 <= i < np
      ensures CourseDocs(c)[i].content != ""
    {
      ParagraphDocument(c, i);
      assert s.paragraphs[i] in s.paragraphs;
    }
    forall j | np + nl + nt <= j < |CourseDocs(c)|
      ensures CourseDocs(c)[j].content != "" && CourseDocs(c)[j].url != ""
    {
      LinkDocument(c, j - (np + nl + nt));
      assert s.links[j - (np + nl + nt)] in s.links;
    }
  }
}
