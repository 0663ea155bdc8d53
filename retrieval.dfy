/** The retrieval question-answering orchestrator: the process-wide document
    collection and vector index, built lazily, and the per-question path through
    the override check, retrieval, context assembly and answer extraction.

    The learned parts are parameters: `embed` stands for encoding a text and
    L2-normalising it, `search` for the inner-product index search (row indices
    in rank order, padded with -1 when the index holds too few rows), `qa` for
    the extractive QA pipeline (its `answer`, if the output has one). */
module Retrieval {
  import opened Wrappers
  import opened Collections
  import opened Text
  import opened Records
  import opened Loader

  type Vector = seq<real>

  /** A flat inner-product index: its rows are the added vectors, in insertion order. */
  datatype FlatIndex = FlatIndex(rows: seq<Vector>)

  const Separator := "\n\n---\n\n"

  /** How many of the retrieved documents fund the context. */
  const ContextDocs := 3

  /** How many of those are cited. */
  const CitedDocs := 2

  const DefaultTopK := 5

  /** The message of the `IndexError` raised by an out-of-range list subscript. */
  const IndexErrorMessage := "list index out of range"

  const OverrideAnswerText :=
    "You must use `gpt-3.5-turbo-0125`, even if the AI Proxy only supports `gpt-4o-mini`. Use the OpenAI API directly for this question."

  const OverrideLinks: seq<Link> := [
    Link("Use the model that\U{2019}s mentioned in the question.",
         "https://discourse.onlinedegree.iitm.ac.in/t/ga5-question-8-clarification/155939/4"),
    Link("My understanding is that you just have to use a tokenizer, similar to what Prof. Anand used, to get the number of tokens and multiply that by the given rate.",
         "https://discourse.onlinedegree.iitm.ac.in/t/ga5-question-8-clarification/155939/3")
  ]

  /** Both model names occur in the lowercased question. */
  predicate IsOverride(question: string)
  {
    Contains(Lower(question), "gpt-4o-mini") && Contains(Lower(question), "gpt3.5")
  }

  function ContentOf(d: Document): string { d.content }

  /** The `{url, text}` citation of a document: its url and its snippet. */
  function CitationOf(d: Document): Link { Link(d.snippet, d.url) }

  /** The vectors `build_index` adds: the embedding of each document's content. */
  function Embeddings(docs: seq<Document>, embed: string -> Vector): seq<Vector>
  {
    MapSeq(MapSeq(docs, ContentOf), embed)
  }

  /** Row alignment: the index holds one vector per document, row `i` being the
      embedding of document `i`. */
  lemma EmbeddingsAligned(docs: seq<Document>, embed: string -> Vector)
    ensures |Embeddings(docs, embed)| == |docs|
    ensures forall i :: 0 <= i < |docs| ==> Embeddings(docs, embed)[i] == embed(docs[i].content)
  {
    forall i | 0 <= i < |docs|
      ensures Embeddings(docs, embed)[i] == embed(docs[i].content)
    {
      MapSeqAt(docs, ContentOf, i);
      MapSeqAt(MapSeq(docs, ContentOf), embed, i);
    }
  }

  /** Python's `s[i]`: negative subscripts count from the end; anything else out
      of range raises. */
  function PyIndex<T>(s: seq<T>, i: int): (r: Option<T>)
    ensures r.Some? <==> -|s| <= i < |s|
    ensures 0 <= i < |s| ==> r == Some(s[i])
    ensures -|s| <= i < 0 ==> r == Some(s[|s| + i])
  {
    if 0 <= i < |s| then Some(s[i])
    else if -|s| <= i < 0 then Some(s[|s| + i])
    else None
  }

  /** The documents `_docs[i]` for the hits in order, or `None` if one subscript raises. */
  function Resolve(docs: seq<Document>, hits: seq<int>): Option<seq<Document>>
  {
    if hits == [] then Some([])
    else
      var prev, d := Resolve(docs, hits[..|hits| - 1]), PyIndex(docs, hits[|hits| - 1]);
      if prev.Some? && d.Some? then Some(prev.value + [d.value]) else None
  }

  /** Resolving succeeds exactly when every subscript is valid, and then yields the
      subscripted documents in hit order. */
  lemma {:induction false} ResolveSpec(docs: seq<Document>, hits: seq<int>)
    ensures Resolve(docs, hits).Some? <==> forall k :: 0 <= k < |hits| ==> PyIndex(docs, hits[k]).Some?
    ensures Resolve(docs, hits).Some? ==>
      |Resolve(docs, hits).value| == |hits|
      && forall k :: 0 <= k < |hits| ==> Resolve(docs, hits).value[k] == PyIndex(docs, hits[k]).value
  {
    if hits != [] {
      var front := hits[..|hits| - 1];
      ResolveSpec(docs, front);
      assert forall k :: 0 <= k < |front| ==> front[k] == hits[k];
    }
  }

  /** `out.get("answer", "").strip()`. */
  function AnswerText(out: Option<string>): string
  {
    match out
    case Some(a) => Strip(a)
    case None => ""
  }

  /** The non-override reply for the hits the search returned: the first three hits
      fund the context, the first two are cited. */
  function RetrievedAnswer(docs: seq<Document>, hits: seq<int>, question: string,
                           qa: (string, string) -> Option<string>): Result<Answer, string>
  {
    var top := hits[..Min(ContextDocs, |hits|)];
    match Resolve(docs, top)
    case None => Failure(IndexErrorMessage)
    case Some(ds) =>
      var context := Join(Separator, MapSeq(ds, ContentOf));
      var links := MapSeq(ds, CitationOf);
      Success(Answer(AnswerText(qa(question, context)), links[..Min(CitedDocs, |links|)]))
  }

  /** The reply succeeds exactly when the first ≤3 hits are valid subscripts; the
      context is their contents in rank order, the links are the citations of the
      first ≤2 of them in rank order, and the answer is the stripped extraction. */
  lemma RetrievedAnswerSpec(docs: seq<Document>, hits: seq<int>, question: string,
                            qa: (string, string) -> Option<string>)
    ensures var top := hits[..Min(ContextDocs, |hits|)];
      var r := RetrievedAnswer(docs, hits, question, qa);
      (r.Success? <==> forall k :: 0 <= k < |top| ==> PyIndex(docs, top[k]).Some?)
      && (r.Failure? ==> r.error == IndexErrorMessage)
      && (r.Success? ==>
            var chunks := MapSeq(Resolve(docs, top).value, ContentOf);
            |chunks| == |top|
            && (forall k :: 0 <= k < |top| ==> chunks[k] == PyIndex(docs, top[k]).value.content)
            && r.value.answer == AnswerText(qa(question, Join(Separator, chunks)))
            && |r.value.links| == Min(CitedDocs, |top|)
            && (forall k :: 0 <= k < |r.value.links| ==>
                  r.value.links[k] == Link(PyIndex(docs, top[k]).value.snippet, PyIndex(docs, top[k]).value.url)))
  {
    var top := hits[..Min(ContextDocs, |hits|)];
    ResolveSpec(docs, top);
    if Resolve(docs, top).Some? {
      var ds := Resolve(docs, top).value;
      forall k | 0 <= k < |top|
        ensures MapSeq(ds, ContentOf)[k] == ds[k].content
        ensures MapSeq(ds, CitationOf)[k] == CitationOf(ds[k])
      {
        MapSeqAt(ds, ContentOf, k);
        MapSeqAt(ds, CitationOf, k);
      }
    }
  }

  /** With no documents, any non-empty hit list makes the subscript raise. */
  lemma EmptyCollectionFails(hits: seq<int>, question: string, qa: (string, string) -> Option<string>)
    requires hits != []
    ensures RetrievedAnswer([], hits, question, qa) == Failure(IndexErrorMessage)
  {
    var top := hits[..Min(ContextDocs, |hits|)];
    ResolveSpec([], top);
    assert PyIndex<Document>([], top[0]).None?;
  }

  /** With a single document the index pads the hits with -1, and `_docs[-1]` is
      that document again: its content funds the context three times and it is
      cited twice. */
  lemma SingleDocumentRepeated(doc: Document, question: string, qa: (string, string) -> Option<string>)
    ensures RetrievedAnswer([doc], [0, -1, -1, -1, -1], question, qa)
      == Success(Answer(AnswerText(qa(question, doc.content + Separator + doc.content + Separator + doc.content)),
                        [CitationOf(doc), CitationOf(doc)]))
  {
    var top := [0, -1, -1];
    assert [0, -1, -1, -1, -1][..Min(ContextDocs, 5)] == top;
    SinglePaddedResolve(doc);
    var ds := [doc, doc, doc];
    var c := doc.content;
    var chunks := MapSeq(ds, ContentOf);
    var links := MapSeq(ds, CitationOf);
    forall k | 0 <= k < 3
      ensures chunks[k] == c && links[k] == CitationOf(doc)
    {
      MapSeqAt(ds, ContentOf, k);
      MapSeqAt(ds, CitationOf, k);
    }
    assert chunks == [c, c, c];
    assert [c, c, c][1..] == [c, c] && [c, c][1..] == [c];
    assert Join(Separator, [c, c]) == c + Separator + c;
    assert Join(Separator, chunks) == c + Separator + c + Separator + c;
    assert links[..2] == [CitationOf(doc), CitationOf(doc)];
  }

  /** The hits a one-row index returns for three requested rows resolve to that
      document three times. */
  lemma SinglePaddedResolve(doc: Document)
    ensures Resolve([doc], [0, -1, -1]) == Some([doc, doc, doc])
  {
    var hits := [0, -1, -1];
    assert forall k :: 0 <= k < |hits| ==> PyIndex([doc], hits[k]) == Some(doc);
    ResolveSpec([doc], hits);
    var ds := Resolve([doc], hits).value;
    assert ds == [doc, doc, doc];
  }

  /** The override ignores case: it looks at the lowercased question only. */
  lemma OverrideIgnoresCase(question: string)
    ensures IsOverride(question) <==> IsOverride(Lower(question))
  {
    LowerIdempotent(question);
  }

  /** Lowering a five-part concatenation lowers each part. */
  lemma LowerFive(a: string, b: string, c: string, d: string, e: string)
    ensures Lower(a + b + c + d + e) == Lower(a) + Lower(b) + Lower(c) + Lower(d) + Lower(e)
  {
    LowerConcat(a + b + c + d, e);
    LowerConcat(a + b + c, d);
    LowerConcat(a + b, c);
    LowerConcat(a, b);
  }

  /** A text whose lowered form has `s1` and then `s2` contains both. */
  lemma ContainsBoth(a: string, s1: string, b: string, s2: string, c: string)
    ensures Contains(a + s1 + b + s2 + c, s1) && Contains(a + s1 + b + s2 + c, s2)
  {
    assert a + s1 + b + s2 + c == a + s1 + (b + s2 + c);
    ContainsInside(a, s1, b + s2 + c);
    ContainsInside(a + s1 + b, s2, c);
  }

  /** Any question with both model names, in any case and order, is overridden. */
  lemma OverrideOnMarkers(a: string, m1: string, b: string, m2: string, c: string)
    requires Lower(m1) == "gpt-4o-mini" && Lower(m2) == "gpt3.5"
    ensures IsOverride(a + m1 + b + m2 + c)
    ensures IsOverride(a + m2 + b + m1 + c)
  {
    LowerFive(a, m1, b, m2, c);
    ContainsBoth(Lower(a), "gpt-4o-mini", Lower(b), "gpt3.5", Lower(c));
    LowerFive(a, m2, b, m1, c);
    ContainsBoth(Lower(a), "gpt3.5", Lower(b), "gpt-4o-mini", Lower(c));
  }

  /** The loop over the first hits: `_docs[i]` for each, its content as a context
      chunk and its citation as a link, stopping when a subscript raises. */
  method AssembleContext(docs: seq<Document>, top: seq<int>)
    returns (ok: bool, chunks: seq<string>, links: seq<Link>)
    ensures ok == Resolve(docs, top).Some?
    ensures ok ==> chunks == MapSeq(Resolve(docs, top).value, ContentOf)
                   && links == MapSeq(Resolve(docs, top).value, CitationOf)
  {
    chunks, links := [], [];
    for n := 0 to |top|
      invariant Resolve(docs, top[..n]).Some?
      invariant chunks == MapSeq(Resolve(docs, top[..n]).value, ContentOf)
      invariant links == MapSeq(Resolve(docs, top[..n]).value, CitationOf)
    {
      assert top[..n + 1][..n] == top[..n];
      var i := top[n];
      if !(-|docs| <= i < |docs|) {
        ResolveSpec(docs, top);
        return false, chunks, links;
      }
      var doc := if i >= 0 then docs[i] else docs[|docs| + i];
      chunks := chunks + [doc.content];
      links := links + [Link(doc.snippet, doc.url)];
    }
    assert top[..|top|] == top;
    ok := true;
  }

  /** The process-wide state of the retrieval module: `_docs` and `_index`, with the
      data files and the learned components it is built from. */
  class QaService {
    var docs: Option<seq<Document>>
    var index: Option<FlatIndex>

    const course: Option<CourseJson>
    const forum: Option<seq<Topic>>
    const strip: string -> string
    const embed: string -> Vector
    const search: (FlatIndex, Vector, int) -> seq<int>
    const qa: (string, string) -> Option<string>

    /** Both globals are unset, or both are set: `_docs` to the loaded documents and
        `_index` to their embeddings, row for row. */
    ghost predicate Valid()
      reads this
    {
      (docs.Some? <==> index.Some?)
      && (index.Some? ==>
            docs.value == LoadedDocs(course, forum, strip)
            && index.value == FlatIndex(Embeddings(docs.value, embed)))
    }

    /** What a question gets, whatever the state: the override, or retrieval over
        the built index. */
    function Outcome(question: string, topK: int): Result<Answer, string>
    {
      if IsOverride(question) then Success(Answer(OverrideAnswerText, OverrideLinks))
      else
        var d := LoadedDocs(course, forum, strip);
        RetrievedAnswer(d, search(FlatIndex(Embeddings(d, embed)), embed(question), topK), question, qa)
    }

    /** The module as imported: nothing built yet. */
    constructor (course: Option<CourseJson>, forum: Option<seq<Topic>>, strip: string -> string,
                 embed: string -> Vector, search: (FlatIndex, Vector, int) -> seq<int>,
                 qa: (string, string) -> Option<string>)
      ensures Valid() && docs == None && index == None
      ensures this.course == course && this.forum == forum && this.strip == strip
      ensures this.embed == embed && this.search == search && this.qa == qa
    {
      this.course, this.forum, this.strip := course, forum, strip;
      this.embed, this.search, this.qa := embed, search, qa;
      docs, index := None, None;
    }

    /** `build_index`: load the documents, embed their contents, add them to a fresh index. */
    method BuildIndex()
      modifies this
      ensures Valid()
      ensures docs == Some(LoadedDocs(course, forum, strip))
      ensures index == Some(FlatIndex(Embeddings(docs.value, embed)))
    {
      var loaded := LoadDocuments(course, forum, strip);
      docs := Some(loaded);
      var texts := MapSeq(loaded, ContentOf);
      var embs := MapSeq(texts, embed);
      index := Some(FlatIndex(embs));
    }

    /** `get_answer_and_links`. The override leaves the state alone; otherwise the
        index is built if it is not yet, and never rebuilt once it is. */
    method GetAnswerAndLinks(question: string, topK: int) returns (r: Result<Answer, string>)
      requires Valid()
      modifies this
      ensures Valid()
      ensures r == Outcome(question, topK)
      ensures IsOverride(question) ==> docs == old(docs) && index == old(index)
      ensures old(index).Some? ==> docs == old(docs) && index == old(index)
      ensures !IsOverride(question) ==> index.Some?
    {
      var q := Lower(question);
      if Contains(q, "gpt-4o-mini") && Contains(q, "gpt3.5") {
        return Success(Answer(OverrideAnswerText, OverrideLinks));
      }
      if index == None {
        BuildIndex();
      }
      var qEmb := embed(question);
      var hits := search(index.value, qEmb, topK);
      var top := hits[..Min(ContextDocs, |hits|)];
      var ok, chunks, links := AssembleContext(docs.value, top);
      if !ok {
        return Failure(IndexErrorMessage);
      }
      var context := Join(Separator, chunks);
      var out := qa(question, context);
      var answer := if out.Some? then Strip(out.value) else "";
      r := Success(Answer(answer, links[..Min(CitedDocs, |links|)]));
    }
  }
}
