/** The course post-processor: the element texts found in the scraped course page
    become the structured course record. The HTML parse itself is not modelled:
    a `Page` holds, per element kind and in document order, the stripped texts
    the parser would return. */
module PostprocessCourse {
  import opened Wrappers
  import opened Collections
  import opened Records

  /** The `N` of an `hN` heading element. */
  type Level = l: int | 1 <= l <= 6 witness 1

  datatype HeadingElement = HeadingElement(level: Level, text: string)

  /** An `<a>` element: its stripped text and its `href` attribute, if it has one. */
  datatype Anchor = Anchor(text: string, href: Option<string>)

  /** The parsed page: heading elements, `<p>` texts, the `<li>` texts of each
      `<ul>`/`<ol>`, the `<th>`/`<td>` texts of each `<tr>` of each `<table>`,
      and the anchors. */
  datatype Page = Page(
    headings: seq<HeadingElement>,
    paragraphs: seq<string>,
    lists: seq<seq<string>>,
    tables: seq<seq<seq<string>>>,
    anchors: seq<Anchor>)

  /** The record written to the structured course JSON, with exactly its five keys. */
  datatype StructuredCourse = StructuredCourse(
    headings: seq<Heading>,
    paragraphs: seq<string>,
    lists: seq<seq<string>>,
    tables: seq<seq<seq<string>>>,
    links: seq<Link>)

  function TagName(level: Level): (tag: string)
    ensures |tag| == 2 && tag[0] == 'h' && '1' <= tag[1] <= '6'
    ensures tag[1] as int - '0' as int == level
  {
    "h" + [('0' as int + level) as char]
  }

  function HeadingEntry(h: HeadingElement): Heading
  {
    Heading(TagName(h.level), h.text)
  }

  /** Headings are never filtered: one entry per heading element, in order. */
  function Headings(elements: seq<HeadingElement>): seq<Heading>
  {
    MapSeq(elements, HeadingEntry)
  }

  lemma HeadingsOnePerElement(elements: seq<HeadingElement>)
    ensures |Headings(elements)| == |elements|
    ensures forall i :: 0 <= i < |elements| ==>
      Headings(elements)[i].text == elements[i].text
      && Headings(elements)[i].tag == TagName(elements[i].level)
  {
    forall i | 0 <= i < |elements|
      ensures Headings(elements)[i] == HeadingEntry(elements[i])
    {
      MapSeqAt(elements, HeadingEntry, i);
    }
  }

  predicate NonEmptyText(s: string) { s != "" }

  predicate NonEmptyList(items: seq<string>) { items != [] }

  predicate NonEmptyRow(cells: seq<string>) { cells != [] }

  predicate NonEmptyTable(rows: seq<seq<string>>) { rows != [] }

  /** The paragraphs comprehension: empty texts are dropped, order is kept. */
  function Paragraphs(texts: seq<string>): seq<string>
  {
    Filter(texts, NonEmptyText)
  }

  /** A table with its empty rows dropped. */
  function CleanRows(rows: seq<seq<string>>): seq<seq<string>>
  {
    Filter(rows, NonEmptyRow)
  }

  /** Tables with empty rows dropped, and then tables left without rows dropped. */
  function CleanTables(tables: seq<seq<seq<string>>>): seq<seq<seq<string>>>
  {
    Filter(MapSeq(tables, CleanRows), NonEmptyTable)
  }

  predicate UsableAnchor(a: Anchor)
  {
    a.href.Some? && a.text != "" && a.href.value != ""
  }

  /** The anchors that have an `href`, with non-empty text and `href`, as links. */
  function UsableLinks(anchors: seq<Anchor>): seq<Link>
  {
    if anchors == [] then []
    else
      var a := anchors[|anchors| - 1];
      UsableLinks(anchors[..|anchors| - 1])
        + (if UsableAnchor(a) then [Link(a.text, a.href.value)] else [])
  }

  /** A link is produced exactly for an anchor with that text and a present `href`
      of that value, both non-empty. */
  lemma {:induction false} UsableLinksMembership(anchors: seq<Anchor>, l: Link)
    ensures l in UsableLinks(anchors) <==>
      Anchor(l.text, Some(l.url)) in anchors && l.text != "" && l.url != ""
  {
    if anchors != [] {
      var front, a := anchors[..|anchors| - 1], anchors[|anchors| - 1];
      UsableLinksMembership(front, l);
      assert anchors == front + [a];
    }
  }

  /** Everything the loader can rely on in a post-processed course. */
  predicate WellFormed(c: StructuredCourse)
  {
    (forall p :: p in c.paragraphs ==> p != "")
    && (forall l :: l in c.lists ==> l != [])
    && (forall t :: t in c.tables ==> t != [] && forall r :: r in t ==> r != [])
    && (forall l :: l in c.links ==> l.text != "" && l.url != "")
  }

  /** The whole record the post-processor builds from a page. */
  function Structured(page: Page): StructuredCourse
  {
    StructuredCourse(
      Headings(page.headings),
      Paragraphs(page.paragraphs),
      Filter(page.lists, NonEmptyList),
      CleanTables(page.tables),
      UsableLinks(page.anchors))
  }

  /** The list loop: lists without items are skipped, the others kept in order. */
  method CollectLists(elements: seq<seq<string>>) returns (lists: seq<seq<string>>)
    ensures lists == Filter(elements, NonEmptyList)
  {
    lists := [];
    for i := 0 to |elements|
      invariant lists == Filter(elements[..i], NonEmptyList)
    {
      FilterSnoc(elements, i, NonEmptyList);
      var items := elements[i];
      if items != [] {
        lists := lists + [items];
      }
    }
    assert elements[..|elements|] == elements;
  }

  /** The table loops: rows without cells are skipped, and so is a table left
      without rows. */
  method CollectTables(elements: seq<seq<seq<string>>>) returns (tables: seq<seq<seq<string>>>)
    ensures tables == CleanTables(elements)
  {
    tables := [];
    for i := 0 to |elements|
      invariant tables == CleanTables(elements[..i])
    {
      var table := elements[i];
      var rows := [];
      for j := 0 to |table|
        invariant rows == CleanRows(table[..j])
      {
        CleanRowsSnoc(table, j);
        var cells := table[j];
        if cells != [] {
          rows := rows + [cells];
        }
      }
      assert table[..|table|] == table;
      CleanTablesSnoc(elements, i);
      if rows != [] {
        tables := tables + [rows];
      }
    }
    assert elements[..|elements|] == elements;
  }

  /** One step of the row loop: the next row is appended when it has cells. */
  lemma CleanRowsSnoc(rows: seq<seq<string>>, j: nat)
    requires j < |rows|
    ensures CleanRows(rows[..j + 1]) == CleanRows(rows[..j]) + (if rows[j] != [] then [rows[j]] else [])
  {
    FilterSnoc(rows, j, NonEmptyRow);
  }

  /** One step of the table loop: the next table, cleaned, is appended when rows remain. */
  lemma CleanTablesSnoc(elements: seq<seq<seq<string>>>, i: nat)
    requires i < |elements|
    ensures var rows := CleanRows(elements[i]);
      CleanTables(elements[..i + 1]) == CleanTables(elements[..i]) + (if rows != [] then [rows] else [])
  {
    var rows := CleanRows(elements[i]);
    MapSeqSnoc(elements, i, CleanRows);
    FilterConcat(MapSeq(elements[..i], CleanRows), [rows], NonEmptyTable);
    FilterSnoc([rows], 0, NonEmptyTable);
    assert [rows][..0] == [] && [rows][..1] == [rows];
  }

  /** The link loop: only anchors with non-empty text and `href` become links. */
  method CollectLinks(anchors: seq<Anchor>) returns (links: seq<Link>)
    ensures links == UsableLinks(anchors)
  {
    links := [];
    for i := 0 to |anchors|
      invariant links == UsableLinks(anchors[..i])
    {
      assert anchors[..i + 1][..i] == anchors[..i];
      var a := anchors[i];
      if a.href.Some? {
        var text, href := a.text, a.href.value;
        if text != "" && href != "" {
          links := links + [Link(text, href)];
        }
      }
    }
    assert anchors[..|anchors|] == anchors;
  }

  /** `parse_course_html` without the file I/O: the structured record of a page,
      which satisfies every emptiness rule. */
  method ParseCourseHtml(page: Page) returns (course: StructuredCourse)
    ensures course == Structured(page)
    ensures WellFormed(course)
  {
    var headings := Headings(page.headings);
    var paragraphs := Paragraphs(page.paragraphs);
    var lists := CollectLists(page.lists);
    var tables := CollectTables(page.tables);
    var links := CollectLinks(page.anchors);
    course := StructuredCourse(headings, paragraphs, lists, tables, links);
    StructuredWellFormed(page);
  }

  /** The filtering rules leave no empty paragraph, list, table, row or link. */
  lemma StructuredWellFormed(page: Page)
    ensures WellFormed(Structured(page))
  {
    var c := Structured(page);
    forall l | l in c.links
      ensures l.text != "" && l.url != ""
    {
      UsableLinksMembership(page.anchors, l);
    }
    forall t | t in c.tables
      ensures t != [] && forall r :: r in t ==> r != []
    {
      var cleaned := MapSeq(page.tables, CleanRows);
      assert t in cleaned;
      var k :| 0 <= k < |cleaned| && cleaned[k] == t;
      MapSeqAt(page.tables, CleanRows, k);
    }
  }

  /** Every non-empty paragraph, every list with items, every table with a
      non-empty row (cleaned of its empty rows) and every usable anchor of the page
      reaches the record. */
  lemma StructuredKeepsContent(page: Page)
    ensures forall p :: p in page.paragraphs && p != "" ==> p in Structured(page).paragraphs
    ensures forall l :: l in page.lists && l != [] ==> l in Structured(page).lists
    ensures forall a :: a in page.anchors && UsableAnchor(a) ==>
      Link(a.text, a.href.value) in Structured(page).links
    ensures forall t :: t in page.tables && (exists r :: r in t && r != []) ==>
      CleanRows(t) in Structured(page).tables
  {
    forall p | p in page.paragraphs && p != ""
      ensures p in Structured(page).paragraphs
    {
      FilterKeeps(page.paragraphs, NonEmptyText, p);
    }
    forall l | l in page.lists && l != []
      ensures l in Structured(page).lists
    {
      FilterKeeps(page.lists, NonEmptyList, l);
    }
    forall a | a in page.anchors && UsableAnchor(a)
      ensures Link(a.text, a.href.value) in Structured(page).links
    {
      UsableLinksMembership(page.anchors, Link(a.text, a.href.value));
    }
    forall t | t in page.tables && (exists r :: r in t && r != [])
      ensures CleanRows(t) in Structured(page).tables
    {
      var r :| r in t && r != [];
      FilterKeeps(t, NonEmptyRow, r);
      var k :| 0 <= k < |page.tables| && page.tables[k] == t;
      MapSeqAt(page.tables, CleanRows, k);
      FilterKeeps(MapSeq(page.tables, CleanRows), NonEmptyTable, CleanRows(t));
    }
  }

  /** A table keeps its non-empty rows in their order, and is dropped exactly when
      none is left. */
  lemma {:induction false} CleanTablesOrder(a: seq<seq<seq<string>>>, b: seq<seq<seq<string>>>)
    ensures CleanTables(a + b) == CleanTables(a) + CleanTables(b)
  {
    MapSeqConcat(a, b, CleanRows);
    FilterConcat(MapSeq(a, CleanRows), MapSeq(b, CleanRows), NonEmptyTable);
  }

  /** The record as the loader reads it back from the JSON file: all keys present. */
  function AsJson(c: StructuredCourse): CourseJson
  {
    CourseJson(Some(c.headings), Some(c.paragraphs), Some(c.lists), Some(c.tables), Some(c.links))
  }
}
