# TDS Virtual TA — retrieval question answering, modelled in Dafny

The system answers questions about a course from two scraped sources: the
structured course page (paragraphs, lists, tables, links) and forum topics with
their posts. A post-processor turns the scraped course page into the structured
course record; a loader flattens both sources into one ordered sequence of
documents `(content, url, snippet)`. Every question first goes through an
override check (a fixed answer for questions naming both `gpt-4o-mini` and
`gpt3.5`, returned without touching the index); the first question that does
not take the override builds, once per process, a vector index holding one
embedding per document, row-aligned with the documents; every such question then
goes through top-k retrieval, context assembly from the first three hits,
extractive answering and trimming of the citations to two. The HTTP layer passes the reply through, or maps a failure to
503 (the message mentions a rate limit or quota) or 500.

Files and modules:

- `wrappers.dfy` (`Wrappers`): `Option`, `Result`.
- `collections.dfy` (`Collections`): list comprehensions as `MapSeq`/`Filter`,
  built from the back like the source's `append` loops, with their laws.
- `text.dfy` (`Text`): `str.join`, `str.lower`, `str.strip`, `in`; `str.split` is modelled only as the inverse of `join` in the round-trip lemmas, the source never calls it.
- `records.dfy` (`Records`): the JSON records exchanged between the parts.
- `postprocess_course.dfy` (`PostprocessCourse`): `parse_course_html`.
- `loader.dfy` (`Loader`): `load_documents`.
- `retrieval.dfy` (`Retrieval`): the globals `_docs`/`_index` as the class
  `QaService`, `build_index`, `get_answer_and_links`.
- `api.dfy` (`Api`): `answer_question`, `health_check`.

The learned components are parameters of the model: `strip` (markup to text of
a forum post), `embed` (encode and L2-normalise one text), `search` (the flat
inner-product index search, returning row indices in rank order, `-1` for
padding) and `qa` (the extractive QA pipeline's `answer`, if any). The parsed
course page is given as the stripped texts of its elements, in document order.

Python's list subscript is modelled as it behaves (`PyIndex`): a negative
subscript counts from the end and anything else out of range raises
`IndexError`. So when the index holds fewer rows than requested and pads its
hits with `-1`, `_docs[-1]` silently yields the last document
(`SingleDocumentRepeated`), and with no documents any returned hit makes the
request fail (`EmptyCollectionFails`).

Where the documented intent and the code differ, the model follows the code:
documents are not guaranteed non-empty content (a list whose only item is empty
gives an empty document, `EmptyListItemGivesEmptyDocument`; so does a forum post
whose text is empty); search hits are not guaranteed in range (see above); and
there is no guard against two concurrent first requests both building the index.

## Model

| member | source | states |
|---|---|---|
| `PostprocessCourse.HeadingsOnePerElement` | app/postprocess_course.py:14-17 | one heading entry per h1–h6 element, in document order, with tag `hN` and the element's text; entries with empty text are kept |
| `Collections.FilterConcat` | app/postprocess_course.py:20-24 | the filtering comprehension keeps source order: filtering a concatenation is the concatenation of the filtered parts |
| `PostprocessCourse.CollectLists` | app/postprocess_course.py:27-31 | the list loop yields exactly the lists with at least one item, in order; items themselves are not filtered |
| `PostprocessCourse.CollectTables` | app/postprocess_course.py:34-42 | the table loops drop rows without cells and then tables left without rows, keeping order |
| `PostprocessCourse.CleanTablesOrder` | app/postprocess_course.py:34-42 | table cleaning works table by table: cleaning a concatenation concatenates the cleaned parts |
| `PostprocessCourse.CollectLinks` | app/postprocess_course.py:45-51 | the link loop yields `{text, url}` for the anchors with an href and non-empty text and href, in order |
| `PostprocessCourse.UsableLinksMembership` | app/postprocess_course.py:45-51 | a link is produced if and only if an anchor with that text and that present href exists and both are non-empty |
| `PostprocessCourse.ParseCourseHtml` | app/postprocess_course.py:9-59 | the record has exactly the five keys headings, paragraphs, lists, tables, links, built by the rules above, and is well formed |
| `PostprocessCourse.StructuredWellFormed` | app/postprocess_course.py:20-51 | every output paragraph, list, table, row, link text and link url is non-empty |
| `PostprocessCourse.StructuredKeepsContent` | app/postprocess_course.py:20-51 | every non-empty paragraph, every list with items, every table with at least one non-empty row (cleaned of its empty rows) and every usable anchor of the page reaches the record |
| `Loader.Snippet` | app/model.py:61 | a forum snippet is the text itself when at most 200 characters long, otherwise exactly 201 characters long; never longer than 201 |
| `Loader.SnippetTruncates` | app/model.py:61 | a snippet of a text longer than 200 characters is its first 200 characters followed by `…` (U+2026) |
| `Loader.LoadDocuments` | app/model.py:32-63 | the loader's output for two files, each present or missing: course documents then forum documents |
| `Loader.LoadCourse` | app/model.py:35-50 | the course loops give paragraph, list, table and link documents in that order |
| `Loader.LoadForum` | app/model.py:52-62 | the forum loops give one document per post, topic after topic |
| `Loader.LoadedDocsLayout` | app/model.py:32-63 | the count is paragraphs + lists + tables + links + all posts; a missing file contributes nothing; all course documents precede all forum documents |
| `Loader.ForumDocsCount` | app/model.py:54-62 | the forum contributes exactly as many documents as there are posts over all topics |
| `Loader.ParagraphDocument` | app/model.py:37-38 | paragraph i becomes document i with content and snippet the paragraph and url `course` |
| `Loader.ListDocument` | app/model.py:39-41 | each list becomes one document whose content and snippet are its items joined with newlines |
| `Loader.TableDocument` | app/model.py:42-45 | each table becomes one document: each row's cells tab-joined, rows newline-joined |
| `Loader.LinkDocument` | app/model.py:46-50 | each link becomes one document with content and snippet its text and url its url |
| `Loader.ForumDocument` | app/model.py:54-62 | post j of topic k is forum document (posts of earlier topics) + j, with the post's text, the topic's url or `""`, and the snippet of the text |
| `Loader.ListRoundTrip` | app/model.py:39-41 | a non-empty list whose items hold no newline is recovered from its document by splitting at newlines |
| `Loader.TableRoundTrip` | app/model.py:42-45 | a table with rows, each with cells, holding no tab or newline, is recovered from its document by splitting at newlines and then tabs |
| `Loader.EmptyListItemGivesEmptyDocument` | app/model.py:39-41 | a list whose only item is empty yields a document with empty content |
| `Loader.PostprocessedCourseDocs` | app/model.py:37-50 | from a post-processed course, paragraph and link documents have non-empty content and link documents a non-empty url |
| `Retrieval.EmbeddingsAligned` | app/model.py:65-76 | the index holds exactly one vector per document, row i being the embedding of document i's content |
| `Retrieval.QaService.constructor` | app/model.py:19-21 | at import, neither `_docs` nor `_index` is set |
| `Retrieval.QaService.BuildIndex` | app/model.py:65-76 | `_docs` becomes the loader's output and `_index` their embeddings, row-aligned |
| `Retrieval.QaService.GetAnswerAndLinks` | app/model.py:80-119 | the override returns the fixed answer and two fixed links without touching `_docs`/`_index`; otherwise the index is built only if unset and never rebuilt, and the reply is retrieval over the built index |
| `Retrieval.OverrideIgnoresCase` | app/model.py:82-83 | the override depends only on the lowercased question |
| `Retrieval.OverrideOnMarkers` | app/model.py:82-96 | a question containing both model names, in any case and either order, takes the override |
| `Text.ContainsAt` | app/model.py:83 | the substring test holds exactly when the needle occurs at some offset |
| `Retrieval.PyIndex` | app/model.py:111 | a list subscript succeeds exactly for -len ≤ i < len, a negative one counting from the end |
| `Retrieval.ResolveSpec` | app/model.py:110-111 | looking up the hits succeeds exactly when every subscript is valid, and yields the subscripted documents in hit order |
| `Retrieval.AssembleContext` | app/model.py:109-113 | the loop collects the contents and `{url, text}` citations of the hit documents in rank order, or stops at the first failing subscript |
| `Retrieval.RetrievedAnswerSpec` | app/model.py:106-119 | the context is the contents of the first ≤3 hits joined by the separator in rank order; links are the first ≤2 of their citations; the answer is the stripped extraction or `""`; failure only on a bad subscript |
| `Retrieval.EmptyCollectionFails` | app/model.py:110-111 | with no documents, any hit makes the request fail with the IndexError message |
| `Retrieval.SingleDocumentRepeated` | app/model.py:106-119 | with one document and hits padded with -1, that document funds the context three times and is cited twice |
| `Text.StripCutsOnlySpace` | app/model.py:116 | stripping cuts away only leading and trailing whitespace and keeps the contiguous middle |
| `Text.StripIdempotent` | app/model.py:116 | stripping an answer twice changes nothing more |
| `Api.HealthCheck` | app/main.py:15-17 | the health check always returns status `ok` and message `TDS Virtual TA is running` |
| `Api.ToResponse` | app/main.py:21-28 | a successful reply is passed through unchanged; a failure becomes a 503 or a 500 error |
| `Api.FailureClassification` | app/main.py:24-28 | a failure is 503 with the fixed detail exactly when `rate limit` or `quota` occurs in the lowercased message; otherwise 500 with the prefix followed by the original, not lowercased, message |
| `Api.MarkerIsOverload` | app/main.py:25-27 | `rate limit` or `quota`, in any case, anywhere in the message gives 503 with the fixed detail |
| `Api.AnswerQuestion` | app/main.py:20-23 | only the request's question is passed on, with the default top-k of 5, and the reply is the classified outcome; the image is ignored; an override question leaves the loaded documents and index untouched, an index already built is never rebuilt, and any other question leaves the index built |

## Left out

- Parsing HTML: the course page is given as the stripped texts of its elements,
  and the text of a forum post is the parameter `strip`; nested lists and the
  parser's own text extraction are not modelled.
- File and JSON I/O: each data file is given as its decoded contents or as
  missing; writing the structured record and the progress message are not
  modelled. Values of the wrong JSON type (a `null` url, a link without `text`
  or `url`, which raises in the source) are not modelled.
- The learned models and vector arithmetic: encoding, L2 normalisation, the
  index search and the QA pipeline are parameters; scores, ranking quality, tie
  breaking and the vector dimension are not modelled.
- The number of hits: `search` is not constrained to return `top_k` entries as
  the flat index does (padding with `-1`), so the model also covers a search
  returning no hits, which over an empty collection succeeds with an empty
  context.
- Exceptions raised inside the encoder, the index or the QA pipeline (including
  how the encoder treats an empty batch): these parameters are total, so the
  only failure modelled inside the orchestrator is the list subscript's
  `IndexError`; the HTTP layer classifies any failure message.
- A build interrupted after `_docs` is set and before `_index` is set is not
  modelled, since the parameters never raise.
- The data files are fixed for the life of the service; the source re-reads
  them only on a build, and it builds once.
- Concurrency: the source has no lock around the lazy build, and the model
  claims no single-build guarantee.
- Text.Lower: lowers ASCII letters only and leaves every other character
  unchanged. Python's `lower` also lowers non-ASCII letters, and a few of them
  lower to ASCII (U+0130 to `i` followed by a combining dot, U+212A to `k`), so a
  question ending `gpt-4o-min` + U+0130 with `gpt3.5` takes the override in the
  source but not in the model.
- FastAPI and pydantic wiring beyond the response mapping.
- The forum scraper (`app/scrape_discourse.py`), the course scraper
  (`app/scrape_course.py`) and `app/debug.py`: network and browser automation
  that only produce the inputs modelled here.
