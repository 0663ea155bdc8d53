/** The records that flow between the post-processor, the loader and the
    orchestrator, as their JSON shapes are read and written. */
module Records {
  import opened Wrappers

  /** A `{text, url}` object: a course link, or a citation in an answer. */
  datatype Link = Link(text: string, url: string)

  /** A heading entry of the structured course: tag name (`h1` … `h6`) and text. */
  datatype Heading = Heading(tag: string, text: string)

  /** The structured course JSON as the loader reads it: every key may be missing. */
  datatype CourseJson = CourseJson(
    headings: Option<seq<Heading>>,
    paragraphs: Option<seq<string>>,
    lists: Option<seq<seq<string>>>,
    tables: Option<seq<seq<seq<string>>>>,
    links: Option<seq<Link>>)

  /** A forum post; only its markup body is read by the loader. */
  datatype Post = Post(postNumber: int, username: string, html: string)

  /** A forum topic; `url` and `posts` may be missing from its JSON object. */
  datatype Topic = Topic(url: Option<string>, posts: Option<seq<Post>>)

  /** A retrievable unit: `page_content`, and the `url` and `text` of its metadata. */
  datatype Document = Document(content: string, url: string, snippet: string)

  /** The orchestrator's reply: an answer and its citation links. */
  datatype Answer = Answer(answer: string, links: seq<Link>)
}
