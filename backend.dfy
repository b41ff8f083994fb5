/** What the tools receive from the vector store. The store itself (ChromaDB,
    embeddings, fuzzy course-name resolution) is outside the model: each of its
    operations is a total function supplied with the store value, so the same
    question always gets the same answer. */
module Backend {
  import opened Wrappers

  /** A citation shown beside an answer: display text and an optional link. */
  datatype Source = Source(text: string, url: Option<string>)

  /** The metadata of one content chunk. A field is None when its key is
      missing from the metadata dictionary. */
  datatype ChunkMeta = ChunkMeta(courseTitle: Option<string>, lessonNumber: Option<int>)

  /** The result of the unified content search: documents and their metadata
      as parallel lists, or an error message. */
  datatype SearchResults = SearchResults(documents: seq<string>, metadata: seq<ChunkMeta>, error: Option<string>)

  /** `SearchResults.is_empty()`: no documents came back. */
  predicate IsEmpty(r: SearchResults) {
    |r.documents| == 0
  }

  /** The outcome of asking the store for a lesson or course link: a url, no
      link on record (None), or an exception with its message. */
  datatype LinkLookup = Found(url: string) | NoLink | Raised(message: string)

  /** The metadata of a course-catalog record. */
  datatype CourseMeta = CourseMeta(title: Option<string>, courseLink: Option<string>, lessonsJson: Option<string>)

  /** The dictionary returned by a catalog query: its 'documents' and
      'metadatas' entries (one inner list per query text), None when the key is
      missing or holds None. */
  datatype CatalogResult = CatalogResult(documents: Option<seq<seq<string>>>, metadatas: Option<seq<seq<CourseMeta>>>)

  /** A catalog query either returns (possibly None) or raises. */
  datatype CatalogReply = Answered(result: Option<CatalogResult>) | QueryRaised(message: string)

  /** The store the tools hold: `search(query, course_name, lesson_number)`,
      `get_lesson_link(title, n)`, `get_course_link(title)` and the top-1
      `course_catalog.query` for a course name. */
  datatype VectorStore = VectorStore(
    search: (string, Option<string>, Option<int>) -> SearchResults,
    lessonLink: (string, int) -> LinkLookup,
    courseLink: string -> LinkLookup,
    queryCatalog: string -> CatalogReply)
}
