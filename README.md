# Course-assistant retrieval tools, modelled in Dafny

This project models the tool layer of a course question-answering chatbot
(`backend/search_tools.py`). The model has three parts:

- **`CourseSearchTool`** runs one content search against the vector store.
  - A truthy error from the store is passed through unchanged.
  - An empty result is explained by a "No relevant content found" message that echoes the filters used.
  - Anything else is rendered as one `[title - Lesson n]` block per (document, metadata) pair.
  - While rendering, the tool collects one `Source` citation per distinct (course title, lesson number) pair, in first-seen order. Each citation's url comes from a lesson-link, then course-link, then none fallback that swallows lookup failures.
- **`CourseOutlineTool`** resolves a course name to the top catalog match. It prints the course line, an optional link line, a lesson count and one line per lesson, and cites the course as the only source. Every failure comes back as returned text.
- **`ToolManager`** is the name-keyed registry. It rejects nameless registrations, keeps registration order across re-registration, dispatches by name, returns the first non-empty `last_sources`, and resets all of them.

Files:

| file | contents |
|---|---|
| `wrappers.dfy` | `Option` |
| `text.dfy` | Python `str()` of integers, truthiness, `"sep".join`, `str.split` on one character, and the split-after-join round trip |
| `dedup.dfy` | first-seen de-duplication (`Distinct`) and its properties |
| `backend.dfy` | the values the tools receive from the vector store |
| `tools.dfy` | tool definitions, call arguments, call outcomes |
| `course_search.dfy` | `CourseSearchTool` |
| `course_outline.dfy` | `CourseOutlineTool` |
| `tool_manager.dfy` | `ToolManager` |

Modelling choices:

- **The store.** The vector store is a value of total functions: the search, the two link lookups and the catalog query. The same question therefore always gets the same answer.
  - A link lookup answers `Found(url)`, `NoLink`, or `Raised(message)` for an exception.
  - A catalog query either answers with an optional result (`Answered`) or raises (`QueryRaised`).
- **Lesson decoding.** Decoding of `lessons_json` is a function supplied with the outline tool. It yields the lesson entries or `DecodeRaised(message)`.
- **Tools as classes.** Each tool is a class whose `last_sources` field is a `seq<Source>`. Its `Execute` method is proved against a specification function of the store answers and of the sources it held before the call (`SearchOutcome`, `OutlineOutcome`).
- **Loops.**
  - The formatting loop of `_format_results` keeps the `formatted` list, the `sources` list and the `seen_sources` key set in step with functions of the chunks processed so far.
  - The outline loop keeps `formatted` equal to the header lines plus the lesson lines so far.
- **The registry.** The tool dictionary is a `map` from name to tool, plus the sequence of names in insertion order. Python dictionaries iterate in insertion order, and overwriting a key keeps its place.
- **Integers.** Lesson numbers are rendered as Python's `str` renders an `int`, a leading `-` included.
- **Calls.** Keyword arguments are a datatype with one shape per tool. `ArgumentsRejected` stands for the `TypeError` raised when the arguments do not fit the tool.

The tests expect empty sources after an empty search and after an unknown
course (`backend/tests/test_course_search_tool.py:105-106`, "Sources should
be empty or cleared"; `backend/tests/test_course_outline_tool.py:72`), but
the code does not clear them. The model follows the code:

- An empty search result does not clear `last_sources` (`backend/search_tools.py:77-83`): the citations of the previous search survive. `CourseSearch.StaleSourcesSurviveEmptySearch` proves this.
- A catalog query with no match does not clear `last_sources` either (`backend/search_tools.py:189-196`). `CourseOutline.NoMatchKeepsSources` covers it.
- Those tests pass only because each builds a fresh tool, and both constructors start from `[]`.

## Model

| member | source | states |
|---|---|---|
| `CourseSearch.Definition` | backend/search_tools.py:29-30 | the search tool's definition names it `search_course_content`, a truthy name, so registration accepts it |
| `CourseSearch.NoContentMessage` | backend/search_tools.py:78-83 | the message starts `No relevant content found` and ends with `.`, and it is exactly `No relevant content found.` iff neither filter is truthy |
| `CourseSearch.SourceKey` | backend/search_tools.py:112 | in the `title:lesson` key, the last colon sits right after the title: the title is everything before it and the rendered lesson number everything after |
| `CourseSearch.CourseSearchTool.constructor` | backend/search_tools.py:23-25 | a new search tool holds the given store and no sources |
| `CourseSearch.CourseSearchTool.Execute` | backend/search_tools.py:52-86 | the returned text and the new `last_sources` are exactly `SearchOutcome` of the store's answer and the sources held before the call |
| `CourseSearch.SearchErrorPassesThrough` | backend/search_tools.py:73-74 | a truthy error is returned verbatim and the previous sources are kept |
| `CourseSearch.EmptyResultKeepsSources` | backend/search_tools.py:77-83 | an empty result without error gives the no-content message and keeps the previous sources |
| `CourseSearch.FalsyFiltersAreOmitted` | backend/search_tools.py:78-83 | an empty course name is not echoed, lesson 0 is not echoed, and with no filters the message is exactly `No relevant content found.` |
| `CourseSearch.FormattedResultOutcome` | backend/search_tools.py:85-86 | a non-empty result without error is rendered, and its citations replace the previous sources |
| `CourseSearch.StaleSourcesSurviveEmptySearch` | backend/search_tools.py:77-83 | after a formatted search, a search that finds nothing leaves the first search's citations, of which there is at least one |
| `CourseSearch.Zip` | backend/search_tools.py:96 | the pairs run to the shorter of the two lists, and the k-th pair is the k-th document with the k-th metadata |
| `CourseSearch.CourseSearchTool.Labels` | backend/search_tools.py:100-109 | the header is `[title` + (` - Lesson n` iff a lesson number is present) + `]`, and the citation text is the title with the same suffix |
| `CourseSearch.BlockHeaderIsSourceText` | backend/search_tools.py:100-109 | each block's header line is the bracketed citation text of the chunk's pair |
| `CourseSearch.MissingMetadataIsUnknown` | backend/search_tools.py:97-98 | a chunk without title or lesson is rendered under `[unknown]` and cited as `unknown` with the course link of `unknown` |
| `CourseSearch.FormattedTextSingle` | backend/search_tools.py:141 | one chunk renders as its block alone |
| `CourseSearch.FormattedTextSnoc` | backend/search_tools.py:136-141 | one more chunk appends a blank line and its block, so the text holds one block per chunk in input order |
| `CourseSearch.SourceKeyInjective` | backend/search_tools.py:112-115 | the `title:lesson` key is equal for two pairs exactly when the pairs are equal, because the lesson part never contains a colon |
| `CourseSearch.SplitAtLastColon` | backend/search_tools.py:112 | a string `a:b` with no colon in `b` splits back into `a` and `b` only one way |
| `CourseSearch.ResolveLink` | backend/search_tools.py:118-131 | the lesson link is requested iff there is a lesson number; the course link iff there is none or the lesson link is None; the url is the last answer requested, None when it raised or had no link |
| `CourseSearch.RaisingLessonLookupSkipsCourseLink` | backend/search_tools.py:120-131 | a raising lesson lookup skips the course lookup and the citation is still made, with no url |
| `CourseSearch.CourseSearchTool.FetchLink` | backend/search_tools.py:118-131 | the lookups the `try` block makes, in order, are those of `ResolveLink`, and the link it leaves is the url of `ResolveLink` |
| `CourseSearch.LinksAffectOnlyUrls` | backend/search_tools.py:118-136 | two stores that answer the search alike give the same text and the same citation texts in the same order, whatever their link lookups do |
| `CourseSearch.CourseSearchTool.FormatResults` | backend/search_tools.py:88-141 | the text is the blocks joined by blank lines, and `last_sources` is replaced by one citation per distinct pair in first-seen order |
| `CourseSearch.ExpectedSourcesCount` | backend/search_tools.py:114-116 | there are as many citations as distinct (title, lesson) pairs, never more than chunks, and the k-th cites the k-th distinct pair |
| `CourseSearch.DistinctPairsFirstSeen` | backend/search_tools.py:114-116 | the cited pairs occur among the chunks, hold no pair twice, and come in the order of their first occurrence |
| `CourseSearch.DistinctPairsCoverChunks` | backend/search_tools.py:96-116 | every chunk's pair is cited, and every cited pair is some chunk's pair |
| `CourseSearch.SomeChunkGivesSomeSource` | backend/search_tools.py:114-134 | at least one chunk means at least one citation |
| `CourseSearch.DuplicatePairsAreCitedOnce` | backend/tests/test_course_search_tool.py:156-179 | lesson 1 twice and lesson 2 once are cited as two pairs, lesson 1 first |
| `Dedup.DistinctElements` | backend/search_tools.py:114-116 | first-seen de-duplication keeps exactly the elements of the input, each once |
| `Dedup.DistinctFirstSeenOrder` | backend/search_tools.py:114-116 | first-seen de-duplication orders the kept elements by their first occurrence |
| `Dedup.DistinctLength` | backend/search_tools.py:114-116 | the kept elements number as many as the input's different values, at most its length |
| `Text.IntToStringInjective` | backend/search_tools.py:112 | the decimal rendering of an integer determines the integer |
| `Text.OptionalIntToStringHasNo` | backend/search_tools.py:112 | a rendered optional lesson number (`None` or digits) holds no colon and no newline |
| `Text.SplitJoin` | backend/search_tools.py:226 | joining separator-free lines and splitting on the separator gives the lines back |
| `Text.JoinConcat` | backend/search_tools.py:141 | joining two non-empty lists of parts puts one separator between their joins |
| `CourseOutline.Definition` | backend/search_tools.py:153-154 | the outline tool's definition names it `get_course_outline`, a truthy name, so registration accepts it |
| `CourseOutline.TopMatch` | backend/search_tools.py:189-199 | there is a match iff the result is present and both 'documents' and 'metadatas' are present with a non-empty first inner list; the match is `metadatas[0][0]` |
| `CourseOutline.LessonLine` | backend/search_tools.py:217-220 | a lesson line starts `  Lesson ` and ends with `: ` and the lesson title, `Untitled` when missing |
| `CourseOutline.CourseOutlineTool.constructor` | backend/search_tools.py:147-149 | a new outline tool holds the given store and decoder and no sources |
| `CourseOutline.CourseOutlineTool.Execute` | backend/search_tools.py:168-229 | the returned text and the new `last_sources` are exactly `OutlineOutcome` of the catalog answer, the decoding and the sources held before |
| `CourseOutline.MissingMatches` | backend/search_tools.py:189-195 | a missing result, a missing or empty documents or metadatas list, or an empty first inner list gives no match |
| `CourseOutline.MatchIsFirstMetadata` | backend/search_tools.py:199 | a match is the first metadata of the first inner list |
| `CourseOutline.NoMatchKeepsSources` | backend/search_tools.py:196 | no match gives exactly `No course found matching '<name>'` and keeps the previous sources |
| `CourseOutline.FailureIsReported` | backend/search_tools.py:228-229 | a raising catalog query or lesson decoding gives `Error retrieving course outline: <message>` and keeps the previous sources |
| `CourseOutline.SourcesChangeOnlyOnSuccess` | backend/search_tools.py:222-224 | the sources are either those held before or, on success, exactly one citation of the matched title with its course link |
| `CourseOutline.OutlineLinesAsPrinted` | backend/search_tools.py:209-226 | with single-line fields, the printed outline's lines are the course line, the link line iff the link is truthy, a blank line, the count line, then one line per lesson in stored order |
| `CourseOutline.OutlineReadBack` | backend/search_tools.py:210-220 | reading the printed lines back: the first names the course, the count line states how many lesson lines follow it, and each follows in order |
| `CourseOutline.NoLessonsOutline` | backend/search_tools.py:205-215 | a falsy `lessons_json` gives no lessons and the count line `Lessons (0 total):` with no lesson lines |
| `CourseOutline.CountLine` | backend/search_tools.py:215 | the count entry is a newline followed by `Lessons (<k> total):` |
| `ToolManagement.NotFoundMessage` | backend/search_tools.py:254 | the message is `Tool '`, then the requested name verbatim, then `' not found` |
| `ToolManagement.SourcesOf` | backend/search_tools.py:262-269 | a tool without `last_sources` (the `hasattr` test) contributes no sources |
| `ToolManagement.RegisterCourseTools` | backend/search_tools.py:238-244 | registering the search tool and then the outline tool keeps both, under their two distinct names, in that order |
| `ToolManagement.CourseToolsDispatch` | backend/search_tools.py:251-256 | with both course tools registered, a call by `search_course_content` returns the search outcome's text and one by `get_course_outline` the outline outcome's text, and each updates its own tool's sources |
| `ToolManagement.UnknownNameIsReported` | backend/search_tools.py:253-254 | with both course tools registered, any other name gives `Tool '<name>' not found` |
| `ToolManagement.ToolManager.constructor` | backend/search_tools.py:235-236 | a new manager has no tools |
| `ToolManagement.ToolManager.RegisterTool` | backend/search_tools.py:238-244 | a definition without a truthy name is rejected with the source's message and changes nothing; otherwise the name maps to the tool, a known name keeps its place, and a new one goes last |
| `ToolManagement.OrderAfter` | backend/search_tools.py:244 | after registering a name, the order holds it; a known name leaves the order as it was, a new one is appended |
| `ToolManagement.ToolManager.ToolDefinitions` | backend/search_tools.py:247-249 | one definition per registered name, in registration order, each carrying its name, no name twice |
| `ToolManagement.ToolManager.ExecuteTool` | backend/search_tools.py:251-256 | an unknown name gives `Tool '<name>' not found` and changes nothing; a known name runs that tool alone and returns its text verbatim |
| `ToolManagement.FirstNonEmpty` | backend/search_tools.py:258-264 | the result is empty iff every list is, and otherwise it is the list at the first non-empty position |
| `ToolManagement.FirstNonEmptyAt` | backend/search_tools.py:261-263 | a non-empty list with only empty lists before it is the first non-empty one |
| `ToolManagement.ToolManager.GetLastSources` | backend/search_tools.py:258-264 | the result is the first non-empty `last_sources` in registration order, or empty |
| `ToolManagement.ToolManager.ResetSources` | backend/search_tools.py:266-270 | every registered tool that tracks sources (`hasattr`) holds none afterwards, the registry is unchanged, and collecting sources then gives none |

## Left out

- The vector store, ChromaDB and the fuzzy course-name resolution are external services. Their answers are the functions of the store value.
- `vector_store.py` and `models.py` are not part of this model. `SearchResults.is_empty()` is taken to mean "no documents", and a `Source` is a plain (text, url) record.
- An exception raised by the store's `search` propagates out of `execute` in the code. The model's search always answers, so that path is not modelled.
- Metadata values are either present or missing. A key that is present but holds None is treated as missing. Chunk lesson numbers and lesson entries' numbers are treated as optional integers.
- `json.loads` is the decoder supplied with the outline tool, not a parser. An exception raised while reading the decoded entries counts as a decoding failure.
- The warning `print` at `backend/search_tools.py:130` is output only and has no effect on results.
- The JSON-schema contents of the tool definitions are constant data. Only the two names, `search_course_content` and `get_course_outline`, are kept, because they are the dispatch keys.
- `**kwargs` dispatch is a datatype with one argument shape per tool. A mismatched shape stands for the `TypeError`; missing or extra keyword arguments within a shape are not modelled.
- Tools other than the two course tools answer from a function of their arguments. Their internal state is not modelled, and they have no `last_sources`.
- `ToolManagement.ToolManager.GetLastSources`: the code returns the tool's own list object. The model returns its value, so later aliasing through that list is not captured.
- `ToolManagement.ToolManager.ResetSources`: idempotence is not a separate lemma. The post-state its contract states does not depend on the pre-state, so a second call leaves the same state.
- `CourseSearch.DuplicatePairsAreCitedOnce`: it states the de-duplicated pairs, not the citation texts. The texts follow from `CourseSearch.ExpectedSourcesCount`.
- Concurrency: two queries sharing a tool instance race on `last_sources`. The model is sequential.
- The orchestration loop (`ai_generator.py`), the session store (`session_manager.py`), `rag_system.py`, the HTTP layer and the tests are not part of this model. Only the concrete lemmas restate test cases.
