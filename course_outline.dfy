/** `CourseOutlineTool`: resolves a course name to the top catalog match and
    renders its outline (title, optional link, lesson count, one line per
    lesson), citing the course as the only source. Every failure is returned
    as text. */
module CourseOutline {
  import opened Wrappers
  import opened Text
  import opened Backend
  import opened Tools

  /** The dispatch key this tool registers under. */
  const ToolName := "get_course_outline"

  /** The definition names the tool by its dispatch key, a truthy name. */
  function Definition(): (d: ToolDefinition)
    ensures d.name == Some(ToolName) && IsTruthyText(d.name)
  {
    ToolDefinition(Some(ToolName))
  }

  /** One entry of the decoded `lessons_json` list: its 'lesson_number' and
      'lesson_title' values, None when the key is missing. */
  datatype LessonEntry = LessonEntry(lessonNumber: Option<int>, lessonTitle: Option<string>)

  /** What decoding `lessons_json` gives: the lesson entries, or the message of
      the exception it raised. */
  datatype LessonsDecode = Decoded(lessons: seq<LessonEntry>) | DecodeRaised(message: string)

  // ---------------------------------------------------------------------------
  // The catalog match

  /** The metadata of the top catalog match: None when the result is missing,
      lacks 'documents' or 'metadatas', or either holds no inner list or an
      empty first inner list. */
  function TopMatch(result: Option<CatalogResult>): (m: Option<CourseMeta>)
    ensures m.Some? <==>
      result.Some? &&
      result.value.documents.Some? && |result.value.documents.value| > 0 && |result.value.documents.value[0]| > 0 &&
      result.value.metadatas.Some? && |result.value.metadatas.value| > 0 && |result.value.metadatas.value[0]| > 0
    ensures m.Some? ==> m.value == result.value.metadatas.value[0][0]
  {
    if result.None? then None
    else
      var r := result.value;
      if r.documents.None? || |r.documents.value| == 0 || |r.documents.value[0]| == 0 then None
      else if r.metadatas.None? || |r.metadatas.value| == 0 || |r.metadatas.value[0]| == 0 then None
      else Some(r.metadatas.value[0][0])
  }

  function NoCourseMessage(courseName: string): string {
    "No course found matching '" + courseName + "'"
  }

  function ErrorMessage(message: string): string {
    "Error retrieving course outline: " + message
  }

  /** The course title, `Unknown` when the metadata has none. */
  function CourseTitle(meta: CourseMeta): string {
    meta.title.GetOr("Unknown")
  }

  /** The lessons of a match: decoded from `lessons_json` when it is truthy,
      none otherwise. */
  function LessonsOf(decode: string -> LessonsDecode, meta: CourseMeta): LessonsDecode {
    if IsTruthyText(meta.lessonsJson) then decode(meta.lessonsJson.value) else Decoded([])
  }

  // ---------------------------------------------------------------------------
  // Rendering

  /** `Course: <title>`, then `Course Link: <link>` when the link is truthy. */
  function HeaderLines(title: string, link: Option<string>): seq<string> {
    ["Course: " + title] + (if IsTruthyText(link) then ["Course Link: " + link.value] else [])
  }

  /** The text after the blank line that heads the lesson list. */
  function CountText(count: nat): string {
    "Lessons (" + IntToString(count) + " total):"
  }

  /** `  Lesson <n>: <title>`, with `None` for a missing number and
      `Untitled` for a missing title. */
  function LessonLine(lesson: LessonEntry): (line: string)
    ensures var t := lesson.lessonTitle.GetOr("Untitled");
      |line| >= 11 + |t| && line[..9] == "  Lesson " && line[|line| - |t| - 2..] == ": " + t
  {
    "  Lesson " + OptionalIntToString(lesson.lessonNumber) + ": " + lesson.lessonTitle.GetOr("Untitled")
  }

  function LessonLines(lessons: seq<LessonEntry>): seq<string> {
    seq(|lessons|, k requires 0 <= k < |lessons| => LessonLine(lessons[k]))
  }

  /** The entries of the `formatted` list, in the order they are appended. */
  function OutlineLines(title: string, link: Option<string>, lessons: seq<LessonEntry>): seq<string> {
    HeaderLines(title, link) + ["\n" + CountText(|lessons|)] + LessonLines(lessons)
  }

  /** The outline text: the entries joined by newlines. */
  function OutlineText(title: string, link: Option<string>, lessons: seq<LessonEntry>): string {
    Join(OutlineLines(title, link, lessons), "\n")
  }

  /** What `execute` returns and leaves in `last_sources`, given the sources
      it held before the call. */
  function OutlineOutcome(store: VectorStore, decode: string -> LessonsDecode, courseName: string,
                          prior: seq<Source>): ToolOutcome
  {
    match store.queryCatalog(courseName)
    case QueryRaised(message) => ToolOutcome(ErrorMessage(message), prior)
    case Answered(result) =>
      match TopMatch(result)
      case None => ToolOutcome(NoCourseMessage(courseName), prior)
      case Some(meta) =>
        match LessonsOf(decode, meta)
        case DecodeRaised(message) => ToolOutcome(ErrorMessage(message), prior)
        case Decoded(lessons) =>
          ToolOutcome(OutlineText(CourseTitle(meta), meta.courseLink, lessons),
                      [Source(CourseTitle(meta), meta.courseLink)])
  }

  // ---------------------------------------------------------------------------
  // Properties

  /** Each way the catalog can come back without a match. */
  lemma MissingMatches(documents: Option<seq<seq<string>>>, metadatas: Option<seq<seq<CourseMeta>>>)
    ensures TopMatch(None) == None
    ensures TopMatch(Some(CatalogResult(None, metadatas))) == None
    ensures TopMatch(Some(CatalogResult(Some([]), metadatas))) == None
    ensures TopMatch(Some(CatalogResult(Some([[]]), metadatas))) == None
    ensures TopMatch(Some(CatalogResult(documents, None))) == None
    ensures TopMatch(Some(CatalogResult(documents, Some([])))) == None
    ensures TopMatch(Some(CatalogResult(documents, Some([[]])))) == None
  {
  }

  /** A match is the first metadata of the first inner list, whatever follows. */
  lemma MatchIsFirstMetadata(docs: seq<seq<string>>, metas: seq<seq<CourseMeta>>)
    requires |docs| > 0 && |docs[0]| > 0 && |metas| > 0 && |metas[0]| > 0
    ensures TopMatch(Some(CatalogResult(Some(docs), Some(metas)))) == Some(metas[0][0])
  {
  }

  /** No match: the "no course" message, and the previous sources stay. */
  lemma NoMatchKeepsSources(store: VectorStore, decode: string -> LessonsDecode, courseName: string,
                            prior: seq<Source>)
    requires store.queryCatalog(courseName).Answered?
    requires TopMatch(store.queryCatalog(courseName).result).None?
    ensures OutlineOutcome(store, decode, courseName, prior) == ToolOutcome(NoCourseMessage(courseName), prior)
  {
  }

  /** A raising catalog query or lesson decoding: the error message with the
      exception's text, and the previous sources stay. */
  lemma FailureIsReported(store: VectorStore, decode: string -> LessonsDecode, courseName: string,
                          prior: seq<Source>)
    ensures store.queryCatalog(courseName).QueryRaised? ==>
      OutlineOutcome(store, decode, courseName, prior)
        == ToolOutcome(ErrorMessage(store.queryCatalog(courseName).message), prior)
    ensures store.queryCatalog(courseName).Answered? ==>
      var m := TopMatch(store.queryCatalog(courseName).result);
      m.Some? && LessonsOf(decode, m.value).DecodeRaised? ==>
        OutlineOutcome(store, decode, courseName, prior)
          == ToolOutcome(ErrorMessage(LessonsOf(decode, m.value).message), prior)
  {
  }

  /** The sources change only on success, and then to a single citation of
      the matched course with its link. */
  lemma SourcesChangeOnlyOnSuccess(store: VectorStore, decode: string -> LessonsDecode, courseName: string,
                                   prior: seq<Source>)
    ensures var o := OutlineOutcome(store, decode, courseName, prior);
      o.sources == prior ||
      (store.queryCatalog(courseName).Answered? &&
       var m := TopMatch(store.queryCatalog(courseName).result);
       m.Some? && LessonsOf(decode, m.value).Decoded? &&
       o.sources == [Source(CourseTitle(m.value), m.value.courseLink)])
  {
  }

  /** No newline in the title, the link or any lesson title. */
  predicate SingleLineFields(title: string, link: Option<string>, lessons: seq<LessonEntry>) {
    '\n' !in title && (link.Some? ==> '\n' !in link.value) &&
    forall k :: 0 <= k < |lessons| ==> '\n' !in lessons[k].lessonTitle.GetOr("Untitled")
  }

  /** The count entry as written, `\nLessons (<k> total):`, is a newline
      followed by the count text. */
  lemma CountLine(count: nat)
    ensures "\nLessons (" + IntToString(count) + " total):" == "\n" + CountText(count)
  {
    var d := IntToString(count);
    assert "\nLessons (" == "\n" + "Lessons (";
    assert "\n" + "Lessons (" + d + " total):" == "\n" + ("Lessons (" + d + " total):");
  }

  lemma {:induction false} CountTextHasNoNewline(count: nat)
    ensures '\n' !in CountText(count)
  {
    var digits := IntToString(count);
    forall k | 0 <= k < |digits| ensures digits[k] != '\n' {
    }
  }

  lemma LessonLineHasNoNewline(lesson: LessonEntry)
    requires '\n' !in lesson.lessonTitle.GetOr("Untitled")
    ensures '\n' !in LessonLine(lesson)
  {
    OptionalIntToStringHasNo(lesson.lessonNumber, '\n');
  }

  lemma LessonLinesHaveNoNewline(lessons: seq<LessonEntry>)
    requires forall k :: 0 <= k < |lessons| ==> '\n' !in lessons[k].lessonTitle.GetOr("Untitled")
    ensures forall k :: 0 <= k < |lessons| ==> '\n' !in LessonLines(lessons)[k]
  {
    forall k | 0 <= k < |lessons| ensures '\n' !in LessonLines(lessons)[k] {
      LessonLineHasNoNewline(lessons[k]);
    }
  }

  /** The physical lines of an outline: the course line, the link line when
      the link is truthy, a blank line, the lesson count, then one line per
      lesson in stored order. */
  lemma {:induction false} OutlineLinesAsPrinted(title: string, link: Option<string>, lessons: seq<LessonEntry>)
    requires SingleLineFields(title, link, lessons)
    ensures Split(OutlineText(title, link, lessons), '\n')
      == HeaderLines(title, link) + ["", CountText(|lessons|)] + LessonLines(lessons)
  {
    var header, lines := HeaderLines(title, link), LessonLines(lessons);
    JoinLeadingSeparator(header, CountText(|lessons|), lines, "\n");
    var printed := header + ["", CountText(|lessons|)] + lines;
    CountTextHasNoNewline(|lessons|);
    LessonLinesHaveNoNewline(lessons);
    forall k | 0 <= k < |printed| ensures '\n' !in printed[k] {
      if k >= |header| + 2 {
        assert printed[k] == lines[k - |header| - 2];
      }
    }
    SplitJoin(printed, '\n');
  }

  /** Reading a printed outline back: its first line names the course, a link
      line follows exactly when the link is truthy, and the count line states
      how many lines follow it. */
  lemma OutlineReadBack(title: string, link: Option<string>, lessons: seq<LessonEntry>)
    requires SingleLineFields(title, link, lessons)
    ensures var printed := Split(OutlineText(title, link, lessons), '\n');
      var h := if IsTruthyText(link) then 2 else 1;
      |printed| == h + 2 + |lessons| &&
      printed[0] == "Course: " + title &&
      (IsTruthyText(link) ==> printed[1] == "Course Link: " + link.value) &&
      printed[h] == "" &&
      printed[h + 1] == "Lessons (" + IntToString(|printed| - h - 2) + " total):" &&
      forall k :: 0 <= k < |lessons| ==> printed[h + 2 + k] == LessonLine(lessons[k])
  {
    OutlineLinesAsPrinted(title, link, lessons);
  }

  /** A match with falsy `lessons_json` has zero lessons and no lesson lines. */
  lemma NoLessonsOutline(decode: string -> LessonsDecode, meta: CourseMeta)
    requires !IsTruthyText(meta.lessonsJson)
    ensures LessonsOf(decode, meta) == Decoded([])
    ensures OutlineLines(CourseTitle(meta), meta.courseLink, [])
      == HeaderLines(CourseTitle(meta), meta.courseLink) + ["\nLessons (0 total):"]
  {
    CountLine(0);
    assert IntToString(0) == "0";
    assert "\nLessons (" + "0" + " total):" == "\nLessons (0 total):";
  }

  class CourseOutlineTool {
    const store: VectorStore
    /** `json.loads` of the lessons list, with the per-lesson lookups. */
    const decodeLessons: string -> LessonsDecode
    var lastSources: seq<Source>

    constructor (store: VectorStore, decodeLessons: string -> LessonsDecode)
      ensures this.store == store && this.decodeLessons == decodeLessons && lastSources == []
    {
      this.store := store;
      this.decodeLessons := decodeLessons;
      lastSources := [];
    }

    method Execute(courseName: string) returns (text: string)
      modifies this
      ensures ToolOutcome(text, lastSources) == OutlineOutcome(store, decodeLessons, courseName, old(lastSources))
    {
      var reply := store.queryCatalog(courseName);
      if reply.QueryRaised? {
        return ErrorMessage(reply.message);
      }
      var results := reply.result;
      if results.None? || results.value.documents.None? || results.value.metadatas.None? ||
         |results.value.documents.value| == 0 || |results.value.documents.value[0]| == 0 ||
         |results.value.metadatas.value| == 0 || |results.value.metadatas.value[0]| == 0
      {
        return NoCourseMessage(courseName);
      }
      var metadata := results.value.metadatas.value[0][0];
      var courseTitle := metadata.title.GetOr("Unknown");
      var courseLink := metadata.courseLink;
      var lessonsJson := metadata.lessonsJson;
      assert TopMatch(results) == Some(metadata);

      var lessons: seq<LessonEntry> := [];
      if IsTruthyText(lessonsJson) {
        var decoded := decodeLessons(lessonsJson.value);
        if decoded.DecodeRaised? {
          return ErrorMessage(decoded.message);
        }
        lessons := decoded.lessons;
      }
      assert LessonsOf(decodeLessons, metadata) == Decoded(lessons);

      var formatted := ["Course: " + courseTitle];
      if IsTruthyText(courseLink) {
        formatted := formatted + ["Course Link: " + courseLink.value];
      }
      formatted := formatted + ["\nLessons (" + IntToString(|lessons|) + " total):"];
      CountLine(|lessons|);
      assert formatted == HeaderLines(courseTitle, courseLink) + ["\n" + CountText(|lessons|)];

      for i := 0 to |lessons|
        invariant formatted == HeaderLines(courseTitle, courseLink) + ["\n" + CountText(|lessons|)] + LessonLines(lessons[..i])
      {
        var lessonNum := lessons[i].lessonNumber;
        var lessonTitle := lessons[i].lessonTitle.GetOr("Untitled");
        var line := "  Lesson " + OptionalIntToString(lessonNum) + ": " + lessonTitle;
        assert line == LessonLine(lessons[i]);
        assert LessonLines(lessons[..i + 1]) == LessonLines(lessons[..i]) + [line];
        formatted := formatted + [line];
      }
      assert lessons[..|lessons|] == lessons;
      assert formatted == OutlineLines(courseTitle, courseLink, lessons);

      var sourceText := courseTitle;
      lastSources := [Source(sourceText, courseLink)];
      text := Join(formatted, "\n");
    }
  }
}
