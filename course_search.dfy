/** `CourseSearchTool`: runs one content search, passes errors through,
    explains an empty result, and otherwise renders every chunk under a
    `[title - Lesson n]` header while collecting one de-duplicated source
    citation per (course title, lesson number). */
module CourseSearch {
  import opened Wrappers
  import opened Text
  import opened Dedup
  import opened Backend
  import opened Tools

  /** The dispatch key this tool registers under. */
  const ToolName := "search_course_content"

  /** The definition names the tool by its dispatch key, a truthy name. */
  function Definition(): (d: ToolDefinition)
    ensures d.name == Some(ToolName) && IsTruthyText(d.name)
  {
    ToolDefinition(Some(ToolName))
  }

  // ---------------------------------------------------------------------------
  // Rendering one chunk

  /** One (document, metadata) pair of the search result. */
  datatype Chunk = Chunk(document: string, meta: ChunkMeta)

  /** `zip(documents, metadata)`: pairs up to the shorter of the two lists. */
  function Zip(docs: seq<string>, metas: seq<ChunkMeta>): (cs: seq<Chunk>)
    ensures |cs| == if |docs| < |metas| then |docs| else |metas|
    ensures forall k :: 0 <= k < |cs| ==> cs[k] == Chunk(docs[k], metas[k])
    decreases |docs|
  {
    if |docs| == 0 || |metas| == 0 then []
    else [Chunk(docs[0], metas[0])] + Zip(docs[1..], metas[1..])
  }

  /** The identity sources are de-duplicated on: the course title (`unknown`
      when missing) and the lesson number (None when missing). */
  datatype SourcePair = SourcePair(title: string, lesson: Option<int>)

  function PairOf(meta: ChunkMeta): SourcePair {
    SourcePair(meta.courseTitle.GetOr("unknown"), meta.lessonNumber)
  }

  /** ` - Lesson n` when a lesson number is present, nothing otherwise. */
  function LessonSuffix(lesson: Option<int>): string {
    if lesson.Some? then " - Lesson " + IntToString(lesson.value) else ""
  }

  /** The display text of the citation for a pair. */
  function SourceText(p: SourcePair): string {
    p.title + LessonSuffix(p.lesson)
  }

  /** The rendered block of a chunk: its header line, then the document. */
  function Block(c: Chunk): string {
    var p := PairOf(c.meta);
    "[" + p.title + LessonSuffix(p.lesson) + "]" + "\n" + c.document
  }

  function Blocks(cs: seq<Chunk>): seq<string> {
    seq(|cs|, k requires 0 <= k < |cs| => Block(cs[k]))
  }

  /** The text `_format_results` returns: the blocks joined by blank lines. */
  function FormattedText(cs: seq<Chunk>): string {
    Join(Blocks(cs), "\n\n")
  }

  // ---------------------------------------------------------------------------
  // De-duplication keys

  /** The string key of the `seen_sources` set: `title:lesson`, where a missing
      lesson renders as `None`. */
  function SourceKey(p: SourcePair): (k: string)
    ensures ':' in k && LastIndex(k, ':') == |p.title|
    ensures k[..|p.title|] == p.title && k[|p.title| + 1..] == OptionalIntToString(p.lesson)
  {
    OptionalIntToStringHasNo(p.lesson, ':');
    LastColonIsGlue(p.title, OptionalIntToString(p.lesson));
    p.title + ":" + OptionalIntToString(p.lesson)
  }

  /** The index of the last occurrence of `c` in `s`. */
  function LastIndex(s: string, c: char): (k: nat)
    requires c in s
    ensures k < |s| && s[k] == c
    decreases |s|
  {
    if s[|s| - 1] == c then |s| - 1 else LastIndex(s[..|s| - 1], c)
  }

  /** The last colon of `a:b` is the glue when `b` holds no colon. */
  lemma {:induction false} LastColonIsGlue(a: string, b: string)
    requires ':' !in b
    ensures ':' in a + ":" + b && LastIndex(a + ":" + b, ':') == |a|
    decreases |b|
  {
    var s := a + ":" + b;
    assert s[|a|] == ':';
    if |b| > 0 {
      assert s[..|s| - 1] == a + ":" + b[..|b| - 1];
      assert s[|s| - 1] == b[|b| - 1];
      LastColonIsGlue(a, b[..|b| - 1]);
    }
  }

  /** Two strings glued by a colon, where the right-hand parts hold no colon,
      come apart at that colon only one way. */
  lemma SplitAtLastColon(a: string, b: string, c: string, d: string)
    requires ':' !in b && ':' !in d
    requires a + ":" + b == c + ":" + d
    ensures a == c && b == d
  {
    var s := a + ":" + b;
    LastColonIsGlue(a, b);
    LastColonIsGlue(c, d);
    assert a == s[..|a|] == c;
    assert b == s[|a| + 1..] == d;
  }

  /** The string key identifies the pair: de-duplicating on keys is
      de-duplicating on (title, lesson) pairs. */
  lemma SourceKeyInjective(p: SourcePair, q: SourcePair)
    ensures SourceKey(p) == SourceKey(q) <==> p == q
  {
    if SourceKey(p) == SourceKey(q) {
      OptionalIntToStringHasNo(p.lesson, ':');
      OptionalIntToStringHasNo(q.lesson, ':');
      SplitAtLastColon(p.title, OptionalIntToString(p.lesson), q.title, OptionalIntToString(q.lesson));
      OptionalIntToStringInjective(p.lesson, q.lesson);
    }
  }

  // ---------------------------------------------------------------------------
  // Link resolution

  /** A lookup the tool asks the store for. */
  datatype LinkRequest = LessonLinkRequest(title: string, lesson: int) | CourseLinkRequest(title: string)

  /** The url a pair's citation gets, and the lookups made to find it, in order. */
  datatype LinkResolution = LinkResolution(url: Option<string>, requests: seq<LinkRequest>)

  function Answer(store: VectorStore, q: LinkRequest): LinkLookup {
    match q
    case LessonLinkRequest(t, n) => store.lessonLink(t, n)
    case CourseLinkRequest(t) => store.courseLink(t)
  }

  /** A found url, or None both for "no link" and for a lookup that raised. */
  function UrlOf(answer: LinkLookup): Option<string> {
    if answer.Found? then Some(answer.url) else None
  }

  /** The lesson link when there is a lesson number; the course link when there
      is none or the lesson link is None; None whenever a lookup raised. */
  function ResolveLink(store: VectorStore, p: SourcePair): (r: LinkResolution)
    ensures 1 <= |r.requests| <= 2
    ensures forall q :: q in r.requests ==> q.title == p.title
    ensures forall n :: LessonLinkRequest(p.title, n) in r.requests <==> p.lesson == Some(n)
    ensures p.lesson.Some? ==> r.requests[0] == LessonLinkRequest(p.title, p.lesson.value)
    ensures CourseLinkRequest(p.title) in r.requests <==>
              p.lesson.None? || store.lessonLink(p.title, p.lesson.value).NoLink?
    ensures r.url == UrlOf(Answer(store, r.requests[|r.requests| - 1]))
  {
    match p.lesson
    case Some(n) =>
      var lessonAnswer := store.lessonLink(p.title, n);
      if lessonAnswer.NoLink? then
        LinkResolution(UrlOf(store.courseLink(p.title)), [LessonLinkRequest(p.title, n), CourseLinkRequest(p.title)])
      else
        LinkResolution(UrlOf(lessonAnswer), [LessonLinkRequest(p.title, n)])
    case None =>
      LinkResolution(UrlOf(store.courseLink(p.title)), [CourseLinkRequest(p.title)])
  }

  function SourceFor(store: VectorStore, p: SourcePair): Source {
    Source(SourceText(p), ResolveLink(store, p).url)
  }

  // ---------------------------------------------------------------------------
  // The sources of a formatted result

  function Pairs(cs: seq<Chunk>): seq<SourcePair> {
    seq(|cs|, k requires 0 <= k < |cs| => PairOf(cs[k].meta))
  }

  function SourcesFor(store: VectorStore, ps: seq<SourcePair>): seq<Source> {
    seq(|ps|, k requires 0 <= k < |ps| => SourceFor(store, ps[k]))
  }

  /** What `last_sources` becomes after formatting `cs`. */
  function ExpectedSources(store: VectorStore, cs: seq<Chunk>): seq<Source> {
    SourcesFor(store, Distinct(Pairs(cs)))
  }

  /** Every chunk's (title, lesson) pair is among the distinct pairs, and
      every distinct pair is the pair of some chunk. */
  lemma DistinctPairsCoverChunks(cs: seq<Chunk>)
    ensures forall j :: 0 <= j < |cs| ==> PairOf(cs[j].meta) in Distinct(Pairs(cs))
    ensures forall k :: 0 <= k < |Distinct(Pairs(cs))| ==>
      exists j :: 0 <= j < |cs| && Distinct(Pairs(cs))[k] == PairOf(cs[j].meta)
  {
    var ps := Pairs(cs);
    var d := Distinct(ps);
    DistinctElements(ps);
    forall k | 0 <= k < |d| ensures exists j :: 0 <= j < |cs| && d[k] == PairOf(cs[j].meta) {
      var j := FirstIndex(ps, d[k]);
      assert ps[j] == PairOf(cs[j].meta);
    }
    forall j | 0 <= j < |cs| ensures PairOf(cs[j].meta) in d {
      assert ps[j] in ps;
    }
  }

  /** There is one source per different (title, lesson) pair among the
      chunks, so never more sources than chunks, and the k-th source cites the
      k-th distinct pair. */
  lemma ExpectedSourcesCount(store: VectorStore, cs: seq<Chunk>)
    ensures |ExpectedSources(store, cs)| == |set p | p in Pairs(cs)| <= |cs|
    ensures forall k :: 0 <= k < |ExpectedSources(store, cs)| ==>
      ExpectedSources(store, cs)[k] == SourceFor(store, Distinct(Pairs(cs))[k])
  {
    DistinctLength(Pairs(cs));
  }

  /** At least one chunk means at least one citation. */
  lemma SomeChunkGivesSomeSource(store: VectorStore, cs: seq<Chunk>)
    requires |cs| > 0
    ensures |ExpectedSources(store, cs)| > 0
  {
    MemberDistinct(Pairs(cs), Pairs(cs)[0]);
  }

  /** The cited pairs hold no pair twice and come in the order the pairs are
      first seen among the chunks. */
  lemma DistinctPairsFirstSeen(cs: seq<Chunk>)
    ensures forall x :: x in Distinct(Pairs(cs)) ==> x in Pairs(cs)
    ensures NoDuplicates(Distinct(Pairs(cs)))
    ensures forall k, l :: 0 <= k < l < |Distinct(Pairs(cs))| ==>
      FirstIndex(Pairs(cs), Distinct(Pairs(cs))[k]) < FirstIndex(Pairs(cs), Distinct(Pairs(cs))[l])
  {
    DistinctElements(Pairs(cs));
    DistinctFirstSeenOrder(Pairs(cs));
  }

  /** ` in course '<name>'` when the course name is truthy, nothing otherwise. */
  function CourseFilter(courseName: Option<string>): string {
    if IsTruthyText(courseName) then " in course '" + courseName.value + "'" else ""
  }

  /** ` in lesson <n>` when the lesson number is truthy (so not for lesson 0). */
  function LessonFilter(lessonNumber: Option<int>): string {
    if IsTruthyNumber(lessonNumber) then " in lesson " + IntToString(lessonNumber.value) else ""
  }

  /** The "no content" message, echoing the filters that were applied. */
  function NoContentMessage(courseName: Option<string>, lessonNumber: Option<int>): (m: string)
    ensures |m| >= 26 && m[..25] == "No relevant content found" && m[|m| - 1] == '.'
    ensures m == "No relevant content found." <==> !IsTruthyText(courseName) && !IsTruthyNumber(lessonNumber)
  {
    "No relevant content found" + CourseFilter(courseName) + LessonFilter(lessonNumber) + "."
  }

  /** What `execute` returns and leaves in `last_sources`, given the sources
      it held before the call. */
  function SearchOutcome(store: VectorStore, query: string, courseName: Option<string>,
                         lessonNumber: Option<int>, prior: seq<Source>): ToolOutcome
  {
    var results := store.search(query, courseName, lessonNumber);
    if IsTruthyText(results.error) then ToolOutcome(results.error.value, prior)
    else if IsEmpty(results) then ToolOutcome(NoContentMessage(courseName, lessonNumber), prior)
    else
      var cs := Zip(results.documents, results.metadata);
      ToolOutcome(FormattedText(cs), ExpectedSources(store, cs))
  }

  /** A truthy error from the store is returned verbatim, and the sources of
      the previous call stay in place. */
  lemma SearchErrorPassesThrough(store: VectorStore, query: string, courseName: Option<string>,
                                 lessonNumber: Option<int>, prior: seq<Source>)
    requires IsTruthyText(store.search(query, courseName, lessonNumber).error)
    ensures SearchOutcome(store, query, courseName, lessonNumber, prior)
      == ToolOutcome(store.search(query, courseName, lessonNumber).error.value, prior)
  {
  }

  /** An empty result without an error gives the "no content" message and
      leaves the previous sources in place: whatever an earlier search cited
      is still there afterwards. */
  lemma EmptyResultKeepsSources(store: VectorStore, query: string, courseName: Option<string>,
                                lessonNumber: Option<int>, prior: seq<Source>)
    requires !IsTruthyText(store.search(query, courseName, lessonNumber).error)
    requires IsEmpty(store.search(query, courseName, lessonNumber))
    ensures SearchOutcome(store, query, courseName, lessonNumber, prior)
      == ToolOutcome(NoContentMessage(courseName, lessonNumber), prior)
  {
  }

  /** A result with no error and some documents is rendered, and its
      citations replace the previous sources. */
  lemma FormattedResultOutcome(store: VectorStore, query: string, courseName: Option<string>,
                               lessonNumber: Option<int>, prior: seq<Source>)
    requires !IsTruthyText(store.search(query, courseName, lessonNumber).error)
    requires !IsEmpty(store.search(query, courseName, lessonNumber))
    ensures var r := store.search(query, courseName, lessonNumber);
      var cs := Zip(r.documents, r.metadata);
      SearchOutcome(store, query, courseName, lessonNumber, prior)
        == ToolOutcome(FormattedText(cs), ExpectedSources(store, cs))
  {
  }

  /** A falsy filter is not echoed: an empty course name reads like no course
      name, lesson 0 like no lesson number. */
  lemma FalsyFiltersAreOmitted(courseName: Option<string>, lessonNumber: Option<int>)
    ensures NoContentMessage(Some(""), lessonNumber) == NoContentMessage(None, lessonNumber)
    ensures NoContentMessage(courseName, Some(0)) == NoContentMessage(courseName, None)
    ensures NoContentMessage(None, None) == "No relevant content found."
  {
  }

  /** A search that formats a non-empty result, followed by a search that
      finds nothing, leaves the first search's citations in place, and there
      is at least one of them. */
  lemma {:induction false} StaleSourcesSurviveEmptySearch(store: VectorStore, prior: seq<Source>,
      q1: string, c1: Option<string>, l1: Option<int>, q2: string, c2: Option<string>, l2: Option<int>)
    requires !IsTruthyText(store.search(q1, c1, l1).error)
    requires |store.search(q1, c1, l1).documents| > 0 && |store.search(q1, c1, l1).metadata| > 0
    requires !IsTruthyText(store.search(q2, c2, l2).error) && IsEmpty(store.search(q2, c2, l2))
    ensures var first := SearchOutcome(store, q1, c1, l1, prior);
      SearchOutcome(store, q2, c2, l2, first.sources).sources == first.sources && |first.sources| > 0
  {
    var r := store.search(q1, c1, l1);
    var cs := Zip(r.documents, r.metadata);
    FormattedResultOutcome(store, q1, c1, l1, prior);
    EmptyResultKeepsSources(store, q2, c2, l2, ExpectedSources(store, cs));
    SomeChunkGivesSomeSource(store, cs);
  }

  /** Each block's header is the bracketed citation text of its pair. */
  lemma BlockHeaderIsSourceText(c: Chunk)
    ensures Block(c) == "[" + SourceText(PairOf(c.meta)) + "]" + "\n" + c.document
  {
    var p := PairOf(c.meta);
    AppendAssoc("[", p.title, LessonSuffix(p.lesson));
  }

  /** One more chunk adds its block after a blank line: the output holds one
      block per chunk, in the order of the chunks. */
  lemma FormattedTextSnoc(cs: seq<Chunk>, c: Chunk)
    requires |cs| > 0
    ensures FormattedText(cs + [c]) == FormattedText(cs) + "\n\n" + Block(c)
  {
    assert Blocks(cs + [c]) == Blocks(cs) + [Block(c)];
    JoinConcat(Blocks(cs), [Block(c)], "\n\n");
  }

  /** The formatted text of a single chunk is its block alone. */
  lemma FormattedTextSingle(c: Chunk)
    ensures FormattedText([c]) == Block(c)
  {
    assert Blocks([c]) == [Block(c)];
  }

  /** A chunk without a course title or lesson number is rendered under
      `[unknown]` and cited as `unknown`. */
  lemma MissingMetadataIsUnknown(store: VectorStore, document: string)
    ensures FormattedText([Chunk(document, ChunkMeta(None, None))]) == "[unknown]\n" + document
    ensures ExpectedSources(store, [Chunk(document, ChunkMeta(None, None))])
      == [Source("unknown", UrlOf(store.courseLink("unknown")))]
  {
    var c := Chunk(document, ChunkMeta(None, None));
    var p := SourcePair("unknown", None);
    FormattedTextSingle(c);
    assert Pairs([c]) == [p];
    assert Distinct([p]) == [p] by {
      DistinctSnoc([], p);
    }
    assert SourcesFor(store, [p]) == [SourceFor(store, p)];
    assert SourceFor(store, p) == Source("unknown", UrlOf(store.courseLink("unknown")));
  }

  /** A lesson lookup that raises stops the chain: the course link is not
      asked for, the citation has no url, and it is still made. */
  lemma RaisingLessonLookupSkipsCourseLink(store: VectorStore, p: SourcePair)
    requires p.lesson.Some? && store.lessonLink(p.title, p.lesson.value).Raised?
    ensures ResolveLink(store, p) == LinkResolution(None, [LessonLinkRequest(p.title, p.lesson.value)])
    ensures SourceFor(store, p) == Source(SourceText(p), None)
  {
  }

  /** The link lookups affect only the urls: two stores answering the search
      alike give the same text and the same citation texts, in the same order. */
  lemma LinksAffectOnlyUrls(s1: VectorStore, s2: VectorStore, query: string, courseName: Option<string>,
                            lessonNumber: Option<int>, prior: seq<Source>)
    requires s1.search(query, courseName, lessonNumber) == s2.search(query, courseName, lessonNumber)
    ensures var o1, o2 := SearchOutcome(s1, query, courseName, lessonNumber, prior),
                          SearchOutcome(s2, query, courseName, lessonNumber, prior);
      o1.text == o2.text && |o1.sources| == |o2.sources| &&
      forall k :: 0 <= k < |o1.sources| ==> o1.sources[k].text == o2.sources[k].text
  {
  }

  /** The duplicate-chunk case: lesson 1 twice and lesson 2 once are cited
      as two pairs, lesson 1 first. */
  lemma DuplicatePairsAreCitedOnce()
    ensures var m1, m2 := ChunkMeta(Some("Test Course"), Some(1)), ChunkMeta(Some("Test Course"), Some(2));
      Distinct(Pairs([Chunk("Content 1", m1), Chunk("Content 2", m1), Chunk("Content 3", m2)]))
        == [SourcePair("Test Course", Some(1)), SourcePair("Test Course", Some(2))]
  {
    var m1, m2 := ChunkMeta(Some("Test Course"), Some(1)), ChunkMeta(Some("Test Course"), Some(2));
    var p1, p2 := PairOf(m1), PairOf(m2);
    assert Pairs([Chunk("Content 1", m1), Chunk("Content 2", m1), Chunk("Content 3", m2)]) == [p1, p1, p2];
    DistinctSnoc([], p1);
    DistinctSnoc([p1], p1);
    assert [p1] + [p1] == [p1, p1];
    DistinctSnoc([p1, p1], p2);
    assert [p1, p1] + [p2] == [p1, p1, p2];
  }

  lemma PairsSnoc(cs: seq<Chunk>, i: nat)
    requires i < |cs|
    ensures Pairs(cs[..i + 1]) == Pairs(cs[..i]) + [PairOf(cs[i].meta)]
    ensures Blocks(cs[..i + 1]) == Blocks(cs[..i]) + [Block(cs[i])]
  {
  }

  lemma SourcesForSnoc(store: VectorStore, ps: seq<SourcePair>, p: SourcePair)
    ensures SourcesFor(store, ps + [p]) == SourcesFor(store, ps) + [SourceFor(store, p)]
  {
  }

  /** The keys of the pairs seen so far: the contents of `seen_sources`. */
  ghost function Keys(ps: seq<SourcePair>): set<string> {
    set q | q in ps :: SourceKey(q)
  }

  lemma KeysSnoc(ps: seq<SourcePair>, p: SourcePair)
    ensures Keys(ps + [p]) == Keys(ps) + {SourceKey(p)}
  {
  }

  /** A pair's key is among the keys seen so far exactly when the pair is. */
  lemma SeenKey(ps: seq<SourcePair>, p: SourcePair)
    ensures SourceKey(p) in Keys(ps) <==> p in ps
  {
    if SourceKey(p) in Keys(ps) {
      var q :| q in ps && SourceKey(q) == SourceKey(p);
      SourceKeyInjective(p, q);
    }
  }

  class CourseSearchTool {
    const store: VectorStore
    var lastSources: seq<Source>

    constructor (store: VectorStore)
      ensures this.store == store && lastSources == []
    {
      this.store := store;
      lastSources := [];
    }

    method Execute(query: string, courseName: Option<string>, lessonNumber: Option<int>) returns (text: string)
      modifies this
      ensures ToolOutcome(text, lastSources) == SearchOutcome(store, query, courseName, lessonNumber, old(lastSources))
    {
      var results := store.search(query, courseName, lessonNumber);
      if IsTruthyText(results.error) {
        return results.error.value;
      }
      if IsEmpty(results) {
        return NoContentMessage(courseName, lessonNumber);
      }
      text := FormatResults(results);
    }

    /** The `try` block of `_format_results`: the lesson link when there is a
        lesson number, else or when that is None the course link; a raised
        lookup leaves the link None. */
    method FetchLink(courseTitle: string, lessonNum: Option<int>) returns (link: Option<string>, ghost requests: seq<LinkRequest>)
      ensures link == ResolveLink(store, SourcePair(courseTitle, lessonNum)).url
      ensures requests == ResolveLink(store, SourcePair(courseTitle, lessonNum)).requests
    {
      link, requests := None, [];
      if lessonNum.Some? {
        requests := requests + [LessonLinkRequest(courseTitle, lessonNum.value)];
        var answer := store.lessonLink(courseTitle, lessonNum.value);
        if answer.Raised? {
          return None, requests;
        }
        link := UrlOf(answer);
      }
      if link.None? {
        requests := requests + [CourseLinkRequest(courseTitle)];
        link := UrlOf(store.courseLink(courseTitle));
      }
    }

    /** The context header and the citation text of one chunk, built as
        `_format_results` builds them: both carry ` - Lesson n` exactly when
        the chunk has a lesson number. */
    method Labels(courseTitle: string, lessonNum: Option<int>) returns (header: string, sourceText: string)
      ensures header == "[" + courseTitle + LessonSuffix(lessonNum) + "]"
      ensures sourceText == SourceText(SourcePair(courseTitle, lessonNum))
    {
      header := "[" + courseTitle;
      if lessonNum.Some? {
        header := header + " - Lesson " + IntToString(lessonNum.value);
        AppendAssoc("[" + courseTitle, " - Lesson ", IntToString(lessonNum.value));
      } else {
        assert header + "" == header;
      }
      header := header + "]";

      sourceText := courseTitle;
      if lessonNum.Some? {
        sourceText := sourceText + " - Lesson " + IntToString(lessonNum.value);
        AppendAssoc(courseTitle, " - Lesson ", IntToString(lessonNum.value));
      } else {
        assert sourceText + "" == sourceText;
      }
    }

    /** `_format_results`: one block per chunk, one source per new pair. */
    method FormatResults(results: SearchResults) returns (text: string)
      modifies this
      ensures text == FormattedText(Zip(results.documents, results.metadata))
      ensures lastSources == ExpectedSources(store, Zip(results.documents, results.metadata))
    {
      var cs := Zip(results.documents, results.metadata);
      var formatted: seq<string> := [];
      var sources: seq<Source> := [];
      var seen: set<string> := {};
      for i := 0 to |cs|
        invariant formatted == Blocks(cs[..i])
        invariant seen == Keys(Pairs(cs[..i]))
        invariant sources == SourcesFor(store, Distinct(Pairs(cs[..i])))
      {
        var doc, meta := cs[i].document, cs[i].meta;
        var courseTitle := meta.courseTitle.GetOr("unknown");
        var lessonNum := meta.lessonNumber;

        var header, sourceText := Labels(courseTitle, lessonNum);
        var sourceKey := courseTitle + ":" + OptionalIntToString(lessonNum);
        ghost var pair := SourcePair(courseTitle, lessonNum);
        ghost var before, after := Pairs(cs[..i]), Pairs(cs[..i + 1]);
        PairsSnoc(cs, i);
        SeenKey(before, pair);
        KeysSnoc(before, pair);
        DistinctSnoc(before, pair);

        if sourceKey !in seen {
          seen := seen + {sourceKey};
          var link;
          ghost var requests;
          link, requests := FetchLink(courseTitle, lessonNum);
          SourcesForSnoc(store, Distinct(before), pair);
          sources := sources + [Source(sourceText, link)];
          assert sources == SourcesFor(store, Distinct(after));
        } else {
          assert Distinct(after) == Distinct(before);
        }
        assert seen == Keys(after);

        formatted := formatted + [header + "\n" + doc];
      }
      assert cs[..|cs|] == cs;
      assert formatted == Blocks(cs);
      assert sources == ExpectedSources(store, cs);
      lastSources := sources;
      text := Join(formatted, "\n\n");
    }
  }
}
