/** First-seen de-duplication of a sequence, the discipline `_format_results`
    follows with its `seen_sources` set: an element is kept the first time it
    occurs and skipped every later time. */
module Dedup {

  /** `s` with every repeat of an earlier element dropped, in first-seen order. */
  function Distinct<T(==)>(s: seq<T>): (r: seq<T>)
    decreases |s|
  {
    if |s| == 0 then []
    else
      var init := s[..|s| - 1];
      if s[|s| - 1] in init then Distinct(init) else Distinct(init) + [s[|s| - 1]]
  }

  /** One more element: kept if new, skipped if already seen. */
  lemma DistinctSnoc<T>(s: seq<T>, x: T)
    ensures Distinct(s + [x]) == if x in s then Distinct(s) else Distinct(s) + [x]
  {
    assert (s + [x])[..|s|] == s;
  }

  ghost predicate NoDuplicates<T>(s: seq<T>) {
    forall i, j :: 0 <= i < j < |s| ==> s[i] != s[j]
  }

  /** The index of the first occurrence of `x` in `s`. */
  function FirstIndex<T(==)>(s: seq<T>, x: T): (k: nat)
    requires x in s
    ensures k < |s| && s[k] == x
    ensures forall j :: 0 <= j < k ==> s[j] != x
  {
    if s[0] == x then 0 else 1 + FirstIndex(s[1..], x)
  }

  lemma FirstIndexSnoc<T>(s: seq<T>, x: T, y: T)
    requires y in s
    ensures FirstIndex(s + [x], y) == FirstIndex(s, y)
  {
    assert (s + [x])[FirstIndex(s, y)] == y;
  }

  /** The distinct elements are exactly the elements of `s`, each once. */
  lemma {:induction false} DistinctElements<T>(s: seq<T>)
    ensures forall x :: x in Distinct(s) <==> x in s
    ensures NoDuplicates(Distinct(s))
    decreases |s|
  {
    if |s| > 0 {
      var init, x := s[..|s| - 1], s[|s| - 1];
      assert s == init + [x];
      DistinctElements(init);
      DistinctSnoc(init, x);
    }
  }

  /** The distinct elements keep the order of their first occurrences in `s`. */
  lemma {:induction false} DistinctFirstSeenOrder<T>(s: seq<T>)
    ensures forall x :: x in Distinct(s) ==> x in s
    ensures forall i, j :: 0 <= i < j < |Distinct(s)| ==>
      FirstIndex(s, Distinct(s)[i]) < FirstIndex(s, Distinct(s)[j])
    decreases |s|
  {
    DistinctElements(s);
    if |s| > 0 {
      var init, x := s[..|s| - 1], s[|s| - 1];
      assert s == init + [x];
      DistinctFirstSeenOrder(init);
      DistinctElements(init);
      DistinctSnoc(init, x);
      var d := Distinct(init);
      forall y | y in init ensures FirstIndex(s, y) == FirstIndex(init, y) {
        FirstIndexSnoc(init, x, y);
      }
      if x !in init {
        assert FirstIndex(s, x) == |init|;
      }
    }
  }

  lemma DistinctMember<T>(s: seq<T>, y: T)
    requires y in Distinct(s)
    ensures y in s
  {
    DistinctElements(s);
  }

  lemma MemberDistinct<T>(s: seq<T>, y: T)
    requires y in s
    ensures y in Distinct(s)
  {
    DistinctElements(s);
  }

  /** The distinct elements form the same set as `s`. */
  lemma DistinctSameSet<T>(s: seq<T>)
    ensures (set x | x in Distinct(s)) == (set x | x in s)
  {
    var inD, inS := set x | x in Distinct(s), set x | x in s;
    forall y | y in inD ensures y in inS {
      DistinctMember(s, y);
    }
    forall y | y in inS ensures y in inD {
      MemberDistinct(s, y);
    }
  }

  /** There are as many distinct elements as `s` has different values, so
      never more than `s` has elements. */
  lemma DistinctLength<T>(s: seq<T>)
    ensures |Distinct(s)| == |set x | x in s|
    ensures |Distinct(s)| <= |s|
  {
    DistinctElements(s);
    NoDuplicatesCardinality(Distinct(s));
    DistinctSameSet(s);
    SeqCardinalityBound(s);
  }

  /** A sequence has at most as many different values as elements. */
  lemma {:induction false} SeqCardinalityBound<T>(s: seq<T>)
    ensures |set x | x in s| <= |s|
    decreases |s|
  {
    if |s| > 0 {
      var init, x := s[..|s| - 1], s[|s| - 1];
      assert s == init + [x];
      SeqCardinalityBound(init);
      assert (set y | y in s) == (set y | y in init) + {x};
    }
  }

  /** A sequence without repeats has as many different values as elements. */
  lemma {:induction false} NoDuplicatesCardinality<T>(s: seq<T>)
    requires NoDuplicates(s)
    ensures |set x | x in s| == |s|
    decreases |s|
  {
    if |s| > 0 {
      var init, x := s[..|s| - 1], s[|s| - 1];
      assert s == init + [x];
      NoDuplicatesCardinality(init);
      assert (set y | y in s) == (set y | y in init) + {x};
    }
  }
}
