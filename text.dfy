/** The string operations the tools rely on: Python's `str()` of an int, of an
    optional int, truthiness of optional strings and ints, `sep.join(parts)`
    and `s.split(c)` for a one-character separator. */
module Text {
  import opened Wrappers

  predicate IsDigit(c: char) {
    '0' <= c <= '9'
  }

  function DigitChar(d: nat): (c: char)
    requires d < 10
    ensures IsDigit(c)
  {
    (('0' as int) + d) as char
  }

  /** The decimal digits of `n`, most significant first and without leading zeros. */
  function NatToString(n: nat): (s: string)
    ensures |s| >= 1
    ensures n < 10 <==> |s| == 1
    ensures forall k :: 0 <= k < |s| ==> IsDigit(s[k])
    decreases n
  {
    if n < 10 then [DigitChar(n)] else NatToString(n / 10) + [DigitChar(n % 10)]
  }

  /** Python's `str(i)` for an int: a minus sign, then the digits of the magnitude. */
  function IntToString(i: int): (s: string)
    ensures |s| >= 1
    ensures (s[0] == '-') <==> i < 0
    ensures forall k :: 0 <= k < |s| ==> IsDigit(s[k]) || (k == 0 && s[k] == '-')
  {
    if i < 0 then "-" + NatToString(-i) else NatToString(i)
  }

  lemma {:induction false} NatToStringInjective(a: nat, b: nat)
    ensures NatToString(a) == NatToString(b) <==> a == b
    decreases a
  {
    if NatToString(a) == NatToString(b) && a >= 10 && b >= 10 {
      var sa, sb := NatToString(a / 10), NatToString(b / 10);
      assert NatToString(a) == sa + [DigitChar(a % 10)];
      assert NatToString(b) == sb + [DigitChar(b % 10)];
      assert |sa| == |sb|;
      assert sa == NatToString(a)[..|sa|] == NatToString(b)[..|sb|] == sb;
      assert DigitChar(a % 10) == NatToString(a)[|sa|] == DigitChar(b % 10);
      NatToStringInjective(a / 10, b / 10);
    }
  }

  /** Distinct ints have distinct decimal renderings. */
  lemma IntToStringInjective(i: int, j: int)
    ensures IntToString(i) == IntToString(j) <==> i == j
  {
    if IntToString(i) == IntToString(j) {
      if i < 0 {
        assert NatToString(-i) == IntToString(i)[1..] == IntToString(j)[1..] == NatToString(-j);
        NatToStringInjective(-i, -j);
      } else {
        NatToStringInjective(i, j);
      }
    }
  }

  /** Python's f-string rendering of an int that may be None. */
  function OptionalIntToString(n: Option<int>): string {
    match n
    case Some(i) => IntToString(i)
    case None => "None"
  }

  lemma OptionalIntToStringInjective(m: Option<int>, n: Option<int>)
    ensures OptionalIntToString(m) == OptionalIntToString(n) <==> m == n
  {
    if OptionalIntToString(m) == OptionalIntToString(n) {
      if m.Some? && n.Some? {
        IntToStringInjective(m.value, n.value);
      }
    }
  }

  /** No rendering of an optional int contains a colon or a newline. */
  lemma OptionalIntToStringHasNo(n: Option<int>, c: char)
    requires c == ':' || c == '\n'
    ensures c !in OptionalIntToString(n)
  {
    var s := OptionalIntToString(n);
    if n.Some? {
      forall k | 0 <= k < |s| ensures s[k] != c {
        assert IsDigit(s[k]) || s[k] == '-';
      }
    }
  }

  /** Python truthiness of an optional string: present and non-empty. */
  predicate IsTruthyText(s: Option<string>) {
    s.Some? && s.value != ""
  }

  /** Python truthiness of an optional int: present and non-zero. */
  predicate IsTruthyNumber(n: Option<int>) {
    n.Some? && n.value != 0
  }

  lemma AppendAssoc(a: string, b: string, c: string)
    ensures a + b + c == a + (b + c)
  {
  }

  /** `sep.join(parts)`. */
  function Join(parts: seq<string>, sep: string): string
    decreases |parts|
  {
    if |parts| == 0 then ""
    else if |parts| == 1 then parts[0]
    else parts[0] + sep + Join(parts[1..], sep)
  }

  /** `s.split(c)` for a one-character separator: always at least one piece. */
  function Split(s: string, c: char): (pieces: seq<string>)
    ensures |pieces| >= 1
    decreases |s|
  {
    if |s| == 0 then [""]
    else
      var rest := Split(s[1..], c);
      if s[0] == c then [""] + rest else [[s[0]] + rest[0]] + rest[1..]
  }

  /** Splitting a string that begins with a separator-free word `w`: the word
      sticks to the front of the first piece. */
  lemma {:induction false} SplitAfterWord(w: string, t: string, c: char)
    requires c !in w
    ensures Split(w + t, c) == [w + Split(t, c)[0]] + Split(t, c)[1..]
    decreases |w|
  {
    if |w| > 0 {
      assert (w + t)[1..] == w[1..] + t;
      assert (w + t)[0] == w[0] != c;
      SplitAfterWord(w[1..], t, c);
      assert [w[0]] + (w[1..] + Split(t, c)[0]) == w + Split(t, c)[0];
    } else {
      var pieces := Split(t, c);
      assert w + t == t;
      assert w + pieces[0] == pieces[0];
      assert [pieces[0]] + pieces[1..] == pieces;
    }
  }

  /** Joining separator-free parts and splitting again gives the parts back. */
  lemma {:induction false} SplitJoin(parts: seq<string>, c: char)
    requires |parts| >= 1
    requires forall k :: 0 <= k < |parts| ==> c !in parts[k]
    ensures Split(Join(parts, [c]), c) == parts
    decreases |parts|
  {
    if |parts| == 1 {
      SplitAfterWord(parts[0], "", c);
      assert parts[0] + "" == parts[0];
    } else {
      var rest := Join(parts[1..], [c]);
      assert Join(parts, [c]) == parts[0] + ([c] + rest);
      SplitAfterWord(parts[0], [c] + rest, c);
      assert ([c] + rest)[1..] == rest;
      SplitJoin(parts[1..], c);
      assert Split([c] + rest, c) == [""] + parts[1..];
      assert parts[0] + "" == parts[0];
      assert [parts[0]] + parts[1..] == parts;
    }
  }

  /** Joining the concatenation of two non-empty lists puts one separator between their joins. */
  lemma {:induction false} JoinConcat(a: seq<string>, b: seq<string>, sep: string)
    requires |a| >= 1 && |b| >= 1
    ensures Join(a + b, sep) == Join(a, sep) + sep + Join(b, sep)
    decreases |a|
  {
    if |a| == 1 {
      assert (a + b)[1..] == b;
    } else {
      assert (a + b)[1..] == a[1..] + b;
      JoinConcat(a[1..], b, sep);
    }
  }

  /** A part that starts with the separator joins like an empty part followed
      by the rest of it: `"\n".join([..., "\nX", ...])` has a blank line before X. */
  lemma JoinLeadingSeparator(a: seq<string>, x: string, b: seq<string>, sep: string)
    requires |a| >= 1
    ensures Join(a + [sep + x] + b, sep) == Join(a + ["", x] + b, sep)
  {
    JoinConcat(a, [sep + x], sep);
    JoinConcat(a, ["", x], sep);
    assert Join(["", x], sep) == "" + sep + x;
    assert a + ["", x] == (a + [""]) + [x];
    if |b| > 0 {
      JoinConcat(a + [sep + x], b, sep);
      JoinConcat(a + ["", x], b, sep);
    } else {
      assert a + [sep + x] + b == a + [sep + x];
      assert a + ["", x] + b == a + ["", x];
    }
  }
}
