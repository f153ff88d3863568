/** String helpers shared by the TypeScript and the Python side: trimming, prefix and
    substring tests, removal of every occurrence of a pattern, joining, and the decimal
    rendering of numbers inside template strings. Strings are sequences of characters. */
module Strings {

  /** The whitespace that both JavaScript's `trim`/`\s` and Python's `str.strip` remove:
      the ASCII controls 9..13, the space, and the Unicode space separators and line
      separators both languages agree on. */
  predicate IsWhitespace(c: char) {
    var n := c as int;
    (9 <= n <= 13) || n == 32 || n == 0xA0 || n == 0x1680 || (0x2000 <= n <= 0x200A)
    || n == 0x2028 || n == 0x2029 || n == 0x202F || n == 0x205F || n == 0x3000
  }

  /** Neither end of `s` is whitespace. */
  predicate IsTrimmed(s: string) {
    s == [] || (!IsWhitespace(s[0]) && !IsWhitespace(s[|s| - 1]))
  }

  /** Every character of `s` is whitespace. */
  predicate AllWhitespace(s: string) {
    forall i :: 0 <= i < |s| ==> IsWhitespace(s[i])
  }

  /** Drops the leading whitespace: what is kept is a suffix of `s` that does not start
      with whitespace (`TrimStartDropsWhitespace` says what is dropped). */
  function TrimStart(s: string): (r: string)
    ensures |r| <= |s| && r == s[|s| - |r|..]
    ensures r == [] || !IsWhitespace(r[0])
    decreases |s|
  {
    if |s| > 0 && IsWhitespace(s[0]) then TrimStart(s[1..]) else s
  }

  /** What `TrimStart` drops is all whitespace. */
  lemma {:induction false} TrimStartDropsWhitespace(s: string)
    ensures AllWhitespace(s[..|s| - |TrimStart(s)|])
    decreases |s|
  {
    if |s| > 0 && IsWhitespace(s[0]) {
      TrimStartDropsWhitespace(s[1..]);
      var n := |s| - |TrimStart(s)|;
      assert s[..n] == [s[0]] + s[1..][..n - 1];
    }
  }

  /** Drops the trailing whitespace: the mirror image of `TrimStart`. */
  function TrimEnd(s: string): (r: string)
    ensures |r| <= |s| && r == s[..|r|]
    ensures r == [] || !IsWhitespace(r[|r| - 1])
    decreases |s|
  {
    if |s| > 0 && IsWhitespace(s[|s| - 1]) then TrimEnd(s[..|s| - 1]) else s
  }

  /** What `TrimEnd` drops is all whitespace. */
  lemma {:induction false} TrimEndDropsWhitespace(s: string)
    ensures AllWhitespace(s[|TrimEnd(s)|..])
    decreases |s|
  {
    if |s| > 0 && IsWhitespace(s[|s| - 1]) {
      TrimEndDropsWhitespace(s[..|s| - 1]);
      var n := |TrimEnd(s)|;
      assert s[n..] == s[..|s| - 1][n..] + [s[|s| - 1]];
    }
  }

  /** JavaScript `trim()` and Python `strip()`: a slice of `s` with no whitespace at
      either end, obtained by dropping whitespace only. */
  function Trim(s: string): (r: string)
    ensures IsTrimmed(r)
    ensures |r| <= |s|
  {
    TrimEnd(TrimStart(s))
  }

  /** The trimmed text is the slice of `s` that starts where the leading whitespace ends. */
  lemma TrimIsSlice(s: string)
    ensures var lo := |s| - |TrimStart(s)|;
            lo + |Trim(s)| <= |s| && Trim(s) == s[lo..lo + |Trim(s)|]
  {
    SliceOfSlice(s, TrimStart(s), Trim(s), |s| - |TrimStart(s)|);
  }

  /** A prefix of a suffix is a slice. */
  lemma SliceOfSlice(s: string, t: string, r: string, lo: nat)
    requires lo <= |s| && t == s[lo..] && |r| <= |t| && r == t[..|r|]
    ensures lo + |r| <= |s| && r == s[lo..lo + |r|]
  {
  }

  lemma TrimOfTrimmed(s: string)
    requires IsTrimmed(s)
    ensures Trim(s) == s
  {
  }

  /** Trimming the front first changes nothing about the final trim. */
  lemma TrimAfterTrimStart(s: string)
    ensures Trim(TrimStart(s)) == Trim(s)
  {
    var t := TrimStart(s);
    assert TrimStart(t) == t;
  }

  /** A string trims to nothing exactly when it is all whitespace. */
  lemma TrimEmptyIff(s: string)
    ensures Trim(s) == [] <==> AllWhitespace(s)
  {
    var t := TrimStart(s);
    var lo := |s| - |t|;
    TrimEndDropsWhitespace(t);
    if t == [] {
      TrimStartDropsWhitespace(s);
      assert s[..lo] == s;
    } else {
      assert !AllWhitespace(t[0..]) by { assert t[0..][0] == t[0]; }
      assert s[lo] == t[0];
    }
  }

  /** Leading whitespace in front of a string that does not start with whitespace is
      exactly what `TrimStart` drops. */
  lemma {:induction false} TrimStartPadding(pad: string, t: string)
    requires AllWhitespace(pad)
    requires t == [] || !IsWhitespace(t[0])
    ensures TrimStart(pad + t) == t
    decreases |pad|
  {
    if pad != [] {
      assert (pad + t)[1..] == pad[1..] + t;
      TrimStartPadding(pad[1..], t);
    }
  }

  /** Trailing whitespace behind a string that does not end with whitespace is exactly
      what `TrimEnd` drops. */
  lemma {:induction false} TrimEndPadding(t: string, pad: string)
    requires AllWhitespace(pad)
    requires t == [] || !IsWhitespace(t[|t| - 1])
    ensures TrimEnd(t + pad) == t
    decreases |pad|
  {
    if pad != [] {
      assert (t + pad)[..|t + pad| - 1] == t + pad[..|pad| - 1];
      TrimEndPadding(t, pad[..|pad| - 1]);
    } else {
      assert t + pad == t;
    }
  }

  /** Trimming a trimmed string padded with whitespace on both sides gives it back. */
  lemma TrimPadded(lead: string, t: string, trail: string)
    requires AllWhitespace(lead) && AllWhitespace(trail) && IsTrimmed(t)
    ensures Trim(lead + t + trail) == t
  {
    if t == [] {
      assert lead + t + trail == lead + trail;
      TrimStartPadding(lead + trail, []);
      assert lead + trail + [] == lead + trail;
    } else {
      assert lead + t + trail == lead + (t + trail);
      TrimStartPadding(lead, t + trail);
      TrimEndPadding(t, trail);
    }
  }

  /** JavaScript `s || fallback` on strings: only the empty string falls back. */
  function NonEmptyOr(s: string, fallback: string): (r: string)
    ensures s != "" ==> r == s
    ensures s == "" ==> r == fallback
  {
    if s != "" then s else fallback
  }

  /** `p` occurs in `s` starting at index `i`. */
  predicate OccursAt(s: string, p: string, i: int) {
    0 <= i && i + |p| <= |s| && s[i..i + |p|] == p
  }

  /** Python `p in s` / JavaScript `s.includes(p)`. */
  predicate Contains(s: string, p: string) {
    exists i | 0 <= i <= |s| - |p| :: OccursAt(s, p, i)
  }

  /** An occurrence inside a slice is an occurrence in the whole string. */
  lemma ContainsOfSlice(s: string, lo: int, hi: int, p: string)
    requires 0 <= lo <= hi <= |s|
    requires Contains(s[lo..hi], p)
    ensures Contains(s, p)
  {
    var i :| 0 <= i <= hi - lo - |p| && OccursAt(s[lo..hi], p, i);
    var whole, part := s[lo + i..lo + i + |p|], s[lo..hi][i..i + |p|];
    forall k | 0 <= k < |p|
      ensures whole[k] == part[k]
    {
      assert part[k] == s[lo..hi][i + k] == s[lo + i + k];
    }
    assert whole == part;
    assert OccursAt(s, p, lo + i);
  }

  /** An occurrence of a pattern is also one of each of its prefixes. */
  lemma ContainsPrefixOfPattern(s: string, p: string, q: string)
    requires q <= p && Contains(s, p)
    ensures Contains(s, q)
  {
    var i :| 0 <= i <= |s| - |p| && OccursAt(s, p, i);
    assert s[i..i + |q|] == s[i..i + |p|][..|q|];
    assert OccursAt(s, q, i);
  }

  /** Python `s.replace(p, "")`: scans left to right and deletes each non-overlapping
      occurrence of `p`. */
  function RemoveAll(s: string, p: string): (r: string)
    requires |p| > 0
    ensures |r| <= |s|
    decreases |s|
  {
    if |s| < |p| then s
    else if s[..|p|] == p then RemoveAll(s[|p|..], p)
    else [s[0]] + RemoveAll(s[1..], p)
  }

  /** A string that does not start with the pattern keeps its first character, and the
      removal goes on with the rest. */
  lemma RemoveAllKeepsHead(s: string, p: string)
    requires |p| > 0 && |s| > 0 && !(p <= s)
    ensures RemoveAll(s, p) == [s[0]] + RemoveAll(s[1..], p)
  {
    if |s| >= |p| {
      assert s[..|p|] != p;
    }
  }

  /** A text without the pattern comes back unchanged. */
  lemma {:induction false} RemoveAllAbsent(s: string, p: string)
    requires |p| > 0 && !Contains(s, p)
    ensures RemoveAll(s, p) == s
    decreases |s|
  {
    if |s| >= |p| {
      assert !OccursAt(s, p, 0);
      assert s[1..] == s[1..|s|];
      if Contains(s[1..], p) {
        ContainsOfSlice(s, 1, |s|, p);
      }
      RemoveAllAbsent(s[1..], p);
      RemoveAllKeepsHead(s, p);
    }
  }

  /** An occurrence at the front is deleted and the scan goes on behind it. */
  lemma RemoveAllLeading(p: string, s: string)
    requires |p| > 0
    ensures RemoveAll(p + s, p) == RemoveAll(s, p)
  {
    assert (p + s)[..|p|] == p;
    assert (p + s)[|p|..] == s;
  }

  /** Text in which the pattern's first character does not occur is kept as it is, in
      front of whatever the rest becomes. */
  lemma {:induction false} RemoveAllKeepsText(b: string, t: string, p: string)
    requires |p| > 0 && p[0] !in b
    ensures RemoveAll(b + t, p) == b + RemoveAll(t, p)
    decreases |b|
  {
    if b == [] {
      assert b + t == t;
    } else {
      assert (b + t)[0] == b[0] != p[0];
      assert !(p <= b + t);
      RemoveAllKeepsHead(b + t, p);
      assert (b + t)[1..] == b[1..] + t;
      RemoveAllKeepsText(b[1..], t, p);
      assert b == [b[0]] + b[1..];
    }
  }

  /** Every piece preceded by the separator, in order. */
  function SepEach(sep: string, xs: seq<string>): string
    decreases |xs|
  {
    if xs == [] then "" else sep + xs[0] + SepEach(sep, xs[1..])
  }

  /** The first piece, behind its separator, then the others. */
  lemma SepEachCons(sep: string, x: string, xs: seq<string>)
    ensures SepEach(sep, [x] + xs) == sep + x + SepEach(sep, xs)
  {
    assert ([x] + xs)[0] == x;
    assert ([x] + xs)[1..] == xs;
  }

  /** Prefixing each piece distributes over concatenation. */
  lemma {:induction false} SepEachAppend(sep: string, xs: seq<string>, ys: seq<string>)
    ensures SepEach(sep, xs + ys) == SepEach(sep, xs) + SepEach(sep, ys)
    decreases |xs|
  {
    if xs == [] {
      assert xs + ys == ys;
    } else {
      assert (xs + ys)[0] == xs[0];
      assert (xs + ys)[1..] == xs[1..] + ys;
      SepEachAppend(sep, xs[1..], ys);
    }
  }

  /** JavaScript `xs.join(sep)`: the empty array joins to "", any other array to its
      first piece followed by every later piece, each with one separator in front. */
  function Join(sep: string, xs: seq<string>): (r: string)
    ensures xs == [] ==> r == ""
    ensures xs != [] ==> r == xs[0] + SepEach(sep, xs[1..])
    decreases |xs|
  {
    if |xs| == 0 then "" else if |xs| == 1 then xs[0] else xs[0] + sep + Join(sep, xs[1..])
  }

  /** A join of a first piece and three further runs of pieces: every later piece
      behind one separator, run after run. */
  lemma JoinOfRuns(sep: string, first: string, a: seq<string>, b: seq<string>, c: seq<string>)
    ensures Join(sep, [first] + a + b + c) == first + (SepEach(sep, a) + SepEach(sep, b) + SepEach(sep, c))
  {
    var lines := [first] + a + b + c;
    assert lines[0] == first;
    assert lines[1..] == a + b + c;
    SepEachAppend(sep, a + b, c);
    SepEachAppend(sep, a, b);
  }

  /** One more piece is appended behind one more separator. */
  lemma JoinAppend(sep: string, xs: seq<string>, x: string)
    requires |xs| > 0
    ensures Join(sep, xs + [x]) == Join(sep, xs) + sep + x
  {
    assert (xs + [x])[0] == xs[0];
    assert (xs + [x])[1..] == xs[1..] + [x];
    SepEachAppend(sep, xs[1..], [x]);
    assert SepEach(sep, [x]) == sep + x + SepEach(sep, []);
  }

  function TotalLength(xs: seq<string>): nat
    decreases |xs|
  {
    if xs == [] then 0 else |xs[0]| + TotalLength(xs[1..])
  }

  /** The length of a join: the pieces' lengths plus one separator per pair of neighbours. */
  lemma {:induction false} JoinLength(sep: string, xs: seq<string>)
    requires |xs| > 0
    ensures |Join(sep, xs)| == TotalLength(xs) + (|xs| - 1) * |sep|
    decreases |xs|
  {
    if |xs| > 1 {
      JoinLength(sep, xs[1..]);
    }
  }

  /** A join starts with its first piece followed by the separator. */
  lemma JoinHead(sep: string, xs: seq<string>)
    requires |xs| > 1
    ensures xs[0] + sep <= Join(sep, xs)
  {
  }

  predicate IsDigit(c: char) {
    '0' <= c <= '9'
  }

  function DigitChar(d: nat): (c: char)
    requires d < 10
    ensures IsDigit(c) && c as int - '0' as int == d
  {
    "0123456789"[d]
  }

  /** The decimal rendering of a natural number, as JavaScript's `${n}` and Python's
      `str(n)` print it: digits only, no leading zero. */
  function NatToString(n: nat): (s: string)
    ensures |s| > 0
    ensures forall i :: 0 <= i < |s| ==> IsDigit(s[i])
    ensures |s| > 1 ==> s[0] != '0'
    decreases n
  {
    if n < 10 then [DigitChar(n)] else NatToString(n / 10) + [DigitChar(n % 10)]
  }

  /** The number a string of decimal digits denotes. */
  function DigitsValue(s: string): nat
    requires forall i :: 0 <= i < |s| ==> IsDigit(s[i])
    decreases |s|
  {
    if s == [] then 0
    else
      assert IsDigit(s[|s| - 1]);
      10 * DigitsValue(s[..|s| - 1]) + (s[|s| - 1] as int - '0' as int)
  }

  /** Reading the rendering back gives the number: the rendering loses nothing. */
  lemma {:induction false} NatToStringRoundTrip(n: nat)
    ensures DigitsValue(NatToString(n)) == n
    decreases n
  {
    if n >= 10 {
      NatToStringRoundTrip(n / 10);
      var s := NatToString(n);
      assert s[..|s| - 1] == NatToString(n / 10);
    }
  }

  /** Different numbers render differently. */
  lemma NatToStringInjective(m: nat, n: nat)
    requires NatToString(m) == NatToString(n)
    ensures m == n
  {
    NatToStringRoundTrip(m);
    NatToStringRoundTrip(n);
  }

  /** JavaScript's `${n}` for an integer. */
  function IntToString(n: int): (s: string)
    ensures |s| > 0
    ensures (s[0] == '-') <==> n < 0
  {
    if n < 0 then "-" + NatToString(-n) else NatToString(n)
  }
}
