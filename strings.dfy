/**
 * The Python `str` operations the tool relies on: `strip`/`rstrip`, `startswith`,
 * `endswith`, `in`, `count`, `split`, `replace`, `lower` and `int(...)`,
 * over strings as sequences of Unicode scalar values.
 */
module Strings {
  import opened Wrappers

  /** Python's `str.isspace` for one character (the whitespace `strip()` removes). */
  predicate IsSpace(c: char) {
    || c == ' '
    || ('\t' <= c <= '\r')
    || ('\U{1c}' <= c <= '\U{1f}')
    || c == '\U{85}' || c == '\U{a0}' || c == '\U{1680}'
    || ('\U{2000}' <= c <= '\U{200a}')
    || c == '\U{2028}' || c == '\U{2029}' || c == '\U{202f}' || c == '\U{205f}' || c == '\U{3000}'
  }

  predicate StartsWith(s: string, p: string) {
    |p| <= |s| && s[..|p|] == p
  }

  predicate EndsWith(s: string, p: string) {
    |p| <= |s| && s[|s| - |p|..] == p
  }

  /** `p` occurs in `s` starting at index `i`. */
  predicate OccursAt(s: string, p: string, i: int) {
    0 <= i && i + |p| <= |s| && s[i..i + |p|] == p
  }

  /** Python's `p in s` for strings. */
  predicate Contains(s: string, p: string) {
    exists i :: 0 <= i <= |s| && OccursAt(s, p, i)
  }

  /** `s.rstrip()`: the longest prefix of `s` that does not end in whitespace. */
  function RStrip(s: string): (r: string)
    ensures |r| <= |s| && r == s[..|r|]
    ensures r == [] || !IsSpace(r[|r| - 1])
    ensures forall i :: |r| <= i < |s| ==> IsSpace(s[i])
    decreases |s|
  {
    if |s| > 0 && IsSpace(s[|s| - 1]) then RStrip(s[..|s| - 1]) else s
  }

  /** `s.lstrip()`: the longest suffix of `s` that does not start with whitespace. */
  function LStrip(s: string): (r: string)
    ensures |r| <= |s| && r == s[|s| - |r|..]
    ensures r == [] || !IsSpace(r[0])
    ensures forall i :: 0 <= i < |s| - |r| ==> IsSpace(s[i])
    decreases |s|
  {
    if |s| > 0 && IsSpace(s[0]) then LStrip(s[1..]) else s
  }

  /** `s.strip()`: whitespace removed from both ends. */
  function Strip(s: string): (r: string)
  {
    LStrip(RStrip(s))
  }

  lemma StripShape(s: string)
    ensures var r := Strip(s);
      && (r == [] || (!IsSpace(r[0]) && !IsSpace(r[|r| - 1])))
      && exists i :: OccursAt(s, r, i)
  {
    var t := RStrip(s);
    var r := LStrip(t);
    var i := |t| - |r|;
    assert s[i..i + |r|] == t[i..] == r;
    assert OccursAt(s, r, i);
    if r != [] {
      assert r[|r| - 1] == t[|t| - 1];
      assert !IsSpace(r[|r| - 1]);
      assert !IsSpace(r[0]);
    }
  }

  lemma {:induction false} RStripNoTrailingSpace(s: string)
    requires s == [] || !IsSpace(s[|s| - 1])
    ensures RStrip(s) == s
  {
  }

  lemma {:induction false} LStripNoLeadingSpace(s: string)
    requires s == [] || !IsSpace(s[0])
    ensures LStrip(s) == s
  {
  }

  /** Stripping twice is stripping once. */
  lemma StripIdempotent(s: string)
    ensures Strip(Strip(s)) == Strip(s)
  {
    var r := Strip(s);
    StripShape(s);
    RStripNoTrailingSpace(r);
    LStripNoLeadingSpace(r);
  }

  /** `s.count(c)` for a one-character needle. */
  function Count(s: string, c: char): (n: nat)
    ensures n <= |s|
    ensures n == 0 <==> c !in s
    decreases |s|
  {
    if |s| == 0 then 0
    else (if s[0] == c then 1 else 0) + Count(s[1..], c)
  }

  /**
   * `s.split(p)` for a non-empty separator: the pieces between the non-overlapping
   * occurrences of `p` found by a left-to-right scan.
   */
  function Split(s: string, p: string): (ps: seq<string>)
    requires |p| > 0
    ensures |ps| >= 1
    ensures StartsWith(s, ps[0])
    decreases |s|
  {
    if |s| < |p| then [s]
    else if s[..|p|] == p then [""] + Split(s[|p|..], p)
    else
      var rest := Split(s[1..], p);
      [[s[0]] + rest[0]] + rest[1..]
  }

  /** `sep.join(ps)`. */
  function Join(ps: seq<string>, sep: string): string
    requires |ps| >= 1
    decreases |ps|
  {
    if |ps| == 1 then ps[0] else ps[0] + sep + Join(ps[1..], sep)
  }

  /** `s.replace(p, r)`: every occurrence found by a left-to-right scan is replaced. */
  function Replace(s: string, p: string, r: string): string
    requires |p| > 0
    decreases |s|
  {
    if |s| < |p| then s
    else if s[..|p|] == p then r + Replace(s[|p|..], p, r)
    else [s[0]] + Replace(s[1..], p, r)
  }

  lemma JoinPrepend(c: char, ps: seq<string>, sep: string)
    requires |ps| >= 1
    ensures Join([[c] + ps[0]] + ps[1..], sep) == [c] + Join(ps, sep)
  {
    var qs := [[c] + ps[0]] + ps[1..];
    if |ps| > 1 {
      assert qs[1..] == ps[1..];
    }
  }

  /** Joining the pieces with the separator gives the text back. */
  lemma {:induction false} SplitJoin(s: string, p: string)
    requires |p| > 0
    ensures Join(Split(s, p), p) == s
    decreases |s|
  {
    if |s| < |p| {
    } else if s[..|p|] == p {
      SplitJoin(s[|p|..], p);
      JoinLeadingSeparator(s, p);
    } else {
      var rest := Split(s[1..], p);
      SplitJoin(s[1..], p);
      JoinPrepend(s[0], rest, p);
      assert s == [s[0]] + s[1..];
    }
  }

  /** The separator case of `SplitJoin`: an empty first piece, then the rest. */
  lemma JoinLeadingSeparator(s: string, p: string)
    requires |p| > 0 && |s| >= |p| && s[..|p|] == p
    requires Join(Split(s[|p|..], p), p) == s[|p|..]
    ensures Join(Split(s, p), p) == s
  {
    var rest := Split(s[|p|..], p);
    assert Split(s, p) == [""] + rest;
    JoinEmptyFirst(rest, p);
    SplitAt(s, |p|);
  }

  /** An empty first piece contributes only the separator. */
  lemma JoinEmptyFirst(rest: seq<string>, sep: string)
    requires |rest| >= 1
    ensures Join([""] + rest, sep) == sep + Join(rest, sep)
  {
    assert ([""] + rest)[1..] == rest;
  }

  /** A sequence is its prefix followed by its suffix. */
  lemma SplitAt<T>(s: seq<T>, i: nat)
    requires i <= |s|
    ensures s == s[..i] + s[i..]
  {
  }

  /** No piece contains the separator. */
  lemma {:induction false} SplitPiecesFree(s: string, p: string)
    requires |p| > 0
    ensures forall k :: 0 <= k < |Split(s, p)| ==> !Contains(Split(s, p)[k], p)
    decreases |s|
  {
    var ps := Split(s, p);
    if |s| < |p| {
    } else if s[..|p|] == p {
      var rest := Split(s[|p|..], p);
      SplitPiecesFree(s[|p|..], p);
      forall k | 0 <= k < |ps| ensures !Contains(ps[k], p) {
        if k > 0 {
          assert ps[k] == rest[k - 1];
        }
      }
    } else {
      var rest := Split(s[1..], p);
      SplitPiecesFree(s[1..], p);
      var first := [s[0]] + rest[0];
      assert first == s[..|first|];
      forall i | 0 <= i && i + |p| <= |first| ensures !OccursAt(first, p, i) {
        if i == 0 {
          assert first[..|p|] == s[..|p|];
        } else {
          assert first[i..i + |p|] == rest[0][i - 1..i - 1 + |p|];
          assert !OccursAt(rest[0], p, i - 1);
        }
      }
      forall k | 0 <= k < |ps| ensures !Contains(ps[k], p) {
        if k > 0 {
          assert ps[k] == rest[k];
        }
      }
    }
  }

  /** A text without the separator is a single piece. */
  lemma {:induction false} SplitNoMatch(s: string, p: string)
    requires |p| > 0 && !Contains(s, p)
    ensures Split(s, p) == [s]
    decreases |s|
  {
    if |s| >= |p| {
      assert !OccursAt(s, p, 0);
      forall i | 0 <= i && i + |p| <= |s[1..]| ensures !OccursAt(s[1..], p, i) {
        assert s[1..][i..i + |p|] == s[i + 1..i + 1 + |p|];
        assert !OccursAt(s, p, i + 1);
      }
      SplitNoMatch(s[1..], p);
      assert [s[0]] + s[1..] == s;
    }
  }

  /** A one-character separator splits a concatenation at each of its occurrences. */
  lemma {:induction false} SplitAroundSeparator(a: string, p: string, b: string)
    requires |p| == 1
    ensures Split(a + p + b, p) == Split(a, p) + Split(b, p)
    decreases |a|
  {
    if a == [] {
      var s := a + p + b;
      assert s == p + b && s[..1] == p && s[1..] == b;
    } else {
      HeadOfConcat3(a, p, b);
      SplitAroundSeparator(a[1..], p, b);
      SplitConsStep(a, p, b);
    }
  }

  /** The step of `SplitAroundSeparator`: one more leading character on the left. */
  lemma SplitConsStep(a: string, p: string, b: string)
    requires |p| == 1 && a != []
    requires Split(a[1..] + p + b, p) == Split(a[1..], p) + Split(b, p)
    ensures Split(a + p + b, p) == Split(a, p) + Split(b, p)
  {
    HeadOfConcat3(a, p, b);
    if a[..1] == p {
      SplitConsSeparator(a, p, a + p + b);
      ConsAssoc("", Split(a[1..], p), Split(b, p));
    } else {
      SplitConsOther(a, p, a + p + b, Split(b, p));
    }
  }

  /** Prepending an element and appending a tail can be done in either order. */
  lemma ConsAssoc<T>(x: T, r: seq<T>, t: seq<T>)
    ensures [x] + (r + t) == ([x] + r) + t
  {
  }

  /** The first element of a concatenation comes from its non-empty left part. */
  lemma HeadOfConcat3<T>(a: seq<T>, p: seq<T>, b: seq<T>)
    requires |a| >= 1
    ensures (a + p + b)[1..] == a[1..] + p + b
    ensures (a + p + b)[..1] == a[..1]
  {
  }

  /** A leading separator opens an empty piece, in `a` and in `s` alike. */
  lemma SplitConsSeparator(a: string, p: string, s: string)
    requires |p| == 1 && a != [] && a[..1] == p
    requires s != [] && s[..1] == p
    ensures Split(s, p) == [""] + Split(s[1..], p)
    ensures Split(a, p) == [""] + Split(a[1..], p)
  {
  }

  /** A leading non-separator joins the first piece, in `a` and in `s` alike. */
  lemma SplitConsOther(a: string, p: string, s: string, tail: seq<string>)
    requires |p| == 1 && a != [] && a[..1] != p
    requires s != [] && s[..1] == a[..1]
    requires Split(s[1..], p) == Split(a[1..], p) + tail
    ensures Split(s, p) == Split(a, p) + tail
  {
    var r := Split(a[1..], p);
    assert s[0] == a[0] by { assert s[..1][0] == a[..1][0]; }
    assert Split(a, p) == [[a[0]] + r[0]] + r[1..];
    var rest := r + tail;
    assert Split(s, p) == [[s[0]] + rest[0]] + rest[1..];
    ExtendFirstPiece(a[0], r, tail);
  }

  /** Extending the first piece commutes with appending more pieces. */
  lemma ExtendFirstPiece(c: char, r: seq<string>, tail: seq<string>)
    requires |r| >= 1
    ensures [[c] + (r + tail)[0]] + (r + tail)[1..] == ([[c] + r[0]] + r[1..]) + tail
  {
    assert (r + tail)[0] == r[0];
    assert (r + tail)[1..] == r[1..] + tail;
  }

  /** `s.replace(p, r)` is `r.join(s.split(p))`. */
  lemma {:induction false} ReplaceIsJoin(s: string, p: string, r: string)
    requires |p| > 0
    ensures Replace(s, p, r) == Join(Split(s, p), r)
    decreases |s|
  {
    if |s| < |p| {
    } else if s[..|p|] == p {
      var rest := Split(s[|p|..], p);
      ReplaceIsJoin(s[|p|..], p, r);
      assert ([""] + rest)[1..] == rest;
    } else {
      var rest := Split(s[1..], p);
      ReplaceIsJoin(s[1..], p, r);
      JoinPrepend(s[0], rest, r);
    }
  }

  /** A text without the pattern is left as it is by `replace`. */
  lemma ReplaceNoMatch(s: string, p: string, r: string)
    requires |p| > 0 && !Contains(s, p)
    ensures Replace(s, p, r) == s
  {
    ReplaceIsJoin(s, p, r);
    SplitNoMatch(s, p);
  }

  /** Replacing a pattern by itself changes nothing. */
  lemma ReplaceBySelf(s: string, p: string)
    requires |p| > 0
    ensures Replace(s, p, p) == s
  {
    ReplaceIsJoin(s, p, p);
    SplitJoin(s, p);
  }

  /** A pattern holding a character the text lacks does not occur in it. */
  lemma MissingCharNotContained(s: string, p: string, c: char)
    requires c in p && c !in s
    ensures !Contains(s, p)
  {
    forall i | 0 <= i && i + |p| <= |s| ensures !OccursAt(s, p, i) {
      var j :| 0 <= j < |p| && p[j] == c;
      assert s[i..i + |p|][j] == s[i + j];
    }
  }

  /** ASCII lower-casing of `str.lower()`. */
  function LowerChar(c: char): char {
    if 'A' <= c <= 'Z' then (c as int + 32) as char else c
  }

  function Lower(s: string): (r: string)
    ensures |r| == |s|
    ensures forall i :: 0 <= i < |s| ==> r[i] == LowerChar(s[i])
  {
    seq(|s|, i requires 0 <= i < |s| => LowerChar(s[i]))
  }

  /** The first run of non-whitespace characters of `t`. */
  function TakeWord(t: string): (w: string)
    ensures |w| <= |t| && w == t[..|w|]
    ensures forall i :: 0 <= i < |w| ==> !IsSpace(w[i])
    ensures |w| == |t| || IsSpace(t[|w|])
    decreases |t|
  {
    if |t| == 0 || IsSpace(t[0]) then "" else [t[0]] + TakeWord(t[1..])
  }

  /** `s.split()[0]`; `None` where Python raises IndexError (no word at all). */
  function FirstWord(s: string): (r: Option<string>)
    ensures r.None? <==> forall i :: 0 <= i < |s| ==> IsSpace(s[i])
    ensures r.Some? ==> r.value != "" && forall i :: 0 <= i < |r.value| ==> !IsSpace(r.value[i])
  {
    var t := LStrip(s);
    if t == "" then None else Some(TakeWord(t))
  }

  predicate IsDigit(c: char) {
    '0' <= c <= '9'
  }

  function DigitValue(c: char): nat
    requires IsDigit(c)
  {
    c as int - '0' as int
  }

  function DigitsValue(ds: string): nat
    requires forall i :: 0 <= i < |ds| ==> IsDigit(ds[i])
    decreases |ds|
  {
    if |ds| == 0 then 0
    else 10 * DigitsValue(ds[..|ds| - 1]) + DigitValue(ds[|ds| - 1])
  }

  predicate AllDigits(ds: string) {
    |ds| > 0 && forall i :: 0 <= i < |ds| ==> IsDigit(ds[i])
  }

  /** A base-10 integer literal: ASCII digits with an optional leading sign. */
  predicate IntLiteral(t: string) {
    AllDigits(t) || (|t| > 1 && (t[0] == '+' || t[0] == '-') && AllDigits(t[1..]))
  }

  /** The value of an integer literal; `None` when `t` is not one. */
  function ParseLiteral(t: string): (r: Option<int>)
    ensures r.Some? <==> IntLiteral(t)
    ensures r.Some? && r.value < 0 ==> t[0] == '-'
  {
    if AllDigits(t) then Some(DigitsValue(t))
    else if |t| > 1 && t[0] == '+' && AllDigits(t[1..]) then Some(DigitsValue(t[1..]))
    else if |t| > 1 && t[0] == '-' && AllDigits(t[1..]) then Some(-(DigitsValue(t[1..]) as int))
    else None
  }

  /**
   * `int(s)` for a base-10 literal: surrounding whitespace, an optional sign and
   * ASCII digits; `None` where Python raises ValueError.
   */
  function ParseInt(s: string): Option<int> {
    ParseLiteral(Strip(s))
  }
}
