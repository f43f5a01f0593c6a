/**
  String operations of Python's `str` that the modelled code relies on:
  `startswith`, `in`, `replace`, `split` and `join` with a one-character
  separator, and the decimal `int()` / `str()` conversions.
 */
module Text {

  import opened Wrappers

  predicate StartsWith(s: string, prefix: string) {
    |prefix| <= |s| && s[..|prefix|] == prefix
  }

  /** Python's `pat in s`. */
  predicate Contains(s: string, pat: string)
    decreases |s|
  {
    StartsWith(s, pat) || (s != [] && Contains(s[1..], pat))
  }

  lemma {:induction false} ContainsSuffix(s: string, k: nat, pat: string)
    requires k <= |s|
    requires Contains(s[k..], pat)
    ensures Contains(s, pat)
  {
    if k > 0 {
      assert s[1..][k - 1..] == s[k..];
      ContainsSuffix(s[1..], k - 1, pat);
    }
  }

  /** Python's `s.replace(pat, rep)`: every leftmost, non-overlapping occurrence is replaced. */
  function ReplaceAll(s: string, pat: string, rep: string): string
    requires pat != []
    decreases |s|
  {
    if StartsWith(s, pat) then rep + ReplaceAll(s[|pat|..], pat, rep)
    else if s == [] then []
    else [s[0]] + ReplaceAll(s[1..], pat, rep)
  }

  /** A string without the pattern is left unchanged. */
  lemma {:induction false} ReplaceAbsent(s: string, pat: string, rep: string)
    requires pat != []
    requires !Contains(s, pat)
    ensures ReplaceAll(s, pat, rep) == s
  {
    if s != [] {
      ReplaceAbsent(s[1..], pat, rep);
    }
  }

  /** An occurrence at the front is replaced and the scan resumes after it. */
  lemma ReplaceAtFront(pat: string, q: string, rep: string)
    requires pat != []
    ensures ReplaceAll(pat + q, pat, rep) == rep + ReplaceAll(q, pat, rep)
  {
    assert (pat + q)[..|pat|] == pat;
    assert (pat + q)[|pat|..] == q;
  }

  /** Characters that cannot begin the pattern are copied through unchanged. */
  lemma {:induction false} ReplaceSkipsPlain(w: string, q: string, pat: string, rep: string)
    requires pat != []
    requires forall i :: 0 <= i < |w| ==> w[i] != pat[0]
    ensures ReplaceAll(w + q, pat, rep) == w + ReplaceAll(q, pat, rep)
  {
    if w != [] {
      assert (w + q)[0] == w[0];
      assert !StartsWith(w + q, pat);
      assert (w + q)[1..] == w[1..] + q;
      ReplaceSkipsPlain(w[1..], q, pat, rep);
      assert ReplaceAll(w + q, pat, rep) == [w[0]] + ReplaceAll(w[1..] + q, pat, rep);
      assert w + ReplaceAll(q, pat, rep) == [w[0]] + (w[1..] + ReplaceAll(q, pat, rep));
    } else {
      assert w + q == q;
    }
  }

  /** A prefix in which no occurrence of the pattern starts is copied through unchanged. */
  lemma {:induction false} ReplaceSkipsUnmatched(w: string, q: string, pat: string, rep: string)
    requires pat != []
    requires forall i :: 0 <= i < |w| ==> !StartsWith((w + q)[i..], pat)
    ensures ReplaceAll(w + q, pat, rep) == w + ReplaceAll(q, pat, rep)
  {
    if w != [] {
      assert (w + q)[0..] == w + q;
      assert (w + q)[1..] == w[1..] + q;
      forall i | 0 <= i < |w[1..]|
        ensures !StartsWith((w[1..] + q)[i..], pat)
      {
        assert (w[1..] + q)[i..] == (w + q)[i + 1..];
      }
      ReplaceSkipsUnmatched(w[1..], q, pat, rep);
      assert ReplaceAll(w + q, pat, rep) == [w[0]] + ReplaceAll(w[1..] + q, pat, rep);
      assert w + ReplaceAll(q, pat, rep) == [w[0]] + (w[1..] + ReplaceAll(q, pat, rep));
    } else {
      assert w + q == q;
    }
  }

  /** An occurrence at any position is an occurrence. */
  lemma ContainsAt(s: string, k: nat, pat: string)
    requires k <= |s| && StartsWith(s[k..], pat)
    ensures Contains(s, pat)
  {
    ContainsSuffix(s, k, pat);
  }

  /**
    When the pattern occurs neither in `w` nor across the start of the
    pattern placed after it, no occurrence starts inside `w`.
   */
  lemma NoMatchBeforeFront(w: string, pat: string, q: string, i: nat)
    requires pat != [] && !Contains(w + pat[..|pat| - 1], pat)
    requires i < |w|
    ensures !StartsWith((w + (pat + q))[i..], pat)
  {
    var s := w + pat[..|pat| - 1];
    var t := w + (pat + q);
    if StartsWith(t[i..], pat) {
      forall j | 0 <= j < |pat|
        ensures s[i + j] == pat[j]
      {
        assert t[i..][j] == pat[j];
      }
      assert s[i..][..|pat|] == pat;
      ContainsAt(s, i, pat);
      assert false;
    }
  }

  /** A pattern that occurs only at the front is replaced there and nowhere else. */
  lemma ReplaceOnlyAtFront(pat: string, rest: string, rep: string)
    requires pat != [] && Free(rest, pat[0])
    ensures ReplaceAll(pat + rest, pat, rep) == rep + rest
  {
    ReplaceAtFront(pat, rest, rep);
    ReplaceSkipsPlain(rest, [], pat, rep);
    assert rest + [] == rest;
  }

  /** Two occurrences separated by text that cannot begin the pattern are both replaced. */
  lemma ReplaceTwice(pat: string, x: string, y: string, rep: string)
    requires pat != [] && Free(x, pat[0]) && Free(y, pat[0])
    ensures ReplaceAll(pat + x + pat + y, pat, rep) == rep + x + rep + y
  {
    var tail := x + (pat + y);
    assert pat + x + pat + y == pat + tail;
    calc {
      ReplaceAll(pat + tail, pat, rep);
      { ReplaceAtFront(pat, tail, rep); }
      rep + ReplaceAll(tail, pat, rep);
      { ReplaceSkipsPlain(x, pat + y, pat, rep); }
      rep + (x + ReplaceAll(pat + y, pat, rep));
      { ReplaceOnlyAtFront(pat, y, rep); }
      rep + (x + (rep + y));
      rep + x + rep + y;
    }
  }

  lemma FreeConcat(s: string, t: string, c: char)
    requires Free(s, c) && Free(t, c)
    ensures Free(s + t, c)
  {
    assert forall i :: 0 <= i < |s + t| ==> (s + t)[i] == (if i < |s| then s[i] else t[i - |s|]);
  }

  /**
    If the replaced string starts with text that holds no first character of
    the replacement, the original string already started with that text.
   */
  lemma {:induction false} ReplacedPlainPrefix(q: string, pat: string, rep: string, w: string)
    requires pat != [] && rep != []
    requires forall i :: 0 <= i < |w| ==> w[i] != rep[0]
    requires StartsWith(ReplaceAll(q, pat, rep), w)
    ensures StartsWith(q, w)
  {
    if w != [] {
      if StartsWith(q, pat) {
        assert ReplaceAll(q, pat, rep)[0] == rep[0];
        assert false;
      } else if q != [] {
        var r := ReplaceAll(q, pat, rep);
        assert r == [q[0]] + ReplaceAll(q[1..], pat, rep);
        assert r[1..] == ReplaceAll(q[1..], pat, rep);
        assert StartsWith(r[1..], w[1..]);
        ReplacedPlainPrefix(q[1..], pat, rep, w[1..]);
        assert q == [q[0]] + q[1..];
      }
    }
  }

  /** When pattern and replacement share their first character, so do the string and its replacement. */
  lemma ReplacedFirstChar(q: string, pat: string, rep: string)
    requires pat != [] && rep != [] && pat[0] == rep[0]
    requires ReplaceAll(q, pat, rep) != [] && ReplaceAll(q, pat, rep)[0] == rep[0]
    ensures q != [] && q[0] == rep[0]
  {
  }

  /**
    Replacing `a` by `b` never lets a `b` begin at the front unless it was
    already there: the side condition under which a replacement is undone.
   */
  ghost predicate NoStraddle(a: string, b: string)
    requires a != []
  {
    forall s :: !StartsWith(s, a) && !Contains(s, b) ==> !StartsWith(ReplaceAll(s, a, b), b)
  }

  /**
    A replacement whose first character occurs nowhere else in it (such as
    `C:/Users/`) cannot be completed across an earlier boundary.
   */
  lemma NoStraddleUniqueHead(a: string, b: string)
    requires a != [] && b != []
    requires Free(b[1..], b[0])
    ensures NoStraddle(a, b)
  {
    forall s | !StartsWith(s, a) && !Contains(s, b)
      ensures !StartsWith(ReplaceAll(s, a, b), b)
    {
      UniqueHeadStart(s, a, b);
      if StartsWith(s, b) {
        StartsWithContains(s, b);
      }
    }
  }

  lemma UniqueHeadStart(s: string, a: string, b: string)
    requires a != [] && b != []
    requires Free(b[1..], b[0])
    requires !StartsWith(s, a)
    ensures StartsWith(ReplaceAll(s, a, b), b) ==> StartsWith(s, b)
  {
    var r := ReplaceAll(s, a, b);
    if StartsWith(r, b) && s != [] {
      assert r == [s[0]] + ReplaceAll(s[1..], a, b);
      assert r[1..] == ReplaceAll(s[1..], a, b);
      assert StartsWith(r[1..], b[1..]);
      ReplacedPlainPrefix(s[1..], a, b, b[1..]);
      assert s[..|b|] == [s[0]] + s[1..][..|b| - 1];
    }
  }

  /**
    A replacement `c w c` that shares its first character `c` with the pattern,
    where `w` holds no `c` (such as `/Users/` replacing `/home/`), cannot be
    completed across an earlier boundary either.
   */
  lemma NoStraddleBracketed(a: string, b: string, w: string)
    requires a != [] && b != []
    requires b == [b[0]] + w + [b[0]] && a[0] == b[0]
    requires Free(w, b[0])
    ensures NoStraddle(a, b)
  {
    forall s | !StartsWith(s, a) && !Contains(s, b)
      ensures !StartsWith(ReplaceAll(s, a, b), b)
    {
      BracketedStart(s, a, b, w);
      if StartsWith(s, b) {
        StartsWithContains(s, b);
      }
    }
  }

  lemma BracketedStart(s: string, a: string, b: string, w: string)
    requires a != [] && b != []
    requires b == [b[0]] + w + [b[0]] && a[0] == b[0]
    requires Free(w, b[0])
    requires !StartsWith(s, a)
    ensures StartsWith(ReplaceAll(s, a, b), b) ==> StartsWith(s, b)
  {
    var r := ReplaceAll(s, a, b);
    if StartsWith(r, b) && s != [] {
      var tail := w + [b[0]];
      assert r == [s[0]] + ReplaceAll(s[1..], a, b);
      assert StartsWith(ReplaceAll(s[1..], a, b), tail) by {
        assert r[1..|b|] == tail;
      }
      BracketedTail(s[1..], a, b, w);
      assert s[..|b|] == [s[0]] + s[1..][..|tail|];
    }
  }

  /** The part of a bracketed replacement after its first character is found in the original too. */
  lemma BracketedTail(q: string, a: string, b: string, w: string)
    requires a != [] && b != [] && a[0] == b[0]
    requires Free(w, b[0])
    requires StartsWith(ReplaceAll(q, a, b), w + [b[0]])
    ensures StartsWith(q, w + [b[0]])
  {
    var r := ReplaceAll(q, a, b);
    assert StartsWith(r, w) by {
      assert r[..|w|] == (w + [b[0]])[..|w|];
    }
    ReplacedPlainPrefix(q, a, b, w);
    var t := q[|w|..];
    assert q == w + t;
    ReplaceSkipsPlain(w, t, a, b);
    var rt := ReplaceAll(t, a, b);
    assert r == w + rt;
    assert rt != [] && rt[0] == b[0] by {
      assert r[|w|] == (w + [b[0]])[|w|];
    }
    ReplacedFirstChar(t, a, b);
    assert q[..|w| + 1] == w + [t[0]];
  }

  /** Replacing `a` by `b` and then `b` by `a` restores a string that held no `b`. */
  lemma {:induction false} ReplaceRoundTrip(p: string, a: string, b: string)
    requires a != [] && b != []
    requires NoStraddle(a, b)
    requires !Contains(p, b)
    ensures ReplaceAll(ReplaceAll(p, a, b), b, a) == p
    decreases |p|
  {
    var r := ReplaceAll(p, a, b);
    if StartsWith(p, a) {
      var rest := p[|a|..];
      ContainsSuffixNot(p, |a|, b);
      ReplaceRoundTrip(rest, a, b);
      var x := ReplaceAll(rest, a, b);
      assert r == b + x;
      assert (b + x)[..|b|] == b;
      assert (b + x)[|b|..] == x;
      assert ReplaceAll(r, b, a) == a + ReplaceAll(x, b, a);
      assert p == a + rest;
    } else if p != [] {
      assert r == [p[0]] + ReplaceAll(p[1..], a, b);
      assert !StartsWith(r, b);
      ContainsSuffixNot(p, 1, b);
      ReplaceRoundTrip(p[1..], a, b);
      assert r[1..] == ReplaceAll(p[1..], a, b);
      assert ReplaceAll(r, b, a) == [r[0]] + ReplaceAll(r[1..], b, a);
      assert p == [p[0]] + p[1..];
    }
  }

  lemma ContainsSuffixNot(s: string, k: nat, pat: string)
    requires k <= |s|
    requires !Contains(s, pat)
    ensures !Contains(s[k..], pat)
  {
    if Contains(s[k..], pat) {
      ContainsSuffix(s, k, pat);
    }
  }

  /** A string that differs from `pat` at position `k` does not start with `pat`. */
  lemma NotPrefixAt(s: string, pat: string, k: nat)
    requires k < |pat|
    requires k < |s| ==> s[k] != pat[k]
    ensures !StartsWith(s, pat)
  {
    if |pat| <= |s| {
      assert s[..|pat|][k] == s[k];
    }
  }

  /** A string holding `u + v` holds `v`. */
  lemma {:induction false} ContainsTail(s: string, u: string, v: string)
    requires Contains(s, u + v)
    ensures Contains(s, v)
    decreases |s|
  {
    if StartsWith(s, u + v) {
      assert s[|u|..][..|v|] == (u + v)[|u|..];
      assert StartsWith(s[|u|..], v);
      StartsWithContains(s[|u|..], v);
      ContainsSuffix(s, |u|, v);
    } else {
      ContainsTail(s[1..], u, v);
      ContainsSuffix(s, 1, v);
    }
  }

  lemma StartsWithContains(s: string, pat: string)
    requires StartsWith(s, pat)
    ensures Contains(s, pat)
  {
  }

  // ---------------------------------------------------------------------
  // split / join with a one-character separator

  /** Python's `s.split(sep)`: always at least one part, empty parts kept. */
  function Split(s: string, sep: char): (parts: seq<string>)
    ensures |parts| >= 1
    decreases |s|
  {
    if s == [] then [[]]
    else
      var rest := Split(s[1..], sep);
      if s[0] == sep then [[]] + rest
      else [[s[0]] + rest[0]] + rest[1..]
  }

  /** Python's `sep.join(parts)`. */
  function Join(parts: seq<string>, sep: char): string
    decreases |parts|
  {
    if parts == [] then []
    else if |parts| == 1 then parts[0]
    else parts[0] + [sep] + Join(parts[1..], sep)
  }

  predicate Free(s: string, c: char) {
    forall i :: 0 <= i < |s| ==> s[i] != c
  }

  /** No part produced by Split holds the separator. */
  lemma {:induction false} SplitPartsFree(s: string, sep: char)
    ensures forall i :: 0 <= i < |Split(s, sep)| ==> Free(Split(s, sep)[i], sep)
    decreases |s|
  {
    if s != [] {
      SplitPartsFree(s[1..], sep);
    }
  }

  /** Joining the parts of a split gives the string back. */
  lemma {:induction false} JoinSplit(s: string, sep: char)
    ensures Join(Split(s, sep), sep) == s
    decreases |s|
  {
    if s != [] {
      var rest := Split(s[1..], sep);
      JoinSplit(s[1..], sep);
      if s[0] == sep {
        assert Split(s, sep) == [[]] + rest;
        JoinEmptyHead(rest, sep);
      } else {
        assert Split(s, sep) == [[s[0]] + rest[0]] + rest[1..];
        JoinExtendedHead(s[0], rest, sep);
      }
      assert s == [s[0]] + s[1..];
    }
  }

  lemma JoinEmptyHead(parts: seq<string>, sep: char)
    requires |parts| >= 1
    ensures Join([[]] + parts, sep) == [sep] + Join(parts, sep)
  {
    assert ([[]] + parts)[1..] == parts;
  }

  /** Putting a character before the first part puts it before the join. */
  lemma JoinExtendedHead(c: char, parts: seq<string>, sep: char)
    requires |parts| >= 1
    ensures Join([[c] + parts[0]] + parts[1..], sep) == [c] + Join(parts, sep)
  {
    var ext := [[c] + parts[0]] + parts[1..];
    if |parts| > 1 {
      assert ext[1..] == parts[1..];
      assert Join(ext, sep) == ([c] + parts[0]) + [sep] + Join(parts[1..], sep);
      assert Join(parts, sep) == parts[0] + [sep] + Join(parts[1..], sep);
    }
  }

  /** Splitting a join of separator-free parts gives the parts back. */
  lemma {:induction false} SplitJoin(parts: seq<string>, sep: char)
    requires |parts| >= 1
    requires forall i :: 0 <= i < |parts| ==> Free(parts[i], sep)
    ensures Split(Join(parts, sep), sep) == parts
    decreases |parts|
  {
    if |parts| == 1 {
      SplitFree(parts[0], sep);
    } else {
      SplitJoin(parts[1..], sep);
      SplitAfterFree(parts[0], Join(parts[1..], sep), sep);
      assert Join(parts, sep) == parts[0] + ([sep] + Join(parts[1..], sep));
      assert parts == [parts[0]] + parts[1..];
    }
  }

  lemma {:induction false} SplitFree(s: string, sep: char)
    requires Free(s, sep)
    ensures Split(s, sep) == [s]
    decreases |s|
  {
    if s != [] {
      SplitFree(s[1..], sep);
      assert s == [s[0]] + s[1..];
    }
  }

  /** A separator-free head becomes the first part; what follows its separator splits on. */
  lemma {:induction false} SplitAfterFree(w: string, t: string, sep: char)
    requires Free(w, sep)
    ensures Split(w + ([sep] + t), sep) == [w] + Split(t, sep)
    decreases |w|
  {
    var s := w + ([sep] + t);
    if w == [] {
      assert s == [sep] + t;
      assert s[1..] == t;
    } else {
      assert s[0] == w[0];
      assert s[1..] == w[1..] + ([sep] + t);
      SplitAfterFree(w[1..], t, sep);
      assert w == [w[0]] + w[1..];
    }
  }

  // ---------------------------------------------------------------------
  // int() and str() on decimal integers

  predicate IsDigit(c: char) {
    '0' <= c <= '9'
  }

  predicate AllDigits(s: string) {
    forall i :: 0 <= i < |s| ==> IsDigit(s[i])
  }

  function DigitValue(c: char): nat
    requires IsDigit(c)
  {
    c as int - '0' as int
  }

  function DigitChar(d: nat): char
    requires d < 10
  {
    ('0' as int + d) as char
  }

  /** The value of a string of decimal digits, most significant first. */
  function DigitsValue(s: string): nat
    requires AllDigits(s)
    decreases |s|
  {
    if s == [] then 0 else DigitsValue(s[..|s| - 1]) * 10 + DigitValue(s[|s| - 1])
  }

  /** `str(n)` for a natural number: no leading zeros. */
  function NatToString(n: nat): (s: string)
    ensures s != [] && AllDigits(s)
    decreases n
  {
    if n < 10 then [DigitChar(n)] else NatToString(n / 10) + [DigitChar(n % 10)]
  }

  /** Python's `str(n)`. */
  function IntToString(n: int): string {
    if n < 0 then "-" + NatToString(-n) else NatToString(n)
  }

  /**
    Python's `int(s)` on an optionally signed run of ASCII digits; any other
    text is a `ValueError`, modelled as `None`.
   */
  function ParseInt(s: string): (r: Option<int>)
  {
    if s != [] && (s[0] == '+' || s[0] == '-') then
      var ds := s[1..];
      if ds != [] && AllDigits(ds) then
        var v := DigitsValue(ds) as int;
        Some(if s[0] == '-' then 0 - v else v)
      else None
    else if s != [] && AllDigits(s) then Some(DigitsValue(s))
    else None
  }

  lemma {:induction false} NatToStringValue(n: nat)
    ensures DigitsValue(NatToString(n)) == n
    decreases n
  {
    if n >= 10 {
      NatToStringValue(n / 10);
      var s := NatToString(n);
      assert s[..|s| - 1] == NatToString(n / 10);
    }
  }

  /** `int(str(n)) == n`. */
  lemma IntToStringRoundTrip(n: int)
    ensures ParseInt(IntToString(n)) == Some(n)
  {
    NatToStringValue(if n < 0 then -n else n);
    if n < 0 {
      assert ("-" + NatToString(-n))[1..] == NatToString(-n);
    }
  }
}
