/**
 * String helpers with the semantics of the JavaScript built-ins the source
 * relies on: `String.prototype.trim`, `Array.prototype.join`,
 * `String.prototype.split` with a one-character separator, `startsWith`,
 * decimal rendering of integers and ASCII upper-casing.
 */
module Text {
  import opened Wrappers

  /** The characters `trim` removes: ECMAScript WhiteSpace and LineTerminator. */
  predicate IsSpace(c: char) {
    || c == '\U{0009}' || c == '\U{000A}' || c == '\U{000B}' || c == '\U{000C}'
    || c == '\U{000D}' || c == ' ' || c == '\U{00A0}' || c == '\U{1680}'
    || ('\U{2000}' <= c <= '\U{200A}')
    || c == '\U{2028}' || c == '\U{2029}' || c == '\U{202F}' || c == '\U{205F}'
    || c == '\U{3000}' || c == '\U{FEFF}'
  }

  /** Every character of `s` is white space (the empty string included). */
  predicate Blank(s: string) {
    forall i :: 0 <= i < |s| ==> IsSpace(s[i])
  }

  /** Neither end of `s` is white space. */
  predicate Trimmed(s: string) {
    s == [] || (!IsSpace(s[0]) && !IsSpace(s[|s| - 1]))
  }

  function TrimStart(s: string): (r: string)
    ensures |r| <= |s| && r == s[|s| - |r|..]
    ensures r == [] || !IsSpace(r[0])
    ensures Blank(s[..|s| - |r|])
  {
    if s != [] && IsSpace(s[0]) then TrimStart(s[1..]) else s
  }

  function TrimEnd(s: string): (r: string)
    ensures |r| <= |s| && r == s[..|r|]
    ensures r == [] || !IsSpace(r[|r| - 1])
    ensures Blank(s[|r|..])
  {
    if s != [] && IsSpace(s[|s| - 1]) then TrimEnd(s[..|s| - 1]) else s
  }

  /** `r` sits in `s` at index `i`, with only white space before and after it. */
  predicate Padded(s: string, i: nat, r: string) {
    && i + |r| <= |s| && r == s[i..i + |r|]
    && Blank(s[..i]) && Blank(s[i + |r|..])
  }

  /**
   * `s.trim()`: the text of `s` between its leading and its trailing white
   * space. `|s| - |TrimStart(s)|` is where that text starts.
   */
  function Trim(s: string): (r: string)
    ensures Trimmed(r)
    ensures |r| <= |s|
    ensures r == [] <==> Blank(s)
    ensures Padded(s, |s| - |TrimStart(s)|, r)
  {
    var a := TrimStart(s);
    var r := TrimEnd(a);
    PaddedSlice(s, a, r);
    r
  }

  /**
   * A suffix `a` of `s` after white space, and a prefix `r` of `a` before
   * white space: `r` is the slice of `s` between the two runs of white space.
   */
  lemma PaddedSlice(s: string, a: string, r: string)
    requires |a| <= |s| && a == s[|s| - |a|..] && Blank(s[..|s| - |a|])
    requires a == [] || !IsSpace(a[0])
    requires |r| <= |a| && r == a[..|r|] && Blank(a[|r|..])
    requires r == [] || !IsSpace(r[|r| - 1])
    ensures Padded(s, |s| - |a|, r)
    ensures Trimmed(r) && (r == [] <==> Blank(s))
  {
    var i := |s| - |a|;
    assert a[|r|..] == s[i + |r|..];
    if r != [] {
      assert r[0] == a[0] == s[i];
    } else {
      assert a[|r|..] == a;
      assert s[..i] == s;
    }
  }

  lemma {:induction false} TrimStartPadded(p: string, u: string)
    requires Blank(p) && (u == [] || !IsSpace(u[0]))
    ensures TrimStart(p + u) == u
  {
    if p != [] {
      assert (p + u)[0] == p[0];
      assert (p + u)[1..] == p[1..] + u;
      TrimStartPadded(p[1..], u);
    } else {
      assert p + u == u;
    }
  }

  lemma {:induction false} TrimEndPadded(u: string, q: string)
    requires Blank(q) && (u == [] || !IsSpace(u[|u| - 1]))
    ensures TrimEnd(u + q) == u
  {
    if q != [] {
      var s := u + q;
      assert s[|s| - 1] == q[|q| - 1];
      assert s[..|s| - 1] == u + q[..|q| - 1];
      TrimEndPadded(u, q[..|q| - 1]);
    } else {
      assert u + q == u;
    }
  }

  /**
   * Trimming removes exactly the white space around a text: a trimmed text
   * padded with white space on both sides comes back unchanged.
   */
  lemma {:induction false} TrimOfPadded(p: string, t: string, q: string)
    requires Blank(p) && Blank(q) && Trimmed(t)
    ensures Trim(p + t + q) == t
  {
    if t == [] {
      assert p + t + q == p + q;
      assert Blank(p + q) by {
        forall k | 0 <= k < |p + q| ensures IsSpace((p + q)[k]) {
          if k < |p| {
            assert (p + q)[k] == p[k];
          } else {
            assert (p + q)[k] == q[k - |p|];
          }
        }
      }
    } else {
      assert p + t + q == p + (t + q);
      TrimStartPadded(p, t + q);
      TrimEndPadded(t, q);
    }
  }

  /**
   * The transform every optional text field of the intake schemas applies:
   * `val?.trim() ? val.trim() : undefined`. An all-white-space value becomes
   * absent, never the empty string.
   */
  function TrimToAbsent(s: string): (r: Option<string>)
    ensures r.None? <==> Blank(s)
    ensures r.Some? ==> r.value != "" && Trimmed(r.value) && |r.value| <= |s|
    ensures r.Some? ==> r.value == Trim(s)
  {
    var t := Trim(s);
    if t == "" then None else Some(t)
  }

  /** A non-empty trimmed text padded with white space is kept as exactly that text. */
  lemma TrimToAbsentOfPadded(p: string, t: string, q: string)
    requires Blank(p) && Blank(q) && Trimmed(t) && t != ""
    ensures TrimToAbsent(p + t + q) == Some(t)
  {
    TrimOfPadded(p, t, q);
  }

  lemma {:induction false} TrimStartOfTrimmed(s: string)
    requires Trimmed(s)
    ensures TrimStart(s) == s
  {
  }

  lemma {:induction false} TrimEndOfTrimmed(s: string)
    requires Trimmed(s)
    ensures TrimEnd(s) == s
  {
  }

  /** Trimming is idempotent, so a normalised value survives a second pass unchanged. */
  lemma TrimToAbsentIdempotent(s: string)
    requires TrimToAbsent(s).Some?
    ensures TrimToAbsent(TrimToAbsent(s).value) == TrimToAbsent(s)
  {
    var t := TrimToAbsent(s).value;
    TrimStartOfTrimmed(t);
    TrimEndOfTrimmed(t);
  }

  /** `xs.join(sep)`. */
  function Join(xs: seq<string>, sep: string): string
  {
    if |xs| == 0 then ""
    else if |xs| == 1 then xs[0]
    else xs[0] + sep + Join(xs[1..], sep)
  }

  /** `s.split(c)` for a one-character separator: the pieces between separators. */
  function SplitOn(s: string, c: char): (r: seq<string>)
    ensures |r| >= 1
    ensures forall i :: 0 <= i < |r| ==> c !in r[i]
  {
    if s == [] then [""]
    else
      var rest := SplitOn(s[1..], c);
      if s[0] == c then [""] + rest
      else [[s[0]] + rest[0]] + rest[1..]
  }

  /** Splitting and joining on the same separator gives the string back. */
  lemma {:induction false} JoinSplit(s: string, c: char)
    ensures Join(SplitOn(s, c), [c]) == s
  {
    if s != [] {
      var rest := SplitOn(s[1..], c);
      JoinSplit(s[1..], c);
      if s[0] == c {
        assert SplitOn(s, c)[1..] == rest;
      } else if |rest| > 1 {
        var xs := SplitOn(s, c);
        assert xs[1..] == rest[1..];
        assert Join(rest, [c]) == rest[0] + [c] + Join(rest[1..], [c]);
      }
    }
  }

  lemma {:induction false} SplitPrefix(w: string, t: string, c: char)
    requires c !in w
    ensures SplitOn(w + t, c) == [w + SplitOn(t, c)[0]] + SplitOn(t, c)[1..]
  {
    if w != [] {
      SplitPrefix(w[1..], t, c);
      var st := SplitOn(t, c);
      var rest := SplitOn(w[1..] + t, c);
      assert (w + t)[0] == w[0] && w[0] != c;
      assert (w + t)[1..] == w[1..] + t;
      assert SplitOn(w + t, c) == [[w[0]] + rest[0]] + rest[1..];
      assert rest[0] == w[1..] + st[0] && rest[1..] == st[1..];
      assert [w[0]] + (w[1..] + st[0]) == w + st[0];
    } else {
      var st := SplitOn(t, c);
      assert w + t == t && w + st[0] == st[0];
      assert [st[0]] + st[1..] == st;
    }
  }

  /** Joining pieces free of the separator and splitting again gives the pieces back. */
  lemma {:induction false} SplitJoin(xs: seq<string>, c: char)
    requires |xs| >= 1
    requires forall i :: 0 <= i < |xs| ==> c !in xs[i]
    ensures SplitOn(Join(xs, [c]), c) == xs
  {
    if |xs| == 1 {
      SplitPrefix(xs[0], "", c);
      assert xs[0] + "" == xs[0];
    } else {
      var tail := Join(xs[1..], [c]);
      SplitJoin(xs[1..], c);
      SplitPrefix(xs[0], [c] + tail, c);
      assert xs[0] + [c] + tail == xs[0] + ([c] + tail);
      assert ([c] + tail)[1..] == tail;
      assert SplitOn([c] + tail, c) == [""] + SplitOn(tail, c);
      assert xs[0] + "" == xs[0];
    }
  }

  /** `t` occurs in `s` as a contiguous piece. */
  ghost predicate IsInfix(t: string, s: string) {
    exists i :: OccursAt(t, s, i)
  }

  /** `t` occurs in `s` starting at index `i`. */
  predicate OccursAt(t: string, s: string, i: int) {
    0 <= i <= |s| - |t| && s[i..i + |t|] == t
  }

  /** Every piece of a join occurs verbatim in the joined text. */
  lemma {:induction false} JoinContains(xs: seq<string>, sep: string, k: nat)
    requires k < |xs|
    ensures IsInfix(xs[k], Join(xs, sep))
  {
    var j := Join(xs, sep);
    if |xs| == 1 {
      assert OccursAt(xs[0], j, 0);
    } else if k == 0 {
      assert j[0..|xs[0]|] == xs[0];
      assert OccursAt(xs[0], j, 0);
    } else {
      JoinContains(xs[1..], sep, k - 1);
      var rest := Join(xs[1..], sep);
      var i :| OccursAt(xs[k], rest, i);
      var off := |xs[0]| + |sep|;
      assert j == xs[0] + sep + rest;
      assert j[off + i..off + i + |xs[k]|] == rest[i..i + |xs[k]|];
      assert OccursAt(xs[k], j, off + i);
    }
  }

  /** A piece of the middle text is a piece of the text around it. */
  lemma InfixOfMiddle(t: string, a: string, b: string, c: string)
    requires IsInfix(t, b)
    ensures IsInfix(t, a + b + c)
  {
    var k :| OccursAt(t, b, k);
    var s := a + b + c;
    assert s[|a| + k..|a| + k + |t|] == b[k..k + |t|];
    assert OccursAt(t, s, |a| + k);
  }

  /** `s.startsWith(p)`. */
  predicate StartsWith(s: string, p: string) {
    |p| <= |s| && s[..|p|] == p
  }

  /** Decimal rendering of a natural number, as template literals print it. */
  function NatToString(n: nat): (r: string)
    ensures |r| >= 1
    ensures forall i :: 0 <= i < |r| ==> '0' <= r[i] <= '9'
    ensures n >= 10 <==> |r| > 1
    decreases n
  {
    if n < 10 then [Digit(n)] else NatToString(n / 10) + [Digit(n % 10)]
  }

  function Digit(d: nat): (c: char)
    requires d < 10
    ensures '0' <= c <= '9'
  {
    "0123456789"[d]
  }

  /** Distinct numbers render differently. */
  lemma {:induction false} NatToStringInjective(m: nat, n: nat)
    requires NatToString(m) == NatToString(n)
    ensures m == n
    decreases m
  {
    var s := NatToString(m);
    if m >= 10 {
      assert n >= 10;
      assert NatToString(m / 10) == s[..|s| - 1] == NatToString(n / 10);
      NatToStringInjective(m / 10, n / 10);
      assert "0123456789"[m % 10] == s[|s| - 1] == "0123456789"[n % 10];
    } else {
      assert n < 10;
      assert "0123456789"[m] == s[0] == "0123456789"[n];
    }
  }

  function IntToString(n: int): string
  {
    if n < 0 then "-" + NatToString(-n) else NatToString(n)
  }

  /** `toUpperCase` restricted to the ASCII letters: each of a–z becomes its capital, all else is kept. */
  function UpperAscii(s: string): (r: string)
    ensures |r| == |s|
    ensures forall i :: 0 <= i < |s| ==> !('a' <= r[i] <= 'z')
    ensures forall i :: 0 <= i < |s| && 'a' <= s[i] <= 'z' ==>
              'A' <= r[i] <= 'Z' && r[i] as int - 'A' as int == s[i] as int - 'a' as int
    ensures forall i :: 0 <= i < |s| && !('a' <= s[i] <= 'z') ==> r[i] == s[i]
  {
    seq(|s|, i requires 0 <= i < |s| =>
      if 'a' <= s[i] <= 'z' then (s[i] as int - 32) as char else s[i])
  }
}
