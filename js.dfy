/**
 * The few JavaScript built-ins the application's logic leans on, with the
 * semantics of the ECMAScript standard: `String.prototype.substring` with a
 * start of 0, `String.prototype.trim`, `Array.prototype.slice` with one
 * argument, and `Math.min`.
 */
module Js {

  function Min(a: int, b: int): (r: int)
    ensures r <= a && r <= b
    ensures r == a || r == b
  {
    if a <= b then a else b
  }

  /** `s.substring(0, n)` for a non-negative `n`: the first `n` characters, or all of `s`. */
  function Prefix(s: string, n: nat): (r: string)
    ensures r <= s
    ensures |r| == Min(|s|, n)
  {
    if |s| <= n then s else s[..n]
  }

  /** `a.slice(start)`: a negative start counts from the end and is clamped at 0, a start past the end gives []. */
  function SliceFrom<T>(a: seq<T>, start: int): (r: seq<T>)
    ensures |r| <= |a|
    ensures r == a[|a| - |r|..]
  {
    var k := if start < 0 then (if |a| + start < 0 then 0 else |a| + start)
             else (if start < |a| then start else |a|);
    a[k..]
  }

  /** `a.slice(-n)` is the last `min(n, |a|)` elements, in their original order. */
  lemma SliceFromEnd<T>(a: seq<T>, n: int)
    requires 0 < n
    ensures SliceFrom(a, -n) == a[|a| - Min(n, |a|)..]
  {
  }

  /** The characters `trim` removes: WhiteSpace and LineTerminator of the ECMAScript grammar (Zs included). */
  predicate IsSpace(c: char)
  {
    || c in {'\t', '\n', '\U{000B}', '\U{000C}', '\r', ' ', '\U{00A0}', '\U{1680}',
             '\U{2028}', '\U{2029}', '\U{202F}', '\U{205F}', '\U{3000}', '\U{FEFF}'}
    || '\U{2000}' <= c <= '\U{200A}'
  }

  /** Every character of `s` is white space (the empty string included). */
  predicate Blank(s: string)
  {
    forall i | 0 <= i < |s| :: IsSpace(s[i])
  }

  function TrimStart(s: string): (r: string)
    ensures |r| <= |s| && r == s[|s| - |r|..]
    ensures Blank(s[..|s| - |r|])
    ensures r == [] || !IsSpace(r[0])
  {
    if |s| > 0 && IsSpace(s[0]) then
      var r := TrimStart(s[1..]);
      assert s[..|s| - |r|] == [s[0]] + s[1..][..|s| - 1 - |r|];
      r
    else s
  }

  function TrimEnd(s: string): (r: string)
    ensures |r| <= |s| && r == s[..|r|]
    ensures Blank(s[|r|..])
    ensures r == [] || !IsSpace(r[|r| - 1])
  {
    if |s| > 0 && IsSpace(s[|s| - 1]) then
      var r := TrimEnd(s[..|s| - 1]);
      assert s[|r|..] == s[..|s| - 1][|r|..] + [s[|s| - 1]];
      r
    else s
  }

  /**
   * `s.trim()`: the middle of `s` with the white space at both ends cut
   * off; what is cut off is all white space and what is kept neither starts
   * nor ends with it.
   */
  function Trim(s: string): (r: string)
    ensures |r| <= |s|
    ensures exists i | 0 <= i <= |s| - |r| :: r == s[i..i + |r|] && Blank(s[..i]) && Blank(s[i + |r|..])
    ensures r == [] || (!IsSpace(r[0]) && !IsSpace(r[|r| - 1]))
  {
    var t := TrimStart(s);
    var r := TrimEnd(t);
    TrimPieces(s, t, r);
    r
  }

  /** Cutting a suffix `t` of `s` down to a prefix `r` of `t` leaves the infix of `s` that starts where `t` does. */
  lemma TrimPieces(s: string, t: string, r: string)
    requires |t| <= |s| && t == s[|s| - |t|..]
    requires |r| <= |t| && r == t[..|r|]
    ensures r == s[|s| - |t|..|s| - |t| + |r|]
    ensures s[|s| - |t| + |r|..] == t[|r|..]
  {
  }

  /** `!s.trim()` (the trimmed string is empty, hence falsy) holds exactly when `s` is all white space. */
  lemma {:induction false} TrimEmptyIffBlank(s: string)
    ensures Trim(s) == "" <==> Blank(s)
  {
    var t := TrimStart(s);
    assert s == s[..|s| - |t|] + t;
    BlankConcat(s[..|s| - |t|], t);
    assert TrimEnd(t) == "" ==> t == t[0..];
  }

  lemma BlankConcat(a: string, b: string)
    ensures Blank(a + b) <==> Blank(a) && Blank(b)
  {
    if Blank(a) && Blank(b) {
      forall k | 0 <= k < |a + b| ensures IsSpace((a + b)[k]) {
        if k >= |a| { assert (a + b)[k] == b[k - |a|]; }
      }
    }
    if Blank(a + b) {
      forall k | 0 <= k < |a| ensures IsSpace(a[k]) {
        assert a[k] == (a + b)[k];
      }
      forall k | 0 <= k < |b| ensures IsSpace(b[k]) {
        assert b[k] == (a + b)[k + |a|];
      }
    }
  }

}
