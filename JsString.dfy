/**
 The three JavaScript string built-ins the path resolver relies on, with the
 semantics ECMAScript gives them for the arguments used here (integer
 positions, a one-character search string). Positions are counted in
 characters, not in UTF-16 code units as JavaScript counts them; the two
 agree on strings within the Basic Multilingual Plane.
 - String.prototype.indexOf: the first position of a character, or -1;
 - String.prototype.substring: both positions clamped to [0, length], then
   swapped when the start lies after the end;
 - String.prototype.replaceAll with a one-character pattern.
 */
module JsString {

  /** Clamps a position into [0, len], as substring does with each argument. */
  function Clamp(x: int, len: nat): nat
  {
    if x < 0 then 0 else if x > len then len else x
  }

  function Min(a: nat, b: nat): nat { if a <= b then a else b }

  function Max(a: nat, b: nat): nat { if a <= b then b else a }

  /** `r` is the run of `s` that starts at position `k`. */
  predicate SliceAt(s: string, k: nat, r: string)
  {
    k + |r| <= |s| && r == s[k..k + |r|]
  }

  /** `s.indexOf(c)`: the first index holding `c`, or -1 when there is none. */
  function IndexOf(s: string, c: char): (r: int)
    ensures -1 <= r < |s|
    ensures r == -1 <==> c !in s
    ensures 0 <= r ==> s[r] == c && c !in s[..r]
  {
    if |s| == 0 then -1
    else if s[0] == c then 0
    else
      var k := IndexOf(s[1..], c);
      if k == -1 then -1 else k + 1
  }

  /** `s.substring(start, end)`: the characters between the clamped positions,
      taken in whichever order puts the smaller one first. */
  function JsSubstring(s: string, start: int, end: int): (r: string)
    ensures |r| <= |s|
    ensures exists k :: SliceAt(s, k, r)
  {
    var a, b := Clamp(start, |s|), Clamp(end, |s|);
    var lo, hi := Min(a, b), Max(a, b);
    assert SliceAt(s, lo, s[lo..hi]);
    s[lo..hi]
  }

  /** Inside the string with start <= end, substring is plain slicing. */
  lemma JsSubstringInRange(s: string, start: int, end: int)
    requires 0 <= start <= end <= |s|
    ensures JsSubstring(s, start, end) == s[start..end]
  {
  }

  /** The arguments are interchangeable: substring swaps them when start > end. */
  lemma JsSubstringSwaps(s: string, start: int, end: int)
    ensures JsSubstring(s, start, end) == JsSubstring(s, end, start)
  {
  }

  /** A negative argument behaves as 0. */
  lemma JsSubstringNegativeIsZero(s: string, start: int, end: int)
    requires start < 0
    ensures JsSubstring(s, start, end) == JsSubstring(s, 0, end)
    ensures JsSubstring(s, end, start) == JsSubstring(s, end, 0)
  {
  }

  /** An argument past the end behaves as the length. */
  lemma JsSubstringBeyondIsLength(s: string, start: int, end: int)
    requires end > |s|
    ensures JsSubstring(s, start, end) == JsSubstring(s, start, |s|)
    ensures JsSubstring(s, end, start) == JsSubstring(s, |s|, start)
  {
  }

  /** `s.replaceAll(from, to)` for one-character `from` and `to`. */
  function ReplaceChar(s: string, from: char, to: char): (r: string)
    ensures |r| == |s|
    ensures forall i :: 0 <= i < |s| ==> r[i] == (if s[i] == from then to else s[i])
    ensures from != to ==> from !in r
  {
    if |s| == 0 then ""
    else [if s[0] == from then to else s[0]] + ReplaceChar(s[1..], from, to)
  }

  /** Replacing a character that does not occur changes nothing. */
  lemma {:induction false} ReplaceCharAbsent(s: string, from: char, to: char)
    requires from !in s
    ensures ReplaceChar(s, from, to) == s
  {
    if |s| > 0 {
      assert from !in s[1..];
      ReplaceCharAbsent(s[1..], from, to);
    }
  }

  /** replaceAll is idempotent: the second pass finds nothing left to replace. */
  lemma ReplaceCharIdempotent(s: string, from: char, to: char)
    requires from != to
    ensures ReplaceChar(ReplaceChar(s, from, to), from, to) == ReplaceChar(s, from, to)
  {
    ReplaceCharAbsent(ReplaceChar(s, from, to), from, to);
  }

  /** `"sub\\Util".replaceAll("\\", "/")` is `"sub/Util"`. */
  lemma ReplaceCharExample(s: string)
    requires s == "sub\\Util"
    ensures ReplaceChar(s, '\\', '/') == "sub/Util"
  {
  }
}
