/** The JavaScript string built-ins the core relies on:
    `String.prototype.trim` (also applied by Mongoose's `trim: true`) and
    `String.prototype.toUpperCase`. */
module Strings {

  /** A code point that `trim` removes: ECMAScript's WhiteSpace and
      LineTerminator characters. */
  predicate IsWhitespace(c: char) {
    var n := c as int;
    n == 0x09 || n == 0x0A || n == 0x0B || n == 0x0C || n == 0x0D
    || n == 0x20 || n == 0xA0 || n == 0x1680 || (0x2000 <= n <= 0x200A)
    || n == 0x2028 || n == 0x2029 || n == 0x202F || n == 0x205F
    || n == 0x3000 || n == 0xFEFF
  }

  /** True when every character of `s` is whitespace (so `s.trim()` is empty). */
  predicate Blank(s: string) {
    forall k :: 0 <= k < |s| ==> IsWhitespace(s[k])
  }

  /** The length of the run of whitespace that starts `s`. */
  function LeadingSpace(s: string): (n: nat)
    ensures n <= |s|
    ensures forall k :: 0 <= k < n ==> IsWhitespace(s[k])
    ensures n < |s| ==> !IsWhitespace(s[n])
  {
    if s == [] || !IsWhitespace(s[0]) then 0 else 1 + LeadingSpace(s[1..])
  }

  /** The length of the run of whitespace that ends `s`. */
  function TrailingSpace(s: string): (n: nat)
    ensures n <= |s|
    ensures forall k :: |s| - n <= k < |s| ==> IsWhitespace(s[k])
    ensures n < |s| ==> !IsWhitespace(s[|s| - 1 - n])
  {
    if s == [] || !IsWhitespace(s[|s| - 1]) then 0 else 1 + TrailingSpace(s[..|s| - 1])
  }

  /** `s.trim()`: `s` with the whitespace runs at both ends cut. It is empty
      exactly when `s` is blank, it neither starts nor ends with whitespace,
      and a string that does neither is its own trim. */
  function Trim(s: string): (r: string)
    ensures |r| <= |s|
    ensures r == [] <==> Blank(s)
    ensures r != [] ==> !IsWhitespace(r[0]) && !IsWhitespace(r[|r| - 1])
    ensures s == [] || (!IsWhitespace(s[0]) && !IsWhitespace(s[|s| - 1])) ==> r == s
  {
    var a := LeadingSpace(s);
    var b := TrailingSpace(s[a..]);
    s[a..|s| - b]
  }

  /** What `trim` cuts away is whitespace: the trim is the part of `s`
      between a blank prefix and a blank suffix. */
  lemma TrimFatia(s: string)
    ensures exists a, b :: 0 <= a <= b <= |s| && Trim(s) == s[a..b] && Blank(s[..a]) && Blank(s[b..])
  {
    var a := LeadingSpace(s);
    var b := TrailingSpace(s[a..]);
    assert Blank(s[..a]) && Blank(s[|s| - b..]);
    assert Trim(s) == s[a..|s| - b];
  }

  /** JavaScript's `length`: the number of UTF-16 code units, two for a
      character outside the Basic Multilingual Plane and one otherwise. */
  function Utf16Len(s: string): (n: nat)
    ensures |s| <= n <= 2 * |s|
  {
    if s == [] then 0 else Utf16Len(s[..|s| - 1]) + (if (s[|s| - 1] as int) < 0x1_0000 then 1 else 2)
  }

  /** The length counts characters exactly when every character lies in the
      Basic Multilingual Plane. */
  lemma {:induction false} Utf16LenBmp(s: string)
    ensures Utf16Len(s) == |s| <==> forall k :: 0 <= k < |s| ==> (s[k] as int) < 0x1_0000
  {
    if s != [] {
      var p := s[..|s| - 1];
      assert forall k :: 0 <= k < |p| ==> p[k] == s[k];
      Utf16LenBmp(p);
    }
  }

  /** A string made only of characters outside the Basic Multilingual Plane
      has twice as many code units as characters. */
  lemma {:induction false} Utf16LenAstral(s: string)
    requires forall k :: 0 <= k < |s| ==> (s[k] as int) >= 0x1_0000
    ensures Utf16Len(s) == 2 * |s|
  {
    if s != [] {
      var p := s[..|s| - 1];
      assert forall k :: 0 <= k < |p| ==> p[k] == s[k];
      Utf16LenAstral(p);
    }
  }

  /** The length of two strings laid end to end is the sum of their lengths. */
  lemma {:induction false} Utf16LenConcatenado(a: string, b: string)
    ensures Utf16Len(a + b) == Utf16Len(a) + Utf16Len(b)
  {
    if b != [] {
      var b' := b[..|b| - 1];
      assert (a + b)[..|a + b| - 1] == a + b';
      assert (a + b)[|a + b| - 1] == b[|b| - 1];
      Utf16LenConcatenado(a, b');
    } else {
      assert a + b == a;
    }
  }

  /** `toUpperCase` on one character; only the ASCII letters are mapped. */
  function UpperChar(c: char): (u: char)
    ensures 'a' <= c <= 'z' ==> 'A' <= u <= 'Z' && u as int == c as int - 32
    ensures !('a' <= c <= 'z') ==> u == c
  {
    if 'a' <= c <= 'z' then (c as int - 32) as char else c
  }

  function ToUpper(s: string): (r: string)
    ensures |r| == |s|
    ensures forall k :: 0 <= k < |s| ==> r[k] == UpperChar(s[k])
  {
    seq(|s|, k requires 0 <= k < |s| => UpperChar(s[k]))
  }
}
