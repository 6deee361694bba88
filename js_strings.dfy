/**
 * The two JavaScript string operations chain normalisation uses:
 * `String.prototype.trim` and `String.prototype.toLowerCase`.
 */
module JsStrings {

  /** The characters `trim` removes: ECMAScript WhiteSpace and LineTerminator. */
  predicate IsWhitespace(c: char)
  {
    var u := c as int;
    || 0x9 <= u <= 0xD            // tab, line feed, vertical tab, form feed, carriage return
    || u == 0x20 || u == 0xA0     // space, no-break space
    || u == 0x1680
    || 0x2000 <= u <= 0x200A      // the en quad to hair space block
    || u == 0x2028 || u == 0x2029 // line and paragraph separators
    || u == 0x202F || u == 0x205F || u == 0x3000
    || u == 0xFEFF                // byte order mark
  }

  /** The number of leading whitespace characters. */
  function LeadingWhitespace(s: string): (k: nat)
    ensures k <= |s|
    ensures forall i :: 0 <= i < k ==> IsWhitespace(s[i])
    ensures k < |s| ==> !IsWhitespace(s[k])
  {
    if s == [] || !IsWhitespace(s[0]) then 0 else 1 + LeadingWhitespace(s[1..])
  }

  /** The number of trailing whitespace characters. */
  function TrailingWhitespace(s: string): (k: nat)
    ensures k <= |s|
    ensures forall i :: |s| - k <= i < |s| ==> IsWhitespace(s[i])
    ensures k < |s| ==> !IsWhitespace(s[|s| - 1 - k])
  {
    if s == [] || !IsWhitespace(s[|s| - 1]) then 0 else 1 + TrailingWhitespace(s[..|s| - 1])
  }

  /** `s.trim()`: `s` without its leading and trailing whitespace. */
  function Trim(s: string): (r: string)
    ensures |r| <= |s|
    ensures r != [] ==> !IsWhitespace(r[0]) && !IsWhitespace(r[|r| - 1])
    ensures exists i, j :: 0 <= i <= j <= |s| && r == s[i..j]
              && (forall k :: 0 <= k < i ==> IsWhitespace(s[k]))
              && (forall k :: j <= k < |s| ==> IsWhitespace(s[k]))
  {
    var t := s[LeadingWhitespace(s)..];
    var n := TrailingWhitespace(t);
    var r := t[..|t| - n];
    assert r == s[LeadingWhitespace(s)..LeadingWhitespace(s) + |r|];
    r
  }

  /** A string with no whitespace at either end is its own trim. */
  lemma TrimOfTrimmed(s: string)
    requires s != [] ==> !IsWhitespace(s[0]) && !IsWhitespace(s[|s| - 1])
    ensures Trim(s) == s
  {
    assert LeadingWhitespace(s) == 0;
    assert s[0..] == s;
    assert TrailingWhitespace(s) == 0;
  }

  /** `toLowerCase` on one character (ASCII letters only). */
  function LowerChar(c: char): char
  {
    if 'A' <= c <= 'Z' then (c as int - 'A' as int + 'a' as int) as char else c
  }

  /** `s.toLowerCase()`. */
  function ToLowerCase(s: string): (r: string)
    ensures |r| == |s|
    ensures forall i :: 0 <= i < |s| ==> r[i] == LowerChar(s[i])
  {
    if s == [] then [] else [LowerChar(s[0])] + ToLowerCase(s[1..])
  }

  /** Lowercasing never turns whitespace into non-whitespace or back. */
  lemma LowerCharKeepsWhitespace(c: char)
    ensures IsWhitespace(LowerChar(c)) <==> IsWhitespace(c)
  {
  }

  lemma ToLowerCaseIdempotent(s: string)
    ensures ToLowerCase(ToLowerCase(s)) == ToLowerCase(s)
  {
  }

  /** `name.trim().toLowerCase()` is a fixed point of the same normalisation. */
  lemma TrimLowerIdempotent(s: string)
    ensures Trim(ToLowerCase(Trim(ToLowerCase(Trim(s))))) == Trim(ToLowerCase(Trim(s)))
    ensures ToLowerCase(Trim(ToLowerCase(Trim(s)))) == ToLowerCase(Trim(s))
  {
    var l := ToLowerCase(Trim(s));
    if l != [] {
      LowerCharKeepsWhitespace(Trim(s)[0]);
      LowerCharKeepsWhitespace(Trim(s)[|l| - 1]);
    }
    TrimOfTrimmed(l);
    ToLowerCaseIdempotent(Trim(s));
    TrimOfTrimmed(ToLowerCase(l));
  }
}
