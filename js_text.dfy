/** Text primitives of JavaScript that the validation layer relies on: the
    white-space class, UTF-16 code units (what `length` and string comparison
    count), and `String.prototype.includes`. */
module JsText {

  /** WhiteSpace and LineTerminator of ECMAScript: the set `\s` matches in a
      regular expression and the set `Number(...)` trims from a string. */
  predicate IsWhitespace(c: char) {
    c == '\t' || c == '\n' || c == '\U{000B}' || c == '\U{000C}' || c == '\r' || c == ' ' ||
    c == '\U{00A0}' || c == '\U{1680}' || ('\U{2000}' <= c <= '\U{200A}') ||
    c == '\U{2028}' || c == '\U{2029}' || c == '\U{202F}' || c == '\U{205F}' ||
    c == '\U{3000}' || c == '\U{FEFF}'
  }

  /** The UTF-16 code units of one character. */
  function CharUnits(c: char): (u: seq<int>)
    ensures 1 <= |u| <= 2
    ensures |u| == 2 <==> c as int >= 0x10000
  {
    var n := c as int;
    if n < 0x10000 then [n]
    else [0xD800 + (n - 0x10000) / 0x400, 0xDC00 + (n - 0x10000) % 0x400]
  }

  /** A JavaScript string is a sequence of UTF-16 code units. */
  function Utf16(s: string): seq<int>
  {
    if s == [] then [] else CharUnits(s[0]) + Utf16(s[1..])
  }

  /** JavaScript's `s.length`. */
  function Utf16Length(s: string): nat
  {
    |Utf16(s)|
  }

  predicate IsBmp(s: string) {
    forall i :: 0 <= i < |s| ==> s[i] as int < 0x10000
  }

  /** `length` never undercounts the characters, and counts exactly one unit
      per character in the Basic Multilingual Plane. */
  lemma {:induction false} Utf16LengthBounds(s: string)
    ensures |s| <= Utf16Length(s) <= 2 * |s|
    ensures IsBmp(s) <==> Utf16Length(s) == |s|
  {
    if s != [] {
      Utf16LengthBounds(s[1..]);
      assert Utf16(s) == CharUnits(s[0]) + Utf16(s[1..]);
      assert IsBmp(s) <==> s[0] as int < 0x10000 && IsBmp(s[1..]) by {
        if IsBmp(s[1..]) && s[0] as int < 0x10000 {
          forall i | 0 <= i < |s| ensures s[i] as int < 0x10000 {
            if i > 0 { assert s[i] == s[1..][i - 1]; }
          }
        }
        if IsBmp(s) {
          forall i | 0 <= i < |s[1..]| ensures s[1..][i] as int < 0x10000 {
            assert s[1..][i] == s[i + 1];
          }
        }
      }
    }
  }

  /** Lexicographic order on code-unit sequences, as the relational operators
      compare two strings: a proper prefix is smaller. */
  predicate UnitsLess(a: seq<int>, b: seq<int>)
  {
    if b == [] then false
    else if a == [] then true
    else if a[0] != b[0] then a[0] < b[0]
    else UnitsLess(a[1..], b[1..])
  }

  predicate OccursAt(s: string, needle: string, i: nat)
    requires i + |needle| <= |s|
  {
    s[i..i + |needle|] == needle
  }

  /** `s.includes(needle)`. */
  predicate Includes(s: string, needle: string) {
    exists i: nat :: i + |needle| <= |s| && OccursAt(s, needle, i)
  }
}
