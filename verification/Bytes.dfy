/** Bytes and the characters the code names. */
module Bytes {
  type byte = x: int | 0 <= x < 256

  const NUL: byte := 0
  const TAB: byte := 9
  const NEWLINE: byte := 10
  const SPACE: byte := 32
  const QUOTE: byte := 34
  const PLUS: byte := 43
  const COMMA: byte := 44
  const MINUS: byte := 45
  const DOT: byte := 46
  const COLON: byte := 58
  const BIG_E: byte := 69
  const OPEN_BRACKET: byte := 91
  const BACKSLASH: byte := 92
  const CLOSE_BRACKET: byte := 93
  const SMALL_E: byte := 101
  const SMALL_U: byte := 117
  const OPEN_BRACE: byte := 123
  const CLOSE_BRACE: byte := 125

  const INT_MAX := 0x7FFF_FFFF
  const INT_MIN := -0x8000_0000

  predicate IsDigit(b: byte) { 48 <= b <= 57 }

  /** What a C string holds: the bytes before the first NUL. */
  function CString(s: seq<byte>): seq<byte> {
    if s == [] || s[0] == NUL then [] else [s[0]] + CString(s[1..])
  }

  lemma {:induction false} CStringPrefix(s: seq<byte>)
    ensures NulFree(CString(s)) && CString(s) <= s
    ensures |CString(s)| < |s| ==> s[|CString(s)|] == NUL
    ensures NulFree(s) ==> CString(s) == s
  {
    if s == [] {
    } else {
      assert s == [s[0]] + s[1..];
      CStringPrefix(s[1..]);
    }
  }

  predicate NulFree(s: seq<byte>) { NUL !in s }
}
