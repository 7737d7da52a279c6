/** JSON strings: how cJSON.c escapes them (print_string_ptr) and reads them back (parse_string),
    as functions. `None` is a failed parse. */
module JsonStrings {
  import opened JobTypes
  import opened Bytes

  // ---- printing ----

  /** The letter that follows the backslash in a two-character escape, if the byte has one. */
  function ShortEscape(b: byte): Option<byte> {
    if b == QUOTE then Some(QUOTE)
    else if b == BACKSLASH then Some(BACKSLASH)
    else if b == 8 then Some(98)
    else if b == 12 then Some(102)
    else if b == 10 then Some(110)
    else if b == 13 then Some(114)
    else if b == 9 then Some(116)
    else None
  }

  function HexDigit(n: nat): byte
    requires n < 16
  {
    if n < 10 then 48 + n else 87 + n
  }

  function EscapeByte(b: byte): (r: seq<byte>)
    ensures |r| == 1 || |r| == 2 || |r| == 6
    ensures b != NUL ==> NulFree(r)
  {
    if ShortEscape(b).Some? then [BACKSLASH, ShortEscape(b).value]
    else if b < 32 then [BACKSLASH, SMALL_U, 48, 48, HexDigit(b / 16), HexDigit(b % 16)]
    else [b]
  }

  function Escape(s: seq<byte>): seq<byte> {
    if s == [] then [] else EscapeByte(s[0]) + Escape(s[1..])
  }

  function Quoted(s: seq<byte>): seq<byte> { [QUOTE] + Escape(s) + [QUOTE] }

  // ---- reading: the first pass ----

  /** The closing quote of a string, and how many escapes stand before it. */
  datatype Quote = NoQuote | Quote(end: nat, escapes: nat)

  /** The first pass of parse_string from position `p`. */
  function FindEnd(c: seq<byte>, p: nat): (r: Quote)
    ensures r.Quote? ==> p <= r.end < |c| && c[r.end] == QUOTE
    decreases |c| - p
  {
    if p >= |c| then NoQuote
    else if c[p] == QUOTE then Quote(p, 0)
    else if c[p] == BACKSLASH then
      if p + 1 >= |c| then NoQuote
      else
        var r := FindEnd(c, p + 2);
        if r.NoQuote? then r else Quote(r.end, r.escapes + 1)
    else FindEnd(c, p + 1)
  }

  // ---- reading: the second pass ----

  function HexValue(b: byte): (h: Option<nat>)
    ensures h.Some? ==> h.value < 16
  {
    if 48 <= b <= 57 then Some(b - 48)
    else if 65 <= b <= 70 then Some(b - 55)
    else if 97 <= b <= 102 then Some(b - 87)
    else None
  }

  /** parse_hex4: anything but four hexadecimal digits counts as zero. */
  function Hex4(c: seq<byte>, p: nat): (h: nat)
    requires p + 4 <= |c|
    ensures h < 0x10000
  {
    var a, b, d, e := HexValue(c[p]), HexValue(c[p + 1]), HexValue(c[p + 2]), HexValue(c[p + 3]);
    if a.None? || b.None? || d.None? || e.None? then 0
    else ((a.value * 16 + b.value) * 16 + d.value) * 16 + e.value
  }

  /** The UTF-8 form of a code point: six bits at a time, the lowest last, and what is left behind
      the mark of the length. */
  function Utf8(cp: nat): (r: seq<byte>)
    requires cp <= 0x10FFFF
    ensures 1 <= |r| <= 4 && (cp < 0x10000 ==> |r| <= 3)
  {
    var cp1 := cp / 0x40;
    var cp2 := cp1 / 0x40;
    var cp3 := cp2 / 0x40;
    if cp < 0x80 then [cp]
    else if cp < 0x800 then [0xC0 + cp1, 0x80 + cp % 0x40]
    else if cp < 0x10000 then [0xE0 + cp2, 0x80 + cp1 % 0x40, 0x80 + cp % 0x40]
    else [0xF0 + cp3, 0x80 + cp2 % 0x40, 0x80 + cp1 % 0x40, 0x80 + cp % 0x40]
  }

  predicate HighSurrogate(h: nat) { 0xD800 <= h <= 0xDBFF }

  predicate LowSurrogate(h: nat) { 0xDC00 <= h <= 0xDFFF }

  /** What one turn of the second pass writes, and how far it moves in the text. */
  datatype Piece = BadPiece | Piece(bytes: seq<byte>, length: nat)

  /** utf16_literal_to_utf8: what a \u literal at `p` stands for. */
  function Literal(c: seq<byte>, p: nat, end: nat): (r: Piece)
    requires p <= end <= |c|
    ensures r.Piece? ==> p + r.length <= end && (r.length == 6 || r.length == 12)
    ensures r.Piece? ==> |r.bytes| <= if r.length == 6 then 3 else 4
  {
    if end - p < 6 then BadPiece
    else
      var first := Hex4(c, p + 2);
      if LowSurrogate(first) then BadPiece
      else if !HighSurrogate(first) then Piece(Utf8(first), 6)
      else if end - p < 12 || c[p + 6] != BACKSLASH || c[p + 7] != SMALL_U then BadPiece
      else
        var second := Hex4(c, p + 8);
        if !LowSurrogate(second) then BadPiece
        else Piece(Utf8(0x10000 + (first - 0xD800) * 0x400 + (second - 0xDC00)), 12)
  }

  /** What a two-character escape stands for. */
  function ShortUnescape(b: byte): Option<byte> {
    if b == 98 then Some(8)
    else if b == 102 then Some(12)
    else if b == 110 then Some(10)
    else if b == 114 then Some(13)
    else if b == 116 then Some(9)
    else if b == QUOTE || b == BACKSLASH || b == 47 then Some(b)
    else None
  }

  /** What an escape at `p` stands for. The byte after the backslash may be the closing quote itself. */
  function Unescape(c: seq<byte>, p: nat, end: nat): (r: Piece)
    requires p < end < |c|
    ensures r.Piece? ==> 2 <= r.length && p + r.length <= end + 1
  {
    if c[p + 1] == SMALL_U then Literal(c, p, end)
    else if ShortUnescape(c[p + 1]).Some? then Piece([ShortUnescape(c[p + 1]).value], 2)
    else BadPiece
  }

  /** The second pass from `p` on. */
  function Decode(c: seq<byte>, p: nat, end: nat): Option<seq<byte>>
    requires end < |c|
    decreases end - p, 1
  {
    if p >= end then Some([])
    else if c[p] == BACKSLASH then DecodeEscape(c, p, end)
    else
      var rest := Decode(c, p + 1, end);
      if rest.None? then None else Some([c[p]] + rest.value)
  }

  /** The same, where an escape stands at `p`. */
  function DecodeEscape(c: seq<byte>, p: nat, end: nat): Option<seq<byte>>
    requires p < end < |c|
    decreases end - p, 0
  {
    var r := Unescape(c, p, end);
    if r.BadPiece? then None
    else
      var rest := Decode(c, p + r.length, end);
      if rest.None? then None else Some(r.bytes + rest.value)
  }

  /** A string that was read, and the position behind it. */
  datatype StringAt = NoString | StringAt(s: seq<byte>, end: nat)

  /** parse_string at `at`: what it stores is a C string. */
  function ParseString(c: seq<byte>, at: nat): (r: StringAt)
    ensures r.StringAt? ==> at + 1 < r.end <= |c|
  {
    if at >= |c| || c[at] != QUOTE then NoString
    else
      var q := FindEnd(c, at + 1);
      if q.NoQuote? then NoString
      else
        var s := Decode(c, at + 1, q.end);
        if s.None? then NoString else StringAt(CString(s.value), q.end + 1)
  }
}
