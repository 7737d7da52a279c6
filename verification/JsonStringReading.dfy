/** parse_string reads every string of the grammar as the characters it is spelled with. */
module JsonStringReading {
  import opened JobTypes
  import opened Bytes
  import opened JsonStrings
  import opened JsonStringProofs
  import opened JsonGrammar
  import opened JsonMeaning

  function CharLen(x: Char): nat {
    match x
    case Plain(_) => 1
    case Short(_) => 2
    case Unit(digits) => 2 + |digits|
  }

  /** The character stands at `p`, in its spelling. */
  predicate CharStands(c: seq<byte>, p: nat, x: Char) {
    && p + CharLen(x) <= |c|
    && match x
       case Plain(b) => c[p] == b
       case Short(letter) => c[p] == BACKSLASH && c[p + 1] == letter
       case Unit(digits) => c[p] == BACKSLASH && c[p + 1] == SMALL_U && c[p + 2..p + 2 + |digits|] == digits
  }

  /** Where a text ends, if it stands where it is looked for. */
  datatype End = Nowhere | End(at: nat)

  /** Where the characters from `i` on end if they stand at `p`. */
  function CharsEnd(c: seq<byte>, p: nat, chars: seq<Char>, i: nat): End
    decreases |chars| - i, 1
  {
    if i >= |chars| then End(p) else RestEnd(c, p, chars, i)
  }

  function RestEnd(c: seq<byte>, p: nat, chars: seq<Char>, i: nat): End
    requires i < |chars|
    decreases |chars| - i, 0
  {
    if CharStands(c, p, chars[i]) then CharsEnd(c, p + CharLen(chars[i]), chars, i + 1) else Nowhere
  }

  function StringEnd(c: seq<byte>, at: nat, chars: seq<Char>): End {
    if at >= |c| || c[at] != QUOTE then Nowhere
    else
      var e := CharsEnd(c, at + 1, chars, 0);
      if e.End? && e.at < |c| && c[e.at] == QUOTE then End(e.at + 1) else Nowhere
  }

  // ---- the spelling stands ----

  lemma SliceStands(c: seq<byte>, p: nat, t: seq<byte>)
    requires Starts(c, p, t)
    ensures c[p..p + |t|] == t
  {
    StartsElements(c, p, t, 0);
  }

  lemma SpelledChar(c: seq<byte>, p: nat, x: Char)
    requires Starts(c, p, SpellChar(x))
    ensures CharStands(c, p, x) && |SpellChar(x)| == CharLen(x)
  {
    StartsElements(c, p, SpellChar(x), 0);
    assert c[p + 0] == SpellChar(x)[0];
    match x
    case Plain(_) =>
    case Short(_) => assert c[p + 1] == SpellChar(x)[1];
    case Unit(digits) =>
      assert c[p + 1] == SpellChar(x)[1];
      StartsParts(c, p, SpellChar(x), [0x5C, 0x75], digits);
      SliceStands(c, p + 2, digits);
  }

  lemma SpellNext(chars: seq<Char>, i: nat)
    requires i < |chars|
    ensures SpellChars(chars[i..]) == SpellChar(chars[i]) + SpellChars(chars[i + 1..])
  {
    assert chars[i..][1..] == chars[i + 1..];
  }

  lemma {:induction false} SpelledChars(c: seq<byte>, p: nat, chars: seq<Char>, i: nat)
    requires i <= |chars| && Starts(c, p, SpellChars(chars[i..]))
    ensures CharsEnd(c, p, chars, i) == End(p + |SpellChars(chars[i..])|)
    decreases |chars| - i
  {
    if i == |chars| {
    } else {
      SpellNext(chars, i);
      StartsParts(c, p, SpellChars(chars[i..]), SpellChar(chars[i]), SpellChars(chars[i + 1..]));
      SpelledChar(c, p, chars[i]);
      SpelledChars(c, p + CharLen(chars[i]), chars, i + 1);
    }
  }

  lemma SpelledString(c: seq<byte>, at: nat, chars: seq<Char>)
    requires Starts(c, at, SpellString(chars))
    ensures StringEnd(c, at, chars) == End(at + |SpellString(chars)|)
  {
    var e := SpellChars(chars);
    StartsParts(c, at, SpellString(chars), [0x22] + e, [0x22]);
    StartsParts(c, at, [0x22] + e, [0x22], e);
    StartsByte(c, at, [0x22], 0);
    StartsByte(c, at + 1 + |e|, [0x22], 0);
    assert chars[0..] == chars;
    SpelledChars(c, at + 1, chars, 0);
  }

  // ---- the first pass ----

  lemma FindEndPlain(c: seq<byte>, p: nat)
    requires p < |c| && c[p] != QUOTE && c[p] != BACKSLASH
    ensures FindEnd(c, p) == FindEnd(c, p + 1)
  {
  }

  lemma HexIsPlain(c: seq<byte>, p: nat)
    requires p < |c| && HexOf(c[p]) >= 0
    ensures FindEnd(c, p) == FindEnd(c, p + 1)
  {
    FindEndPlain(c, p);
  }

  lemma FourDigits(c: seq<byte>, p: nat, digits: seq<byte>)
    requires p + 4 <= |c| && c[p..p + 4] == digits && ProperChar(Unit(digits))
    ensures FindEnd(c, p) == FindEnd(c, p + 4)
  {
    assert c[p] == digits[0] && c[p + 1] == digits[1] && c[p + 2] == digits[2] && c[p + 3] == digits[3];
    HexIsPlain(c, p);
    HexIsPlain(c, p + 1);
    HexIsPlain(c, p + 2);
    HexIsPlain(c, p + 3);
  }

  /** The first pass goes over one character. */
  lemma FindEndChar(c: seq<byte>, p: nat, x: Char)
    requires CharStands(c, p, x) && ProperChar(x)
    ensures FindEnd(c, p).Quote? <==> FindEnd(c, p + CharLen(x)).Quote?
    ensures FindEnd(c, p).Quote? ==> FindEnd(c, p).end == FindEnd(c, p + CharLen(x)).end
  {
    if x.Unit? {
      assert FindEnd(c, p).Quote? <==> FindEnd(c, p + 2).Quote?;
      FourDigits(c, p + 2, x.digits);
    }
  }

  lemma {:induction false} FindEndChars(c: seq<byte>, p: nat, chars: seq<Char>, i: nat, e: nat)
    requires ProperChars(chars) && CharsEnd(c, p, chars, i) == End(e) && e < |c| && c[e] == QUOTE
    ensures FindEnd(c, p).Quote? && FindEnd(c, p).end == e
    decreases |chars| - i
  {
    if i >= |chars| {
    } else {
      FindEndChar(c, p, chars[i]);
      FindEndChars(c, p + CharLen(chars[i]), chars, i + 1, e);
    }
  }

  // ---- the second pass ----

  lemma HexRead(b: byte)
    requires HexOf(b) >= 0
    ensures HexValue(b) == Some(HexOf(b))
  {
  }

  lemma UnitRead(c: seq<byte>, p: nat, digits: seq<byte>)
    requires p + 4 <= |c| && ProperChar(Unit(digits)) && c[p..p + 4] == digits
    ensures Hex4(c, p) == UnitOf(digits)
  {
    assert c[p] == digits[0] && c[p + 1] == digits[1] && c[p + 2] == digits[2] && c[p + 3] == digits[3];
    HexRead(digits[0]);
    HexRead(digits[1]);
    HexRead(digits[2]);
    HexRead(digits[3]);
  }

  lemma ShortRead(letter: byte)
    requires ProperChar(Short(letter))
    ensures ShortUnescape(letter) == Some(ShortOf(letter)) && letter != SMALL_U
  {
  }

  /** What an escape the parser meets amounts to. */
  lemma DecodeTurn(c: seq<byte>, p: nat, end: nat, bytes: seq<byte>, length: nat)
    requires p < end < |c| && Unescape(c, p, end) == Piece(bytes, length)
    ensures DecodeEscape(c, p, end) == Before(bytes, Decode(c, p + length, end))
  {
  }

  lemma {:induction false} CharsEndGrows(c: seq<byte>, p: nat, chars: seq<Char>, i: nat, end: nat)
    requires CharsEnd(c, p, chars, i) == End(end)
    ensures p <= end && (i >= |chars| ==> p == end)
    decreases |chars| - i
  {
    if i >= |chars| {
    } else {
      CharsEndGrows(c, p + CharLen(chars[i]), chars, i + 1, end);
    }
  }

  /** What a unit stands for, and, if another one with the value `next` follows, the two together. */
  function UnitPiece(u: nat, follows: bool, next: nat): Piece
    requires u < 0x10000
  {
    if u < 0xD800 || u > 0xDFFF then Piece(Utf8(u), 6)
    else if u <= 0xDBFF && follows && 0xDC00 <= next <= 0xDFFF
    then Piece(Utf8(0x10000 + (u - 0xD800) * 0x400 + (next - 0xDC00)), 12)
    else BadPiece
  }

  lemma LiteralIs(c: seq<byte>, p: nat, end: nat, follows: bool, next: nat)
    requires p + 6 <= end < |c| && (follows ==> p + 12 <= end && Hex4(c, p + 8) == next)
    requires follows <==> p + 12 <= end && c[p + 6] == BACKSLASH && c[p + 7] == SMALL_U
    ensures Literal(c, p, end) == UnitPiece(Hex4(c, p + 2), follows, next)
  {
  }

  lemma UnitDecoded(c: seq<byte>, p: nat, chars: seq<Char>, i: nat, end: nat) returns (follows: bool, next: nat)
    requires ProperChars(chars) && i < |chars| && chars[i].Unit? && CharsEnd(c, p, chars, i) == End(end) && end < |c|
    ensures p + 6 <= end && c[p] == BACKSLASH
    ensures Unescape(c, p, end) == UnitPiece(UnitOf(chars[i].digits), follows, next)
    ensures follows <==> i + 1 < |chars| && chars[i + 1].Unit?
    ensures follows ==> UnitOf(chars[i + 1].digits) == next
  {
    CharsEndGrows(c, p + 6, chars, i + 1, end);
    UnitRead(c, p + 2, chars[i].digits);
    follows, next := i + 1 < |chars| && chars[i + 1].Unit?, 0;
    if i + 1 < |chars| {
      NextChar(c, p + 6, chars, i + 1, end);
      if follows { next := Hex4(c, p + 8); }
    } else {
      assert end == p + 6;
    }
    LiteralIs(c, p, end, follows, next);
  }

  /** What stands behind a high surrogate. */
  lemma NextChar(c: seq<byte>, p: nat, chars: seq<Char>, i: nat, end: nat)
    requires ProperChars(chars) && i < |chars| && CharsEnd(c, p, chars, i) == End(end) && end < |c|
    ensures chars[i].Unit? <==> p + 6 <= end && c[p] == BACKSLASH && c[p + 1] == SMALL_U
    ensures chars[i].Unit? ==> Hex4(c, p + 2) == UnitOf(chars[i].digits)
  {
    CharsEndGrows(c, p + CharLen(chars[i]), chars, i + 1, end);
    match chars[i]
    case Plain(_) =>
    case Short(letter) => ShortRead(letter);
    case Unit(digits) => UnitRead(c, p + 2, digits);
  }

  lemma {:induction false} DecodeChars(c: seq<byte>, p: nat, chars: seq<Char>, i: nat, end: nat)
    requires ProperChars(chars) && i <= |chars| && CharsEnd(c, p, chars, i) == End(end) && end < |c|
    ensures Decode(c, p, end) == Decoded(chars, i)
    decreases |chars| - i
  {
    CharsEndGrows(c, p, chars, i, end);
    if i == |chars| {
    } else {
      match chars[i]
      case Plain(b) =>
        CharsEndGrows(c, p + 1, chars, i + 1, end);
        DecodeChars(c, p + 1, chars, i + 1, end);
      case Short(letter) =>
        CharsEndGrows(c, p + 2, chars, i + 1, end);
        ShortRead(letter);
        DecodeTurn(c, p, end, [ShortOf(letter)], 2);
        assert Decode(c, p, end) == DecodeEscape(c, p, end);
        DecodeChars(c, p + 2, chars, i + 1, end);
      case Unit(_) =>
        DecodeUnit(c, p, chars, i, end);
        assert Decode(c, p, end) == DecodeEscape(c, p, end) && Decoded(chars, i) == DecodedUnit(chars, i);
    }
  }

  lemma {:induction false} DecodeUnit(c: seq<byte>, p: nat, chars: seq<Char>, i: nat, end: nat)
    requires ProperChars(chars) && i < |chars| && chars[i].Unit? && CharsEnd(c, p, chars, i) == End(end) && end < |c|
    ensures p < end && c[p] == BACKSLASH && DecodeEscape(c, p, end) == DecodedUnit(chars, i)
    decreases |chars| - i, 0
  {
    var r := UnitEscape(c, p, chars, i, end);
    if r.BadPiece? {
      DecodeFails(c, p, end);
    } else {
      DecodeTurn(c, p, end, r.bytes, r.length);
      if r.length == 6 {
        DecodeChars(c, p + 6, chars, i + 1, end);
      } else {
        DecodeChars(c, p + 12, chars, i + 2, end);
      }
    }
  }

  lemma DecodeFails(c: seq<byte>, p: nat, end: nat)
    requires p < end < |c| && Unescape(c, p, end) == BadPiece
    ensures DecodeEscape(c, p, end) == None
  {
  }

  /** The unit at `p`, and the one behind it if they are a pair: where the rest stands, and what it adds to. */
  lemma UnitEscape(c: seq<byte>, p: nat, chars: seq<Char>, i: nat, end: nat) returns (r: Piece)
    requires ProperChars(chars) && i < |chars| && chars[i].Unit? && CharsEnd(c, p, chars, i) == End(end) && end < |c|
    ensures p < end && c[p] == BACKSLASH && Unescape(c, p, end) == r
    ensures r.BadPiece? ==> DecodedUnit(chars, i) == None
    ensures r.Piece? && r.length == 6 ==>
              && DecodedUnit(chars, i) == Before(r.bytes, Decoded(chars, i + 1))
              && CharsEnd(c, p + 6, chars, i + 1) == End(end)
    ensures r.Piece? && r.length != 6 ==>
              && r.length == 12 && i + 2 <= |chars| && DecodedUnit(chars, i) == Before(r.bytes, Decoded(chars, i + 2))
              && CharsEnd(c, p + 12, chars, i + 2) == End(end)
  {
    var follows, next := UnitDecoded(c, p, chars, i, end);
    r := UnitPiece(UnitOf(chars[i].digits), follows, next);
    UnitsDecoded(chars, i, follows, next);
    UnitsEnd(c, p, chars, i, follows, end);
  }

  lemma UnitsEnd(c: seq<byte>, p: nat, chars: seq<Char>, i: nat, two: bool, end: nat)
    requires ProperChars(chars) && i < |chars| && chars[i].Unit? && CharsEnd(c, p, chars, i) == End(end)
    requires two ==> i + 1 < |chars| && chars[i + 1].Unit?
    ensures CharsEnd(c, p + 6, chars, i + 1) == End(end)
    ensures two ==> CharsEnd(c, p + 12, chars, i + 2) == End(end)
  {
  }

  lemma UnitsDecoded(chars: seq<Char>, i: nat, follows: bool, next: nat)
    requires ProperChars(chars) && i < |chars| && chars[i].Unit?
    requires follows <==> i + 1 < |chars| && chars[i + 1].Unit?
    requires follows ==> UnitOf(chars[i + 1].digits) == next
    ensures var r := UnitPiece(UnitOf(chars[i].digits), follows, next);
            && (r.BadPiece? ==> DecodedUnit(chars, i) == None)
            && (r.Piece? && r.length == 6 ==> DecodedUnit(chars, i) == Before(r.bytes, Decoded(chars, i + 1)))
            && (r.Piece? && r.length != 6 ==>
                  r.length == 12 && follows && DecodedUnit(chars, i) == Before(r.bytes, Decoded(chars, i + 2)))
  {
  }

  lemma {:induction false} HeldUpToZero(s: seq<byte>)
    ensures CString(s) == UpToZero(s)
  {
    if s == [] {
    } else {
      HeldUpToZero(s[1..]);
    }
  }

  /** What parse_string makes of a string of the grammar. */
  function StringWithin(chars: seq<Char>, e: nat): StringAt {
    var s := Decoded(chars, 0);
    if s.None? then NoString else StringAt(UpToZero(s.value), e)
  }

  /** Any string of the grammar is read as the characters it stands for, up to the first zero; it is
      refused exactly if it has half a surrogate pair. */
  lemma StringReads(c: seq<byte>, at: nat, chars: seq<Char>, e: nat)
    requires ProperChars(chars) && StringEnd(c, at, chars) == End(e)
    ensures ParseString(c, at) == StringWithin(chars, e)
  {
    FindEndChars(c, at + 1, chars, 0, e - 1);
    DecodeChars(c, at + 1, chars, 0, e - 1);
    if Decoded(chars, 0).Some? { HeldUpToZero(Decoded(chars, 0).value); }
  }
}
