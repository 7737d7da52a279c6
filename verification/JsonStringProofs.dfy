/** What holds of strings: the space the first pass of parse_string computes is enough for the second, and \u
    literals become UTF-8. It begins with what it means that a text stands in an input. */
module JsonStringProofs {
  import opened JobTypes
  import opened Bytes
  import opened JsonStrings

  // ---- texts in an input ----

  /** The text `t`, from its byte `i` on, stands where it would if `t` began at `p`. */
  predicate StartsFrom(c: seq<byte>, p: nat, t: seq<byte>, i: nat)
    decreases |t| - i
  {
    i >= |t| || (p + i < |c| && c[p + i] == t[i] && StartsFrom(c, p, t, i + 1))
  }

  /** There is room for the text `t` at `p`, and it stands there. */
  predicate Starts(c: seq<byte>, p: nat, t: seq<byte>) { p + |t| <= |c| && StartsFrom(c, p, t, 0) }

  lemma {:induction false} StartsElements(c: seq<byte>, p: nat, t: seq<byte>, i: nat)
    requires StartsFrom(c, p, t, i)
    ensures i < |t| ==> p + |t| <= |c|
    ensures forall k :: i <= k < |t| ==> c[p + k] == t[k]
    decreases |t| - i
  {
    if i >= |t| {
    } else {
      StartsElements(c, p, t, i + 1);
      forall k | i <= k < |t| ensures c[p + k] == t[k] {
        if k == i { assert c[p + i] == t[i]; }
      }
    }
  }

  lemma {:induction false} ElementsStart(c: seq<byte>, p: nat, t: seq<byte>, i: nat)
    requires p + |t| <= |c| && forall k :: 0 <= k < |t| ==> c[p + k] == t[k]
    ensures StartsFrom(c, p, t, i)
    decreases |t| - i
  {
    if i >= |t| {
    } else {
      ElementsStart(c, p, t, i + 1);
    }
  }

  /** A text in two parts. */
  lemma StartsParts(c: seq<byte>, p: nat, t: seq<byte>, a: seq<byte>, b: seq<byte>)
    requires Starts(c, p, t) && t == a + b
    ensures Starts(c, p, a) && Starts(c, p + |a|, b)
  {
    StartsElements(c, p, t, 0);
    forall i | 0 <= i < |a| ensures c[p + i] == a[i] { assert t[i] == a[i]; }
    forall i | 0 <= i < |b| ensures c[p + |a| + i] == b[i] {
      assert t[|a| + i] == b[i];
      assert p + (|a| + i) == p + |a| + i;
    }
    ElementsStart(c, p, a, 0);
    ElementsStart(c, p + |a|, b, 0);
  }

  lemma StartsByte(c: seq<byte>, p: nat, t: seq<byte>, i: nat)
    requires Starts(c, p, t) && i < |t|
    ensures c[p + i] == t[i]
  {
    StartsElements(c, p, t, 0);
  }

  lemma {:induction false} EscapeConcat(a: seq<byte>, b: seq<byte>)
    ensures Escape(a + b) == Escape(a) + Escape(b)
  {
    if a == [] {
      assert a + b == b;
    } else {
      assert (a + b)[1..] == a[1..] + b;
      EscapeConcat(a[1..], b);
    }
  }

  lemma {:induction false} EscapeNulFree(s: seq<byte>)
    requires NulFree(s)
    ensures NulFree(Escape(s)) && |Escape(s)| >= |s|
  {
    if s == [] {
    } else {
      EscapeNulFree(s[1..]);
    }
  }

  // ---- the space for the second pass ----

  /** How many of the escapes the first pass sees from `q` on begin before `p`. */
  function EscapesBefore(c: seq<byte>, q: nat, p: nat): nat
    requires p <= |c|
    decreases p - q
  {
    if q >= p then 0
    else if c[q] == BACKSLASH then 1 + EscapesBefore(c, q + 2, p)
    else EscapesBefore(c, q + 1, p)
  }

  lemma {:induction false} NoEscapeAt(c: seq<byte>, q: nat, p: nat)
    requires p < |c| && c[p] != BACKSLASH
    ensures EscapesBefore(c, q, p + 1) == EscapesBefore(c, q, p)
    decreases p - q
  {
    if q >= p {
    } else {
      NoEscapeAt(c, if c[q] == BACKSLASH then q + 2 else q + 1, p);
    }
  }

  /** Two positions hold at most one escape of the first pass. */
  lemma {:induction false} OneEscapeInTwo(c: seq<byte>, q: nat, p: nat)
    requires p + 2 <= |c|
    ensures EscapesBefore(c, q, p) <= EscapesBefore(c, q, p + 2) <= EscapesBefore(c, q, p) + 1
    decreases p - q
  {
    if q < p {
      OneEscapeInTwo(c, if c[q] == BACKSLASH then q + 2 else q + 1, p);
    } else if q == p {
      assert EscapesBefore(c, q + 1, p + 2) <= 1;
    }
  }

  lemma {:induction false} FindEndCounts(c: seq<byte>, p: nat)
    requires FindEnd(c, p).Quote?
    ensures FindEnd(c, p).escapes == EscapesBefore(c, p, FindEnd(c, p).end)
    ensures FindEnd(c, p).escapes <= FindEnd(c, p).end - p
    decreases |c| - p
  {
    if c[p] == BACKSLASH {
      FindEndCounts(c, p + 2);
    } else if c[p] != QUOTE {
      FindEndCounts(c, p + 1);
    }
  }

  /** An escape writes no more bytes than it takes up in the text, less the escapes the first pass
      saw begin there, even when a malformed literal has put the two passes out of step. */
  lemma UnescapeFits(c: seq<byte>, start: nat, p: nat, end: nat)
    requires start <= p < end < |c| && Unescape(c, p, end).Piece?
    ensures var r := Unescape(c, p, end);
            |r.bytes| + EscapesBefore(c, start, p + r.length) - EscapesBefore(c, start, p) <= r.length
  {
    var length := Unescape(c, p, end).length;
    OneEscapeInTwo(c, start, p);
    if length >= 6 {
      OneEscapeInTwo(c, start, p + 2);
      OneEscapeInTwo(c, start, p + 4);
    }
    if length == 12 {
      OneEscapeInTwo(c, start, p + 6);
      OneEscapeInTwo(c, start, p + 8);
      OneEscapeInTwo(c, start, p + 10);
    }
  }

  lemma {:induction false} DecodeFits(c: seq<byte>, start: nat, p: nat, end: nat)
    requires start <= p <= end + 1 <= |c| && Decode(c, p, end).Some?
    ensures |Decode(c, p, end).value| + EscapesBefore(c, start, end + 1) - EscapesBefore(c, start, p) <= end + 1 - p
    decreases end - p
  {
    if p < end && c[p] == BACKSLASH {
      UnescapeFits(c, start, p, end);
      DecodeFits(c, start, p + Unescape(c, p, end).length, end);
    } else if p < end {
      NoEscapeAt(c, start, p);
      DecodeFits(c, start, p + 1, end);
    } else if p == end {
      OneMore(c, start, end);
    }
  }

  lemma {:induction false} OneMore(c: seq<byte>, q: nat, p: nat)
    requires p < |c|
    ensures EscapesBefore(c, q, p) <= EscapesBefore(c, q, p + 1) <= EscapesBefore(c, q, p) + 1
    decreases p - q
  {
    if q >= p {
    } else {
      OneMore(c, if c[q] == BACKSLASH then q + 2 else q + 1, p);
    }
  }

  /** The room allocated after the first pass holds what the second one writes and the final NUL. */
  lemma AllocationSuffices(c: seq<byte>, at: nat)
    requires at < |c| && FindEnd(c, at + 1).Quote?
    requires Decode(c, at + 1, FindEnd(c, at + 1).end).Some?
    ensures var q := FindEnd(c, at + 1);
            |Decode(c, at + 1, q.end).value| + 1 <= (q.end - at) - q.escapes + 1
  {
    var end := FindEnd(c, at + 1).end;
    FindEndCounts(c, at + 1);
    NoEscapeAt(c, at + 1, end);
    DecodeFits(c, at + 1, at + 1, end);
  }

  // ---- \u literals ----

  /** The bits a byte carries behind its mark. */
  function Bits(b: byte, mark: int): int { b - mark }

  predicate Continues(b: byte) { 0x80 <= b < 0xC0 }

  /** Reads one code point of UTF-8, after section 3 of RFC 3629: overlong forms, surrogates and
      what is beyond the last code point are refused. */
  function ReadUtf8(s: seq<byte>): Option<int> {
    if |s| == 1 && s[0] < 0x80 then Some(s[0])
    else if |s| == 2 && 0xC0 <= s[0] < 0xE0 && Continues(s[1]) then
      var cp := Bits(s[0], 0xC0) * 0x40 + Bits(s[1], 0x80);
      if cp < 0x80 then None else Some(cp)
    else if |s| == 3 && 0xE0 <= s[0] < 0xF0 && Continues(s[1]) && Continues(s[2]) then
      var cp := (Bits(s[0], 0xE0) * 0x40 + Bits(s[1], 0x80)) * 0x40 + Bits(s[2], 0x80);
      if cp < 0x800 || 0xD800 <= cp <= 0xDFFF then None else Some(cp)
    else if |s| == 4 && 0xF0 <= s[0] < 0xF8 && Continues(s[1]) && Continues(s[2]) && Continues(s[3]) then
      var cp := ((Bits(s[0], 0xF0) * 0x40 + Bits(s[1], 0x80)) * 0x40 + Bits(s[2], 0x80)) * 0x40 + Bits(s[3], 0x80);
      if cp < 0x10000 || cp > 0x10FFFF then None else Some(cp)
    else None
  }

  lemma Utf8Read(cp: nat)
    requires cp <= 0x10FFFF && !(0xD800 <= cp <= 0xDFFF)
    ensures ReadUtf8(Utf8(cp)) == Some(cp)
  {
  }

  /** The four digits of a number, as a printer would write them. */
  function Hex4Text(h: nat): seq<byte>
    requires h < 0x10000
  {
    var h1 := h / 16;
    var h2 := h1 / 16;
    [HexDigit(h2 / 16), HexDigit(h2 % 16), HexDigit(h1 % 16), HexDigit(h % 16)]
  }

  /** The literal of a code point, after section 2.2 of RFC 2781: one unit, or a surrogate pair. */
  function LiteralText(cp: nat): seq<byte>
    requires cp <= 0x10FFFF && !(0xD800 <= cp <= 0xDFFF)
  {
    if cp < 0x10000 then [BACKSLASH, SMALL_U] + Hex4Text(cp)
    else
      var hi, lo := 0xD800 + (cp - 0x10000) / 0x400, 0xDC00 + (cp - 0x10000) % 0x400;
      ([BACKSLASH, SMALL_U] + Hex4Text(hi)) + ([BACKSLASH, SMALL_U] + Hex4Text(lo))
  }

  lemma HexDigitRead(n: nat)
    requires n < 16
    ensures HexValue(HexDigit(n)) == Some(n)
  {
  }

  lemma Hex4Read(c: seq<byte>, p: nat, h: nat)
    requires h < 0x10000 && Starts(c, p, Hex4Text(h))
    ensures Hex4(c, p) == h
  {
    var t := Hex4Text(h);
    StartsElements(c, p, t, 0);
    var h1 := h / 16;
    var h2 := h1 / 16;
    HexDigitRead(h2 / 16);
    HexDigitRead(h2 % 16);
    HexDigitRead(h1 % 16);
    HexDigitRead(h % 16);
    assert c[p + 0] == t[0] && c[p + 1] == t[1] && c[p + 2] == t[2] && c[p + 3] == t[3];
  }

  /** Every literal of a code point is read as that code point, in UTF-8. */
  lemma LiteralReadsCodePoint(c: seq<byte>, p: nat, end: nat, cp: nat)
    requires cp <= 0x10FFFF && !(0xD800 <= cp <= 0xDFFF)
    requires p <= end <= |c| && Starts(c, p, LiteralText(cp)) && p + |LiteralText(cp)| <= end
    ensures Literal(c, p, end) == Piece(Utf8(cp), |LiteralText(cp)|)
    ensures ReadUtf8(Utf8(cp)) == Some(cp)
  {
    Utf8Read(cp);
    var lead: seq<byte> := [BACKSLASH, SMALL_U];
    if cp < 0x10000 {
      StartsParts(c, p, LiteralText(cp), lead, Hex4Text(cp));
      Hex4Read(c, p + 2, cp);
    } else {
      var hi, lo := 0xD800 + (cp - 0x10000) / 0x400, 0xDC00 + (cp - 0x10000) % 0x400;
      StartsParts(c, p, LiteralText(cp), lead + Hex4Text(hi), lead + Hex4Text(lo));
      StartsParts(c, p, lead + Hex4Text(hi), lead, Hex4Text(hi));
      StartsParts(c, p + 6, lead + Hex4Text(lo), lead, Hex4Text(lo));
      Hex4Read(c, p + 2, hi);
      Hex4Read(c, p + 8, lo);
      StartsByte(c, p + 6, lead, 0);
      StartsByte(c, p + 6, lead, 1);
    }
  }
}
