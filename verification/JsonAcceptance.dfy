/** What the parser takes, all told: a number is what strtod reads of at most 63 characters, a string is read as
    far as its first broken \u literal, and arrays and objects have exactly the form of the grammar. */
module JsonAcceptance {
  import opened JobTypes
  import opened Bytes
  import opened JsonStrings
  import opened JsonStringProofs
  import opened JsonNumbers
  import opened JsonTree
  import opened JsonParse
  import opened JsonGrammar
  import opened JsonMeaning
  import opened JsonStringReading
  import opened JsonNumberReading

  // ---- numbers ----

  lemma {:induction false} RunDigits(s: seq<byte>, i: nat)
    requires i <= |s|
    ensures AreDigits(s[i..DigitRun(s, i)])
    decreases |s| - i
  {
    if i == |s| || !IsDigit(s[i]) {
    } else {
      RunDigits(s, i + 1);
      var t, u := s[i..DigitRun(s, i)], s[i + 1..DigitRun(s, i)];
      forall m | 0 <= m < |t| ensures '0' as int <= t[m] as int <= '9' as int {
        if m > 0 { assert t[m] == u[m - 1]; }
      }
    }
  }

  lemma ExponentTaken(s: seq<byte>, k: nat) returns (x: Exponent)
    requires k <= |s|
    ensures ProperExponent(x) && SpellExponent(x) == s[k..ExponentEnd(s, k)] && ExponentValue(s, k) == ExponentOf(x)
  {
    var j := ExponentEnd(s, k);
    if j == k {
      x := NoExponent;
    } else {
      var i := if s[k + 1] == PLUS || s[k + 1] == MINUS then k + 2 else k + 1;
      x := Exponent(s[k], s[k + 1..i], s[i..j]);
      RunDigits(s, i);
      WorthRead(x.digits);
      assert s[k..j] == [s[k]] + s[k + 1..i] + s[i..j];
      assert i == k + 2 ==> s[k + 1..i] == [s[k + 1]];
    }
  }

  lemma FractionTaken(s: seq<byte>, j: nat) returns (x: Fraction, k: nat)
    requires j <= |s|
    ensures AreDigits(Behind(x)) && FractionStands(s, j, x, k) && j <= k <= |s| && SpellFraction(x) == s[j..k]
  {
    if j < |s| && s[j] == DOT {
      k := DigitRun(s, j + 1);
      x := Fraction(s[j + 1..k]);
      RunDigits(s, j + 1);
      assert s[j..k] == [s[j]] + s[j + 1..k];
    } else {
      x, k := NoFraction, j;
    }
  }

  /** The number that is spelled at the front of a string, as strtod looks for its parts. */
  lemma FiguresTaken(s: seq<byte>) returns (n: Figures, k: nat)
    requires s != []
    ensures AreDigits(n.whole) && AreDigits(Behind(n.fraction)) && ProperExponent(n.exponent)
    ensures n.minus <==> s[0] == MINUS
    ensures var i := if s[0] == MINUS then 1 else 0;
            var j := DigitRun(s, i);
            n.whole == s[i..j] && j <= k <= |s| && FractionStands(s, j, n.fraction, k)
    ensures SpellFigures(n) == s[..ExponentEnd(s, k)] && ExponentValue(s, k) == ExponentOf(n.exponent)
  {
    var i := if s[0] == MINUS then 1 else 0;
    var j := DigitRun(s, i);
    RunDigits(s, i);
    var fraction;
    fraction, k := FractionTaken(s, j);
    var exponent := ExponentTaken(s, k);
    n := Figures(s[0] == MINUS, s[i..j], fraction, exponent);
    assert s[..i] == Sign(n);
    FourParts(s, i, j, k, ExponentEnd(s, k));
  }

  lemma FourParts(s: seq<byte>, i: nat, j: nat, k: nat, e: nat)
    requires i <= j <= k <= e <= |s|
    ensures s[..i] + s[i..j] + s[j..k] + s[k..e] == s[..e]
  {
  }

  /** What strtod takes of a string that begins with no plus is a number in its spelling. */
  lemma StrtodTaken(s: seq<byte>) returns (n: Figures)
    requires s != [] && s[0] != PLUS && Strtod(s).length > 0
    ensures Numeric(n) && SpellFigures(n) == s[..Strtod(s).length] && ValueOf(n) == Strtod(s).value
  {
    var i := if s[0] == MINUS then 1 else 0;
    var j := DigitRun(s, i);
    var k;
    n, k := FiguresTaken(s);
    StrtodNeeds(s, i, j, n.fraction, k);
    var m := Mantissa(n);
    MantissaRead(n);
    StrtodIs(s, i, j, n.fraction, k, m);
    ScaledRead(m, n.exponent);
  }

  lemma StrtodNeeds(s: seq<byte>, i: nat, j: nat, x: Fraction, k: nat)
    requires s != [] && s[0] != PLUS && Strtod(s).length > 0 && i == (if s[0] == MINUS then 1 else 0)
    requires j == DigitRun(s, i) && FractionStands(s, j, x, k)
    ensures i < j || Behind(x) != []
  {
  }

  /** How many characters are copied. */
  lemma {:induction false} Copied(c: seq<byte>, at: nat, k: nat) returns (m: nat)
    requires at + k <= |c| && k <= 63
    ensures m <= 63 && at + m <= |c| && NumberFrom(c, at, k) == NumberFrom(c, at, m)
    ensures m == 63 || at + m == |c| || !IsNumberByte(c[at + m])
    decreases 63 - k
  {
    if k < 63 && at + k < |c| && IsNumberByte(c[at + k]) {
      m := Copied(c, at, k + 1);
    } else {
      m := k;
    }
  }

  lemma CopyRead(c: seq<byte>, at: nat, m: nat) returns (r: Numeral)
    requires m <= 63 && at + m <= |c| && (m == 63 || at + m == |c| || !IsNumberByte(c[at + m]))
    ensures NumberFrom(c, at, m) == if r.length == 0 then NoNumber else NumberAt(r.value, at + r.length)
    ensures r == Strtod(c[at..at + m])
  {
    r := Strtod(c[at..at + m]);
  }

  lemma StrtodTakes(s: seq<byte>, r: Numeral) returns (n: Figures)
    requires (s != [] ==> s[0] != PLUS) && Strtod(s) == r && r.length > 0
    ensures Numeric(n) && r == Numeral(|SpellFigures(n)|, ValueOf(n)) && |SpellFigures(n)| <= |s|
    ensures s[..|SpellFigures(n)|] == SpellFigures(n)
  {
    n := StrtodTaken(s);
  }

  lemma CopyTaken(c: seq<byte>, at: nat, m: nat) returns (n: Figures)
    requires at + m <= |c| && m <= 63 && (m == 63 || at + m == |c| || !IsNumberByte(c[at + m]))
    requires at < |c| && c[at] != PLUS && NumberFrom(c, at, m).NumberAt?
    ensures Numeric(n) == true && |SpellFigures(n)| <= m && c[at..at + m][..|SpellFigures(n)|] == SpellFigures(n)
    ensures NumberFrom(c, at, m) == NumberAt(ValueOf(n), at + |SpellFigures(n)|)
  {
    var r := CopyRead(c, at, m);
    n := StrtodTakes(c[at..at + m], r);
  }

  /** A number that parse_value takes is spelled where it stands, and read as the real number it denotes. */
  lemma NumberTaken(c: seq<byte>, at: nat) returns (n: Figures)
    requires at < |c| && c[at] != PLUS && ParseNumber(c, at).NumberAt?
    ensures Numeric(n) && |SpellFigures(n)| <= 63 && at + |SpellFigures(n)| <= |c|
    ensures c[at..at + |SpellFigures(n)|] == SpellFigures(n)
    ensures ParseNumber(c, at) == NumberAt(ValueOf(n), at + |SpellFigures(n)|)
  {
    var m := Copied(c, at, 0);
    n := CopyTaken(c, at, m);
    SliceFront(c, at, m, |SpellFigures(n)|);
  }

  lemma SliceFront(c: seq<byte>, at: nat, m: nat, k: nat)
    requires k <= m && at + m <= |c|
    ensures c[at..at + m][..k] == c[at..at + k]
  {
  }

  // ---- strings ----

  /** A character as the grammar has it, or a control character. */
  predicate Readable(x: Char) { if x.Plain? then x.b != 0x22 && x.b != 0x5C else ProperChar(x) }

  predicate AllReadable(chars: seq<Char>) { forall i :: 0 <= i < |chars| ==> Readable(chars[i]) }

  /** A \u without four hexadecimal digits. */
  predicate Broken(c: seq<byte>, p: nat) {
    p + 6 <= |c| && c[p] == 0x5C && c[p + 1] == 0x75 && !ProperChar(Unit(c[p + 2..p + 6]))
  }

  lemma {:induction false} ZeroCuts(a: seq<byte>, b: seq<byte>, d: seq<byte>)
    requires UpToZero(b) == UpToZero(d)
    ensures UpToZero(a + b) == UpToZero(a + d)
  {
    if a == [] {
      assert a + b == b && a + d == d;
    } else {
      assert (a + b)[1..] == a[1..] + b && (a + d)[1..] == a[1..] + d;
      ZeroCuts(a[1..], b, d);
    }
  }

  lemma {:induction false} CharsEndBehind(c: seq<byte>, p: nat, a: seq<Char>, chars: seq<Char>, i: nat)
    ensures CharsEnd(c, p, a + chars, |a| + i) == CharsEnd(c, p, chars, i)
    decreases |chars| - i
  {
    if i >= |chars| {
    } else {
      assert (a + chars)[|a| + i] == chars[i];
      CharsEndBehind(c, p + CharLen(chars[i]), a, chars, i + 1);
    }
  }

  lemma {:induction false} DecodedBehind(a: seq<Char>, chars: seq<Char>, i: nat)
    requires i <= |chars|
    ensures Decoded(a + chars, |a| + i) == Decoded(chars, i)
    decreases |chars| - i
  {
    if i == |chars| {
    } else {
      assert (a + chars)[|a| + i] == chars[i];
      DecodedBehind(a, chars, i + 1);
      if i + 1 < |chars| {
        assert (a + chars)[|a| + i + 1] == chars[i + 1];
        DecodedBehind(a, chars, i + 2);
      }
    }
  }

  /** What is known of the characters read from `p` on: they end at `q`, and stand for `d` up to its first zero. */
  predicate Reads(c: seq<byte>, p: nat, end: nat, d: seq<byte>, chars: seq<Char>, q: nat) {
    && AllReadable(chars) && CharsEnd(c, p, chars, 0) == End(q) && q <= end && (q == end || Broken(c, q))
    && Decoded(chars, 0).Some? && UpToZero(Decoded(chars, 0).value) == UpToZero(d)
  }

  /** Some characters more, in front. */
  lemma InFront(c: seq<byte>, p: nat, p': nat, end: nat, a: seq<Char>, bytes: seq<byte>, d: seq<byte>, chars: seq<Char>,
                q: nat)
    requires AllReadable(a) && Reads(c, p', end, d, chars, q)
    requires CharsEnd(c, p, a + chars, 0) == CharsEnd(c, p', a + chars, |a|)
    requires Decoded(a + chars, 0) == Before(bytes, Decoded(a + chars, |a|))
    ensures Reads(c, p, end, bytes + d, a + chars, q) == true
  {
    CharsEndBehind(c, p', a, chars, 0);
    DecodedBehind(a, chars, 0);
    ZeroCuts(bytes, Decoded(chars, 0).value, d);
  }

  /** The character is no half of a surrogate pair, and stands for the bytes. */
  predicate CharIs(x: Char, bytes: seq<byte>) {
    && Readable(x)
    && match x
       case Plain(b) => bytes == [b]
       case Short(letter) => bytes == [ShortOf(letter)]
       case Unit(digits) => !(0xD800 <= UnitOf(digits) <= 0xDFFF) && bytes == Utf8(UnitOf(digits))
  }

  /** The characters are the halves of a surrogate pair that stands for the bytes. */
  predicate PairIs(x: Char, y: Char, bytes: seq<byte>) {
    && x.Unit? && y.Unit? && ProperChar(x) && ProperChar(y) && 0xD800 <= UnitOf(x.digits) <= 0xDBFF && IsLow(y)
    && bytes == Utf8(0x10000 + (UnitOf(x.digits) - 0xD800) * 0x400 + (UnitOf(y.digits) - 0xDC00))
  }

  lemma OneInFront(c: seq<byte>, p: nat, end: nat, x: Char, bytes: seq<byte>, d: seq<byte>, chars: seq<Char>, q: nat)
    requires CharIs(x, bytes) == true && CharStands(c, p, x) == true
    requires Reads(c, p + CharLen(x), end, d, chars, q) == true
    ensures Reads(c, p, end, bytes + d, [x] + chars, q) == true
  {
    assert ([x] + chars)[0] == x;
    if x.Unit? { assert Decoded([x] + chars, 0) == DecodedUnit([x] + chars, 0); }
    InFront(c, p, p + CharLen(x), end, [x], bytes, d, chars, q);
  }

  lemma TwoInFront(c: seq<byte>, p: nat, end: nat, x: Char, y: Char, bytes: seq<byte>, d: seq<byte>, chars: seq<Char>,
                   q: nat)
    requires PairIs(x, y, bytes) == true && CharStands(c, p, x) == true && CharStands(c, p + 6, y) == true
    requires Reads(c, p + 12, end, d, chars, q) == true
    ensures Reads(c, p, end, bytes + d, [x, y] + chars, q) == true
  {
    var all := [x, y] + chars;
    assert all[0] == x && all[1] == y;
    PairEnds(c, p, all);
    PairDecoded(all, bytes);
    InFront(c, p, p + 12, end, [x, y], bytes, d, chars, q);
  }

  lemma PairEnds(c: seq<byte>, p: nat, all: seq<Char>)
    requires |all| >= 2 && all[0].Unit? && all[1].Unit? && |all[0].digits| == |all[1].digits| == 4
    requires CharStands(c, p, all[0]) && CharStands(c, p + 6, all[1])
    ensures CharsEnd(c, p, all, 0) == CharsEnd(c, p + 12, all, 2)
  {
    assert CharsEnd(c, p, all, 0) == CharsEnd(c, p + 6, all, 1);
  }

  lemma PairDecoded(all: seq<Char>, bytes: seq<byte>)
    requires |all| >= 2 && all[0].Unit? && 0xD800 <= UnitOf(all[0].digits) <= 0xDBFF && IsLow(all[1])
    requires bytes == Utf8(0x10000 + (UnitOf(all[0].digits) - 0xD800) * 0x400 + (UnitOf(all[1].digits) - 0xDC00))
    ensures Decoded(all, 0) == Before(bytes, Decoded(all, 2))
  {
    assert Decoded(all, 0) == DecodedUnit(all, 0);
  }

  // ---- what the second pass takes ----

  lemma EscapeTaken(c: seq<byte>, p: nat, end: nat, d: seq<byte>) returns (r: Piece, rest: seq<byte>)
    requires p < end < |c| && c[p] == BACKSLASH && Decode(c, p, end) == Some(d)
    ensures r.Piece? && Unescape(c, p, end) == r && Decode(c, p + r.length, end) == Some(rest) && d == r.bytes + rest
  {
    r := Unescape(c, p, end);
    assert DecodeEscape(c, p, end) == Some(d);
    rest := Decode(c, p + r.length, end).value;
  }

  lemma ShortTaken(c: seq<byte>, p: nat, end: nat, r: Piece)
    requires p < end < |c| && c[p] == BACKSLASH && Unescape(c, p, end) == r && r.Piece? && c[p + 1] != SMALL_U
    ensures ProperChar(Short(c[p + 1])) && r == Piece([ShortOf(c[p + 1])], 2)
  {
  }

  lemma HexTaken(c: seq<byte>, p: nat)
    requires p + 4 <= |c|
    ensures Hex4(c, p) == UnitOf(c[p..p + 4])
    ensures !ProperChar(Unit(c[p..p + 4])) ==> Hex4(c, p) == 0
  {
    var t := c[p..p + 4];
    assert t[0] == c[p] && t[1] == c[p + 1] && t[2] == c[p + 2] && t[3] == c[p + 3];
    if ProperChar(Unit(t)) { UnitRead(c, p, t); } else { NotHex(c, p, t); }
  }

  lemma NotHex(c: seq<byte>, p: nat, t: seq<byte>)
    requires p + 4 <= |c| && t == c[p..p + 4] && !ProperChar(Unit(t))
    ensures Hex4(c, p) == 0
  {
    var i :| 0 <= i < 4 && HexOf(t[i]) < 0;
    assert t[i] == c[p + i];
    assert HexValue(c[p + i]).None?;
  }

  function PairPoint(u: nat, next: nat): nat
    requires 0xD800 <= u <= 0xDBFF && 0xDC00 <= next <= 0xDFFF
  {
    0x10000 + (u - 0xD800) * 0x400 + (next - 0xDC00)
  }

  lemma PieceTaken(u: nat, follows: bool, next: nat, r: Piece)
    requires u < 0x10000 && r == UnitPiece(u, follows, next) && r.Piece?
    ensures r.length == 6 || r.length == 12
    ensures r.length == 6 ==> !(0xD800 <= u <= 0xDFFF) && r.bytes == Utf8(u)
    ensures r.length == 12 ==>
              follows && 0xD800 <= u <= 0xDBFF && 0xDC00 <= next <= 0xDFFF && r.bytes == Utf8(PairPoint(u, next))
  {
  }

  /** A \u literal: one unit, or a pair of them. */
  lemma UnitTaken(c: seq<byte>, p: nat, end: nat, r: Piece) returns (u: nat, next: nat)
    requires p < end < |c| && c[p] == BACKSLASH && c[p + 1] == SMALL_U && Unescape(c, p, end) == r && r.Piece?
    ensures p + 6 <= end && u == Hex4(c, p + 2) && (r.length == 6 || r.length == 12)
    ensures r.length == 6 ==> !(0xD800 <= u <= 0xDFFF) && r.bytes == Utf8(u)
    ensures r.length == 12 ==>
              && 0xD800 <= u <= 0xDBFF && 0xDC00 <= next <= 0xDFFF && r.bytes == Utf8(PairPoint(u, next))
              && p + 12 <= end && c[p + 6] == BACKSLASH && c[p + 7] == SMALL_U && next == Hex4(c, p + 8)
  {
    u := Hex4(c, p + 2);
    var follows := p + 12 <= end && c[p + 6] == BACKSLASH && c[p + 7] == SMALL_U;
    next := if follows then Hex4(c, p + 8) else 0;
    LiteralIs(c, p, end, follows, next);
    PieceTaken(u, follows, next, r);
  }

  // ---- the string ----

  lemma {:induction false} CharsTaken(c: seq<byte>, p: nat, end: nat, d: seq<byte>) returns (chars: seq<Char>, q: nat)
    requires FindEnd(c, p).Quote? && FindEnd(c, p).end == end && Decode(c, p, end) == Some(d)
    ensures Reads(c, p, end, d, chars, q) == true
    decreases end - p, 2
  {
    if p == end {
      chars, q := [], p;
    } else if c[p] == BACKSLASH {
      chars, q := EscapedTaken(c, p, end, d);
    } else {
      FindEndPlain(c, p);
      var rest := Decode(c, p + 1, end).value;
      var more;
      more, q := CharsTaken(c, p + 1, end, rest);
      OneInFront(c, p, end, Plain(c[p]), [c[p]], rest, more, q);
      chars := [Plain(c[p])] + more;
    }
  }

  lemma {:induction false} EscapedTaken(c: seq<byte>, p: nat, end: nat, d: seq<byte>) returns (chars: seq<Char>, q: nat)
    requires FindEnd(c, p).Quote? && FindEnd(c, p).end == end && p < end && c[p] == BACKSLASH
    requires Decode(c, p, end) == Some(d)
    ensures Reads(c, p, end, d, chars, q) == true
    decreases end - p, 1
  {
    var k, rest := EscapeKind(c, p, end, d);
    var more;
    match k
    case Torn =>
      chars, q := [], p;
      BrokenTaken(c, p, end, d);
    case One(x, bytes) =>
      more, q := CharsTaken(c, p + CharLen(x), end, rest);
      OneInFront(c, p, end, x, bytes, rest, more, q);
      chars := [x] + more;
    case Two(x, y, bytes) =>
      more, q := CharsTaken(c, p + 12, end, rest);
      TwoInFront(c, p, end, x, y, bytes, rest, more, q);
      chars := [x, y] + more;
  }

  /** An escape: a broken literal, one character, or two that are the halves of a surrogate pair. */
  datatype Escape = Torn | One(x: Char, bytes: seq<byte>) | Two(x: Char, y: Char, bytes: seq<byte>)

  lemma EscapeKind(c: seq<byte>, p: nat, end: nat, d: seq<byte>) returns (k: Escape, rest: seq<byte>)
    requires FindEnd(c, p).Quote? && FindEnd(c, p).end == end && p < end && c[p] == BACKSLASH
    requires Decode(c, p, end) == Some(d)
    ensures k.Torn? ==> Broken(c, p) && UpToZero(d) == []
    ensures k.One? ==>
              && CharIs(k.x, k.bytes) == true && CharStands(c, p, k.x) == true && CharLen(k.x) > 1
              && d == k.bytes + rest && Decode(c, p + CharLen(k.x), end) == Some(rest)
              && FindEnd(c, p + CharLen(k.x)).Quote? && FindEnd(c, p + CharLen(k.x)).end == end
    ensures k.Two? ==>
              && PairIs(k.x, k.y, k.bytes) == true && CharStands(c, p, k.x) == true && CharStands(c, p + 6, k.y) == true
              && d == k.bytes + rest && Decode(c, p + 12, end) == Some(rest)
              && FindEnd(c, p + 12).Quote? && FindEnd(c, p + 12).end == end
  {
    var r;
    r, rest := EscapeTaken(c, p, end, d);
    if c[p + 1] != SMALL_U {
      ShortTaken(c, p, end, r);
      k := One(Short(c[p + 1]), r.bytes);
      FindEndChar(c, p, k.x);
    } else {
      k := LiteralKind(c, p, end, r);
      if k.Torn? { assert d[0] == 0; }
    }
  }

  lemma LiteralKind(c: seq<byte>, p: nat, end: nat, r: Piece) returns (k: Escape)
    requires FindEnd(c, p).Quote? && FindEnd(c, p).end == end && p < end && c[p] == BACKSLASH && c[p + 1] == SMALL_U
    requires Unescape(c, p, end) == r && r.Piece?
    ensures k.Torn? ==> Broken(c, p) && r.bytes == [0]
    ensures k.One? ==>
              && r == Piece(k.bytes, 6) && CharIs(k.x, k.bytes) == true && CharStands(c, p, k.x) == true
              && CharLen(k.x) == 6 && FindEnd(c, p + 6).Quote? && FindEnd(c, p + 6).end == end
    ensures k.Two? ==>
              && r == Piece(k.bytes, 12) && PairIs(k.x, k.y, k.bytes) == true
              && CharStands(c, p, k.x) == true && CharStands(c, p + 6, k.y) == true
              && FindEnd(c, p + 12).Quote? && FindEnd(c, p + 12).end == end
  {
    var u, next := UnitTaken(c, p, end, r);
    var x := Unit(c[p + 2..p + 6]);
    HexTaken(c, p + 2);
    if !ProperChar(x) {
      k := Torn;
    } else {
      FindEndChar(c, p, x);
      if r.length == 6 {
        k := One(x, r.bytes);
      } else {
        var y := SecondTaken(c, p + 6, end, next);
        k := Two(x, y, r.bytes);
      }
    }
  }

  lemma BrokenTaken(c: seq<byte>, p: nat, end: nat, d: seq<byte>)
    requires Broken(c, p) && p <= end && UpToZero(d) == []
    ensures Reads(c, p, end, d, [], p) == true
  {
  }

  lemma SecondTaken(c: seq<byte>, p: nat, end: nat, next: nat) returns (y: Char)
    requires FindEnd(c, p).Quote? && FindEnd(c, p).end == end && p + 6 <= end && next > 0
    requires c[p] == BACKSLASH && c[p + 1] == SMALL_U && next == Hex4(c, p + 2)
    ensures y.Unit? && ProperChar(y) && CharStands(c, p, y) && UnitOf(y.digits) == next
    ensures FindEnd(c, p + 6).Quote? && FindEnd(c, p + 6).end == end
  {
    y := Unit(c[p + 2..p + 6]);
    HexTaken(c, p + 2);
    FindEndChar(c, p, y);
  }

  /** A string that is taken stands there in characters of the grammar, control characters besides, up to its
      closing quote, or up to the first \u without four hexadecimal digits, where its value is cut off. */
  lemma StringTaken(c: seq<byte>, at: nat) returns (chars: seq<Char>, q: nat)
    requires ParseString(c, at).StringAt?
    ensures c[at] == 0x22 && AllReadable(chars) && CharsEnd(c, at + 1, chars, 0) == End(q)
    ensures var r := ParseString(c, at);
            && q < r.end && c[r.end - 1] == 0x22 && (q == r.end - 1 || Broken(c, q))
            && Decoded(chars, 0).Some? && r.s == UpToZero(Decoded(chars, 0).value)
  {
    var end := FindEnd(c, at + 1).end;
    var d := Decode(c, at + 1, end).value;
    chars, q := CharsTaken(c, at + 1, end, d);
    HeldUpToZero(d);
  }

  // ---- trees ----

  /** The first position from `p` on that holds no byte up to the space, or the end. */
  function Ink(c: seq<byte>, p: nat): (q: nat)
    requires p <= |c|
    ensures p <= q <= |c| && (q < |c| ==> c[q] > 0x20)
    decreases |c| - p
  {
    if p < |c| && c[p] <= 0x20 then Ink(c, p + 1) else p
  }

  /** Where the text of `v` ends if one stands at `at`: its brackets, braces, commas and colons are all there, and
      nothing but white space besides. */
  function TextEnd(c: seq<byte>, at: nat, v: Value): (r: End)
    ensures r.End? ==> at < r.at <= |c| && c[at] > 0x20
    decreases v, 0
  {
    if at >= |c| then Nowhere
    else
      match v
      case Null => if Starts(c, at, [0x6E, 0x75, 0x6C, 0x6C]) then End(at + 4) else Nowhere
      case False => if Starts(c, at, [0x66, 0x61, 0x6C, 0x73, 0x65]) then End(at + 5) else Nowhere
      case True => if Starts(c, at, [0x74, 0x72, 0x75, 0x65]) then End(at + 4) else Nowhere
      case Number(x) => NumberEnd(c, at, x)
      case String(s) => TextOfString(c, at, s)
      case Array(items) => if c[at] == 0x5B then ArrayEnd(c, at + 1, items) else Nowhere
      case Object(members) => if c[at] == 0x7B then ObjectEnd(c, at + 1, members) else Nowhere
  }

  function NumberEnd(c: seq<byte>, at: nat, x: real): (r: End)
    requires at < |c|
    ensures r.End? ==> at < r.at <= |c| && c[at] > 0x20
  {
    var r := ParseNumber(c, at);
    if (c[at] == 0x2D || 0x30 <= c[at] <= 0x39) && r.NumberAt? && r.value == x then End(r.end) else Nowhere
  }

  function TextOfString(c: seq<byte>, at: nat, s: seq<byte>): (r: End)
    requires at < |c|
    ensures r.End? ==> at < r.at <= |c| && c[at] > 0x20
  {
    var r := ParseString(c, at);
    if r.StringAt? && r.s == s then End(r.end) else Nowhere
  }

  /** The rest of an array, from behind the bracket. */
  function ArrayEnd(c: seq<byte>, p: nat, items: Items): (r: End)
    requires p <= |c|
    ensures r.End? ==> p < r.at <= |c|
    decreases items, 2
  {
    if items.NoItems? then ClosedAt(c, Ink(c, p), 0x5D) else ItemsEnd(c, p, items)
  }

  function ClosedAt(c: seq<byte>, q: nat, b: byte): (r: End)
    ensures r.End? ==> q < r.at <= |c|
  {
    if Is(c, q, b) then End(q + 1) else Nowhere
  }

  /** One item or more, and the closing bracket. */
  function ItemsEnd(c: seq<byte>, p: nat, items: Items): (r: End)
    requires p <= |c|
    ensures r.End? ==> p < r.at <= |c|
    decreases items, 0
  {
    if items.NoItems? then Nowhere
    else
      var e := TextEnd(c, Ink(c, p), items.head);
      if e.Nowhere? then Nowhere else MoreItemsEnd(c, Ink(c, e.at), items.tail)
  }

  function MoreItemsEnd(c: seq<byte>, q: nat, items: Items): (r: End)
    ensures r.End? ==> q < r.at <= |c|
    decreases items, 1
  {
    if items.NoItems? then ClosedAt(c, q, 0x5D) else if Is(c, q, 0x2C) then ItemsEnd(c, q + 1, items) else Nowhere
  }

  function ObjectEnd(c: seq<byte>, p: nat, ms: Members): (r: End)
    requires p <= |c|
    ensures r.End? ==> p < r.at <= |c|
    decreases ms, 2
  {
    if ms.NoMembers? then ClosedAt(c, Ink(c, p), 0x7D) else MembersEnd(c, p, ms)
  }

  /** A key and the colon behind it. */
  function NamedAt(c: seq<byte>, p: nat, key: seq<byte>): (r: End)
    requires p <= |c|
    ensures r.End? ==> p < r.at <= |c|
  {
    var q := Ink(c, p);
    if q == |c| then Nowhere
    else
      var e := TextOfString(c, q, key);
      if e.Nowhere? then Nowhere else ClosedAt(c, Ink(c, e.at), 0x3A)
  }

  /** One member or more, and the closing brace. */
  function MembersEnd(c: seq<byte>, p: nat, ms: Members): (r: End)
    requires p <= |c|
    ensures r.End? ==> p < r.at <= |c|
    decreases ms, 0
  {
    if ms.NoMembers? then Nowhere
    else
      var a := NamedAt(c, p, ms.key);
      if a.Nowhere? then Nowhere
      else
        var e := TextEnd(c, Ink(c, a.at), ms.value);
        if e.Nowhere? then Nowhere else MoreMembersEnd(c, Ink(c, e.at), ms.rest)
  }

  function MoreMembersEnd(c: seq<byte>, q: nat, ms: Members): (r: End)
    ensures r.End? ==> q < r.at <= |c|
    decreases ms, 1
  {
    if ms.NoMembers? then ClosedAt(c, q, 0x7D) else if Is(c, q, 0x2C) then MembersEnd(c, q + 1, ms) else Nowhere
  }

  lemma {:induction false} BlankIsInk(c: seq<byte>, p: nat)
    requires p <= |c|
    ensures Blank(c, p) == Ink(c, p)
    decreases |c| - p
  {
    if p == |c| || c[p] > 0x20 {
    } else {
      BlankIsInk(c, p + 1);
    }
  }

  /** Where the parser goes on: at the ink, or, if there is none, on white space, where nothing can follow. */
  lemma SkipIsInk(c: seq<byte>, p: nat)
    requires p <= |c|
    ensures Ink(c, p) < |c| ==> Skip(c, p) == Ink(c, p)
    ensures Ink(c, p) == |c| ==> Skip(c, p) < |c| ==> c[Skip(c, p)] <= 0x20
  {
    BlankIsInk(c, p);
    BlankStops(c, p);
  }

  lemma {:induction false} InkTwice(c: seq<byte>, p: nat, q: nat)
    requires p <= |c| && p <= q <= Ink(c, p)
    ensures Ink(c, q) == Ink(c, p)
    decreases q - p
  {
    if p == q {
    } else {
      InkTwice(c, p + 1, q);
    }
  }

  lemma NoValueOnBlank(c: seq<byte>, at: nat, depth: nat)
    requires at < |c| ==> c[at] <= 0x20
    ensures ParseValue(c, at, depth) == NoValue
  {
  }

  /** A value behind white space. */
  lemma ValueBehind(c: seq<byte>, p: nat, depth: nat) returns (q: nat)
    requires p <= |c|
    ensures q == Ink(c, p) && p <= q <= |c|
    ensures q < |c| ==> ParseValue(c, Skip(c, p), depth) == ParseValue(c, q, depth)
    ensures q == |c| ==> ParseValue(c, Skip(c, p), depth) == NoValue
  {
    q := Ink(c, p);
    SkipIsInk(c, p);
    if q == |c| { NoValueOnBlank(c, Skip(c, p), depth); }
  }

  // ---- what is parsed stands there ----

  lemma {:induction false} Sound(c: seq<byte>, at: nat, depth: nat, v: Value, e: nat)
    requires depth <= 1000 && ParseValue(c, at, depth) == ValueAt(v, e)
    ensures TextEnd(c, at, v) == End(e) && depth + Nesting(v) <= 1000
    decreases |c| - at, 2
  {
    if v.Array? {
      SoundArray(c, at, depth, v.items, e);
    } else if v.Object? {
      SoundObject(c, at, depth, v.members, e);
    }
  }

  lemma {:induction false} SoundArray(c: seq<byte>, at: nat, depth: nat, items: Items, e: nat)
    requires Is(c, at, OPEN_BRACKET) && depth <= 1000 && ParseArray(c, at, depth) == ValueAt(Array(items), e)
    ensures ArrayEnd(c, at + 1, items) == End(e) && depth + 1 + NestingItems(items) <= 1000
    decreases |c| - at, 1
  {
    var p := Skip(c, at + 1);
    SkipIsInk(c, at + 1);
    if !Is(c, p, CLOSE_BRACKET) {
      SoundItems(c, p, depth + 1, items, e);
      SkippedItems(c, at + 1, p, items);
    }
  }

  lemma SkippedItems(c: seq<byte>, p: nat, q: nat, items: Items)
    requires p <= |c| && q == Skip(c, p) <= |c|
    ensures ItemsEnd(c, p, items) == ItemsEnd(c, q, items)
  {
    BlankIsInk(c, p);
    InkTwice(c, p, q);
  }

  lemma {:induction false} SoundItems(c: seq<byte>, p: nat, depth: nat, items: Items, e: nat)
    requires p <= |c| && depth <= 1000 && ParseItems(c, p, depth) == ItemsAt(items, e)
    ensures ItemsEnd(c, p, items) == End(e) && depth + NestingItems(items) <= 1000 && items.Item?
    decreases |c| - p, 3
  {
    var q := ValueBehind(c, p, depth);
    var v := ParseValue(c, q, depth);
    Sound(c, q, depth, v.value, v.end);
    SkipIsInk(c, v.end);
    SoundMoreItems(c, Skip(c, v.end), depth, items.tail, e);
  }

  lemma {:induction false} SoundMoreItems(c: seq<byte>, q: nat, depth: nat, items: Items, e: nat)
    requires depth <= 1000 && MoreItems(c, q, depth) == ItemsAt(items, e)
    ensures q < |c| && c[q] > 0x20 && MoreItemsEnd(c, q, items) == End(e) && depth + NestingItems(items) <= 1000
    decreases |c| - q, 0
  {
    if Is(c, q, COMMA) { SoundItems(c, q + 1, depth, items, e); }
  }

  lemma {:induction false} SoundObject(c: seq<byte>, at: nat, depth: nat, ms: Members, e: nat)
    requires Is(c, at, OPEN_BRACE) && depth <= 1000 && ParseObject(c, at, depth) == ValueAt(Object(ms), e)
    ensures ObjectEnd(c, at + 1, ms) == End(e) && depth + 1 + NestingMembers(ms) <= 1000
    decreases |c| - at, 1
  {
    var p := Skip(c, at + 1);
    SkipIsInk(c, at + 1);
    if !Is(c, p, CLOSE_BRACE) {
      SoundMembers(c, p, depth + 1, ms, e);
      SkippedMembers(c, at + 1, p, ms);
    }
  }

  lemma SkippedMembers(c: seq<byte>, p: nat, q: nat, ms: Members)
    requires p <= |c| && q == Skip(c, p) <= |c|
    ensures MembersEnd(c, p, ms) == MembersEnd(c, q, ms)
  {
    BlankIsInk(c, p);
    InkTwice(c, p, q);
  }

  lemma SoundKey(c: seq<byte>, p: nat, key: seq<byte>, a: nat)
    requires p <= |c| && ParseKey(c, p) == StringAt(key, a)
    ensures NamedAt(c, p, key) == End(a)
  {
    SkipIsInk(c, p);
    SkipIsInk(c, ParseString(c, Skip(c, p)).end);
  }

  lemma {:induction false} SoundMembers(c: seq<byte>, p: nat, depth: nat, ms: Members, e: nat)
    requires p <= |c| && depth <= 1000 && ParseMembers(c, p, depth) == MembersAt(ms, e)
    ensures MembersEnd(c, p, ms) == End(e) && depth + NestingMembers(ms) <= 1000 && ms.Member?
    decreases |c| - p, 4
  {
    var m := ParseMember(c, p, depth);
    var a := ParseKey(c, p).end;
    SoundKey(c, p, m.key, a);
    var q := ValueBehind(c, a, depth);
    Sound(c, q, depth, m.value, m.end);
    SkipIsInk(c, m.end);
    SoundMoreMembers(c, Skip(c, m.end), depth, ms.rest, e);
  }

  lemma {:induction false} SoundMoreMembers(c: seq<byte>, q: nat, depth: nat, ms: Members, e: nat)
    requires depth <= 1000 && MoreMembers(c, q, depth) == MembersAt(ms, e)
    ensures q < |c| && c[q] > 0x20 && MoreMembersEnd(c, q, ms) == End(e) && depth + NestingMembers(ms) <= 1000
    decreases |c| - q, 0
  {
    if Is(c, q, COMMA) { SoundMembers(c, q + 1, depth, ms, e); }
  }

  // ---- what stands there is parsed ----

  lemma Literals(c: seq<byte>, at: nat, depth: nat)
    requires at < |c|
    ensures Starts(c, at, [0x6E, 0x75, 0x6C, 0x6C]) ==> ParseValue(c, at, depth) == ValueAt(Null, at + 4)
    ensures Starts(c, at, [0x66, 0x61, 0x6C, 0x73, 0x65]) ==> ParseValue(c, at, depth) == ValueAt(False, at + 5)
    ensures Starts(c, at, [0x74, 0x72, 0x75, 0x65]) ==> ParseValue(c, at, depth) == ValueAt(True, at + 4)
  {
  }

  lemma {:induction false} Complete(c: seq<byte>, at: nat, depth: nat, v: Value, e: nat)
    requires depth + Nesting(v) <= 1000 && TextEnd(c, at, v) == End(e)
    ensures ParseValue(c, at, depth) == ValueAt(v, e)
    decreases v, 4
  {
    match v
    case Array(items) =>
      Brackets(c, at, depth);
      CompleteArray(c, at, depth, items, e);
    case Object(members) =>
      Brackets(c, at, depth);
      CompleteObject(c, at, depth, members, e);
    case _ => Literals(c, at, depth);
  }

  lemma Brackets(c: seq<byte>, at: nat, depth: nat)
    ensures Is(c, at, OPEN_BRACKET) ==> ParseValue(c, at, depth) == ParseArray(c, at, depth)
    ensures Is(c, at, OPEN_BRACE) ==> ParseValue(c, at, depth) == ParseObject(c, at, depth)
  {
  }

  lemma {:induction false} CompleteArray(c: seq<byte>, at: nat, depth: nat, items: Items, e: nat)
    requires Is(c, at, OPEN_BRACKET) && depth + 1 + NestingItems(items) <= 1000 && ArrayEnd(c, at + 1, items) == End(e)
    ensures ParseArray(c, at, depth) == ValueAt(Array(items), e)
    decreases items, 3
  {
    var p := Skip(c, at + 1);
    SkipIsInk(c, at + 1);
    if items.Item? {
      SkippedItems(c, at + 1, p, items);
      ItemFirst(c, p, items);
      CompleteItems(c, p, depth + 1, items, e);
    }
  }

  lemma ItemFirst(c: seq<byte>, p: nat, items: Items)
    requires p <= |c| && items.Item? && ItemsEnd(c, p, items).End? && (p < |c| && c[p] <= 0x20 ==> p == |c| - 1)
    ensures !Is(c, p, CLOSE_BRACKET)
  {
  }

  lemma {:induction false} CompleteItems(c: seq<byte>, p: nat, depth: nat, items: Items, e: nat)
    requires p <= |c| && depth + NestingItems(items) <= 1000 && ItemsEnd(c, p, items) == End(e)
    ensures ParseItems(c, p, depth) == ItemsAt(items, e)
    decreases items, 1
  {
    var q := ValueBehind(c, p, depth);
    var x := TextEnd(c, q, items.head).at;
    Complete(c, q, depth, items.head, x);
    SkipIsInk(c, x);
    CompleteMoreItems(c, Ink(c, x), depth, items.tail, e);
  }

  lemma {:induction false} CompleteMoreItems(c: seq<byte>, q: nat, depth: nat, items: Items, e: nat)
    requires depth + NestingItems(items) <= 1000 && MoreItemsEnd(c, q, items) == End(e)
    ensures MoreItems(c, q, depth) == ItemsAt(items, e)
    decreases items, 2
  {
    if items.Item? { CompleteItems(c, q + 1, depth, items, e); }
  }

  lemma {:induction false} CompleteObject(c: seq<byte>, at: nat, depth: nat, ms: Members, e: nat)
    requires Is(c, at, OPEN_BRACE) && depth + 1 + NestingMembers(ms) <= 1000 && ObjectEnd(c, at + 1, ms) == End(e)
    ensures ParseObject(c, at, depth) == ValueAt(Object(ms), e)
    decreases ms, 3
  {
    var p := Skip(c, at + 1);
    SkipIsInk(c, at + 1);
    if ms.Member? {
      SkippedMembers(c, at + 1, p, ms);
      MemberFirst(c, p, ms);
      CompleteMembers(c, p, depth + 1, ms, e);
    }
  }

  lemma MemberFirst(c: seq<byte>, p: nat, ms: Members)
    requires p <= |c| && ms.Member? && MembersEnd(c, p, ms).End?
    ensures !Is(c, p, CLOSE_BRACE)
  {
  }

  lemma CompleteKey(c: seq<byte>, p: nat, key: seq<byte>, a: nat)
    requires p <= |c| && NamedAt(c, p, key) == End(a)
    ensures ParseKey(c, p) == StringAt(key, a)
  {
    SkipIsInk(c, p);
    SkipIsInk(c, TextOfString(c, Ink(c, p), key).at);
  }

  lemma {:induction false} CompleteMembers(c: seq<byte>, p: nat, depth: nat, ms: Members, e: nat)
    requires p <= |c| && depth + NestingMembers(ms) <= 1000 && MembersEnd(c, p, ms) == End(e)
    ensures ParseMembers(c, p, depth) == MembersAt(ms, e)
    decreases ms, 1
  {
    var a := NamedAt(c, p, ms.key).at;
    CompleteKey(c, p, ms.key, a);
    var q := ValueBehind(c, a, depth);
    var x := TextEnd(c, q, ms.value).at;
    Complete(c, q, depth, ms.value, x);
    SkipIsInk(c, x);
    CompleteMoreMembers(c, Ink(c, x), depth, ms.rest, e);
  }

  lemma {:induction false} CompleteMoreMembers(c: seq<byte>, q: nat, depth: nat, ms: Members, e: nat)
    requires depth + NestingMembers(ms) <= 1000 && MoreMembersEnd(c, q, ms) == End(e)
    ensures MoreMembers(c, q, depth) == MembersAt(ms, e)
    decreases ms, 2
  {
    if ms.Member? { CompleteMembers(c, q + 1, depth, ms, e); }
  }

  /** The parser takes a value exactly where a text of it stands that is not nested too deeply: nothing that lacks
      a comma, a colon or a closing bracket, or has one too many, is ever taken. */
  lemma ValueTaken(c: seq<byte>, at: nat, depth: nat, v: Value, e: nat)
    requires depth <= 1000
    ensures ParseValue(c, at, depth) == ValueAt(v, e) <==> TextEnd(c, at, v) == End(e) && depth + Nesting(v) <= 1000
  {
    if ParseValue(c, at, depth) == ValueAt(v, e) { Sound(c, at, depth, v, e); }
    if TextEnd(c, at, v) == End(e) && depth + Nesting(v) <= 1000 { Complete(c, at, depth, v, e); }
  }
}
