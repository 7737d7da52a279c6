/** The grammar of JSON texts, sections 2 to 7 of RFC 8259, on bytes: a tree of syntax with all its white space,
    and how it is spelled. That the bytes from 128 on form UTF-8 is not asked for. */
module JsonGrammar {
  import opened Bytes

  /** One character of a string: as it is, by an escape of two characters, or by four hexadecimal digits. */
  datatype Char = Plain(b: byte) | Short(letter: byte) | Unit(digits: seq<byte>)

  datatype Exponent = NoExponent | Exponent(mark: byte, sign: seq<byte>, digits: seq<byte>)

  datatype Fraction = NoFraction | Fraction(digits: seq<byte>)

  datatype Figures = Figures(minus: bool, whole: seq<byte>, fraction: Fraction, exponent: Exponent)

  datatype Syntax =
    | NullWord
    | FalseWord
    | TrueWord
    | Num(figures: Figures)
    | Str(chars: seq<Char>)
    | Arr(blank: seq<byte>, elements: Elements)
    | Obj(blank: seq<byte>, pairs: Pairs)

  /** The values of an array, each with the white space around it. */
  datatype Elements = NoElements | Element(before: seq<byte>, value: Syntax, after: seq<byte>, rest: Elements)

  /** The members of an object, with the white space around key and value. */
  datatype Pairs =
    | NoPairs
    | Pair(before: seq<byte>, key: seq<Char>, gap: seq<byte>, behind: seq<byte>, value: Syntax, after: seq<byte>,
           rest: Pairs)

  // ---- what is allowed ----

  predicate IsBlank(t: seq<byte>) { forall i :: 0 <= i < |t| ==> t[i] in {0x20, 0x09, 0x0A, 0x0D} }

  predicate AreDigits(t: seq<byte>) { forall i :: 0 <= i < |t| ==> '0' as int <= t[i] as int <= '9' as int }

  /** The digit a hexadecimal digit stands for. */
  function HexOf(b: byte): int {
    if '0' as int <= b as int <= '9' as int then b as int - '0' as int
    else if 'A' as int <= b as int <= 'F' as int then b as int - 'A' as int + 10
    else if 'a' as int <= b as int <= 'f' as int then b as int - 'a' as int + 10
    else -1
  }

  predicate ProperChar(x: Char) {
    match x
    case Plain(b) => b >= 0x20 && b != 0x22 && b != 0x5C
    case Short(letter) => letter in {0x22, 0x5C, 0x2F, 0x62, 0x66, 0x6E, 0x72, 0x74}
    case Unit(digits) => |digits| == 4 && forall i :: 0 <= i < 4 ==> HexOf(digits[i]) >= 0
  }

  predicate ProperChars(chars: seq<Char>) { forall i :: 0 <= i < |chars| ==> ProperChar(chars[i]) }

  predicate ProperFraction(x: Fraction) { x.Fraction? ==> x.digits != [] && AreDigits(x.digits) }

  predicate ProperExponent(x: Exponent) {
    x.NoExponent? || (x.mark in {0x65, 0x45} && x.sign in [[], [0x2B], [0x2D]] && x.digits != [] && AreDigits(x.digits))
  }

  /** No number but zero begins with a zero. */
  predicate ProperFigures(n: Figures) {
    && n.whole != [] && AreDigits(n.whole) && (n.whole[0] == 0x30 ==> |n.whole| == 1)
    && ProperFraction(n.fraction) && ProperExponent(n.exponent)
  }

  predicate Proper(x: Syntax) {
    match x
    case Num(figures) => ProperFigures(figures)
    case Str(chars) => ProperChars(chars)
    case Arr(blank, elements) => IsBlank(blank) && ProperElements(elements)
    case Obj(blank, pairs) => IsBlank(blank) && ProperPairs(pairs)
    case _ => true
  }

  predicate ProperElements(x: Elements) {
    x.Element? ==> IsBlank(x.before) && Proper(x.value) && IsBlank(x.after) && ProperElements(x.rest)
  }

  predicate ProperPairs(x: Pairs) {
    x.Pair? ==>
      && IsBlank(x.before) && ProperChars(x.key) && IsBlank(x.gap) && IsBlank(x.behind) && Proper(x.value)
      && IsBlank(x.after) && ProperPairs(x.rest)
  }

  // ---- spelling ----

  function SpellChar(x: Char): seq<byte> {
    match x
    case Plain(b) => [b]
    case Short(letter) => [0x5C, letter]
    case Unit(digits) => [0x5C, 0x75] + digits
  }

  function SpellChars(chars: seq<Char>): seq<byte> {
    if chars == [] then [] else SpellChar(chars[0]) + SpellChars(chars[1..])
  }

  function SpellString(chars: seq<Char>): seq<byte> { [0x22] + SpellChars(chars) + [0x22] }

  function SpellFraction(x: Fraction): seq<byte> { if x.NoFraction? then [] else [0x2E] + x.digits }

  function SpellExponent(x: Exponent): seq<byte> { if x.NoExponent? then [] else [x.mark] + x.sign + x.digits }

  function SpellFigures(n: Figures): seq<byte> {
    (if n.minus then [0x2D] else []) + n.whole + SpellFraction(n.fraction) + SpellExponent(n.exponent)
  }

  function Spell(x: Syntax): seq<byte>
    decreases x, 0
  {
    match x
    case NullWord => [0x6E, 0x75, 0x6C, 0x6C]
    case FalseWord => [0x66, 0x61, 0x6C, 0x73, 0x65]
    case TrueWord => [0x74, 0x72, 0x75, 0x65]
    case Num(figures) => SpellFigures(figures)
    case Str(chars) => SpellString(chars)
    case Arr(blank, elements) => [0x5B] + (blank + SpellElements(elements)) + [0x5D]
    case Obj(blank, pairs) => [0x7B] + (blank + SpellPairs(pairs)) + [0x7D]
  }

  function SpellElement(x: Elements): seq<byte>
    requires x.Element?
    decreases x, 0
  {
    x.before + Spell(x.value) + x.after
  }

  function SpellElements(x: Elements): seq<byte>
    decreases x, 1
  {
    if x.NoElements? then []
    else SpellElement(x) + (if x.rest.NoElements? then [] else [0x2C] + SpellElements(x.rest))
  }

  function SpellPair(x: Pairs): seq<byte>
    requires x.Pair?
    decreases x, 0
  {
    (x.before + SpellString(x.key) + x.gap + [0x3A]) + (x.behind + Spell(x.value) + x.after)
  }

  function SpellPairs(x: Pairs): seq<byte>
    decreases x, 1
  {
    if x.NoPairs? then []
    else SpellPair(x) + (if x.rest.NoPairs? then [] else [0x2C] + SpellPairs(x.rest))
  }

  /** The text is a value with white space around it. */
  ghost predicate IsJson(t: seq<byte>) { exists a, x, b :: IsJsonOf(t, a, x, b) }

  predicate IsJsonOf(t: seq<byte>, a: seq<byte>, x: Syntax, b: seq<byte>) {
    IsBlank(a) && Proper(x) && IsBlank(b) && t == a + Spell(x) + b
  }
}
