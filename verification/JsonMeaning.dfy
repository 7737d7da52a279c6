/** The value a JSON text stands for, read off its syntax. What the parser refuses has none: half a surrogate pair,
    a number of more than 63 characters, and anything around these. */
module JsonMeaning {
  import opened JobTypes
  import opened Bytes
  import opened JsonStrings
  import opened JsonTree
  import opened JsonGrammar

  // ---- strings ----

  /** The value of four hexadecimal digits. */
  function UnitOf(digits: seq<byte>): (u: nat)
    ensures u < 0x10000
  {
    if !ProperChar(Unit(digits)) then 0
    else ((HexOf(digits[0]) * 16 + HexOf(digits[1])) * 16 + HexOf(digits[2])) * 16 + HexOf(digits[3])
  }

  /** The byte behind a short escape. */
  function ShortOf(letter: byte): byte {
    if letter == 'b' as int then 0x08
    else if letter == 'f' as int then 0x0C
    else if letter == 'n' as int then 0x0A
    else if letter == 'r' as int then 0x0D
    else if letter == 't' as int then 0x09
    else letter
  }

  function Before(bytes: seq<byte>, rest: Option<seq<byte>>): Option<seq<byte>> {
    if rest.None? then None else Some(bytes + rest.value)
  }

  predicate IsLow(x: Char) { x.Unit? && 0xDC00 <= UnitOf(x.digits) <= 0xDFFF }

  /** The bytes the characters from `i` on stand for, in UTF-8; none if half a surrogate pair is among them. */
  function Decoded(chars: seq<Char>, i: nat): Option<seq<byte>>
    requires i <= |chars|
    decreases |chars| - i, 1
  {
    if i == |chars| then Some([])
    else
      match chars[i]
      case Plain(b) => Before([b], Decoded(chars, i + 1))
      case Short(letter) => Before([ShortOf(letter)], Decoded(chars, i + 1))
      case Unit(digits) => DecodedUnit(chars, i)
  }

  /** The same, where the first of them is a unit. */
  function DecodedUnit(chars: seq<Char>, i: nat): Option<seq<byte>>
    requires i < |chars| && chars[i].Unit?
    decreases |chars| - i, 0
  {
    var u := UnitOf(chars[i].digits);
    if u < 0xD800 || u > 0xDFFF then Before(Utf8(u), Decoded(chars, i + 1))
    else if u <= 0xDBFF && i + 1 < |chars| && IsLow(chars[i + 1])
    then Before(Utf8(0x10000 + (u - 0xD800) * 0x400 + (UnitOf(chars[i + 1].digits) - 0xDC00)), Decoded(chars, i + 2))
    else None
  }

  /** What a C string holds of it: the bytes before the first zero. */
  function UpToZero(s: seq<byte>): seq<byte> { if s == [] || s[0] == 0 then [] else [s[0]] + UpToZero(s[1..]) }

  // ---- numbers ----

  function DigitOf(b: byte): nat { if '0' as int <= b as int <= '9' as int then b as int - '0' as int else 0 }

  /** The value of a string of digits. */
  function Worth(t: seq<byte>): nat { if t == [] then 0 else 10 * Worth(t[..|t| - 1]) + DigitOf(t[|t| - 1]) }

  function Ten(n: nat): (x: real)
    ensures x > 0.0
  {
    if n == 0 then 1.0 else 10.0 * Ten(n - 1)
  }

  function Mantissa(n: Figures): real {
    var digits := if n.fraction.NoFraction? then [] else n.fraction.digits;
    var m := Worth(n.whole) as real + Worth(digits) as real / Ten(|digits|);
    if n.minus then -m else m
  }

  function Shifted(m: real, x: Exponent): real {
    if x.NoExponent? then m
    else if x.sign == [0x2D] then m / Ten(Worth(x.digits))
    else m * Ten(Worth(x.digits))
  }

  function ValueOf(n: Figures): real { Shifted(Mantissa(n), n.exponent) }

  // ---- trees ----

  datatype Sense = Nonsense | Sense(value: Value)

  datatype ItemsSense = NoItemsSense | ItemsSense(items: Items)

  datatype MembersSense = NoMembersSense | MembersSense(members: Members)

  function ArraySense(r: ItemsSense): Sense { if r.NoItemsSense? then Nonsense else Sense(Array(r.items)) }

  function ObjectSense(r: MembersSense): Sense { if r.NoMembersSense? then Nonsense else Sense(Object(r.members)) }

  function Meaning(x: Syntax): Sense {
    match x
    case NullWord => Sense(Null)
    case FalseWord => Sense(False)
    case TrueWord => Sense(True)
    case Num(figures) => if |SpellFigures(figures)| > 63 then Nonsense else Sense(Number(ValueOf(figures)))
    case Str(chars) =>
      if Decoded(chars, 0).None? then Nonsense else Sense(String(UpToZero(Decoded(chars, 0).value)))
    case Arr(_, elements) => ArraySense(ElementsMeaning(elements))
    case Obj(_, pairs) => ObjectSense(PairsMeaning(pairs))
  }

  function ElementsMeaning(x: Elements): ItemsSense {
    if x.NoElements? then ItemsSense(NoItems)
    else
      var v, r := Meaning(x.value), ElementsMeaning(x.rest);
      if v.Nonsense? || r.NoItemsSense? then NoItemsSense else ItemsSense(Item(v.value, r.items))
  }

  function PairsMeaning(x: Pairs): MembersSense {
    if x.NoPairs? then MembersSense(NoMembers)
    else
      var key, v, r := Decoded(x.key, 0), Meaning(x.value), PairsMeaning(x.rest);
      if key.None? || v.Nonsense? || r.NoMembersSense? then NoMembersSense
      else MembersSense(Member(UpToZero(key.value), v.value, r.members))
  }

  /** How many arrays and objects lie inside one another. */
  function Depth(x: Syntax): nat {
    match x
    case Arr(_, elements) => 1 + ElementsDepth(elements)
    case Obj(_, pairs) => 1 + PairsDepth(pairs)
    case _ => 0
  }

  function ElementsDepth(x: Elements): nat {
    if x.NoElements? then 0 else Max(Depth(x.value), ElementsDepth(x.rest))
  }

  function PairsDepth(x: Pairs): nat { if x.NoPairs? then 0 else Max(Depth(x.value), PairsDepth(x.rest)) }
}
