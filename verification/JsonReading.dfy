/** The parser reads every JSON text as the value it stands for, exactly when it has one and no more than a
    thousand arrays and objects lie inside one another. */
module JsonReading {
  import opened Bytes
  import opened JsonStrings
  import opened JsonStringProofs
  import opened JsonNumbers
  import opened JsonTree
  import opened JsonParse
  import opened JsonGrammar
  import opened JsonMeaning
  import opened JsonStringReading
  import opened JsonNumberReading
  import opened JsonLayout

  /** What a parse gives when the nesting below it is `nesting`: the result, or nothing. */
  function ValueWithin(depth: nat, nesting: nat, m: Sense, e: nat): ValueAt {
    if m.Sense? && depth + nesting <= 1000 then ValueAt(m.value, e) else NoValue
  }

  function ItemsWithin(depth: nat, nesting: nat, m: ItemsSense, e: nat): ItemsAt {
    if m.ItemsSense? && depth + nesting <= 1000 then ItemsAt(m.items, e) else NoItemsAt
  }

  function MemberWithin(depth: nat, nesting: nat, key: StringAt, m: Sense, e: nat): MemberAt {
    if key.StringAt? && m.Sense? && depth + nesting <= 1000 then MemberAt(key.s, m.value, e) else NoMemberAt
  }

  function MembersWithin(depth: nat, nesting: nat, m: MembersSense, e: nat): MembersAt {
    if m.MembersSense? && depth + nesting <= 1000 then MembersAt(m.members, e) else NoMembersAt
  }

  /** A number that is too long for the parser. */
  predicate Long(x: Syntax) { x.Num? && |SpellFigures(x.figures)| > 63 }

  // ---- white space ----

  lemma {:induction false} BlankTo(c: seq<byte>, p: nat, q: nat)
    requires Blanks(c, p, q) && q < |c| && c[q] > 32
    ensures Blank(c, p) == q
    decreases q - p
  {
    if p >= q {
    } else {
      BlankTo(c, p + 1, q);
    }
  }

  lemma SkipTo(c: seq<byte>, p: nat, q: nat)
    requires Blanks(c, p, q) && q < |c| && c[q] > 32
    ensures Skip(c, p) == q
  {
    BlankTo(c, p, q);
  }

  // ---- leaves ----

  /** Where the literals, strings, arrays and objects begin. */
  lemma NotLiteral(c: seq<byte>, at: nat)
    requires at < |c| && c[at] != 0x6E && c[at] != 0x66 && c[at] != 0x74
    ensures !Starts(c, at, NULL_TEXT) && !Starts(c, at, FALSE_TEXT) && !Starts(c, at, TRUE_TEXT)
  {
  }

  lemma LiteralReads(c: seq<byte>, at: nat, depth: nat)
    ensures Starts(c, at, [0x6E, 0x75, 0x6C, 0x6C]) ==> ParseValue(c, at, depth) == ValueAt(Null, at + 4)
    ensures Starts(c, at, [0x66, 0x61, 0x6C, 0x73, 0x65]) ==> ParseValue(c, at, depth) == ValueAt(False, at + 5)
    ensures Starts(c, at, [0x74, 0x72, 0x75, 0x65]) ==> ParseValue(c, at, depth) == ValueAt(True, at + 4)
  {
  }

  lemma NumberTurn(c: seq<byte>, at: nat, depth: nat)
    requires at < |c| && (c[at] == MINUS || IsDigit(c[at]))
    ensures var r := ParseNumber(c, at);
            ParseValue(c, at, depth) == if r.NoNumber? then NoValue else ValueAt(Number(r.value), r.end)
  {
    NotLiteral(c, at);
  }

  lemma NumReads(c: seq<byte>, at: nat, n: Figures, e: nat, depth: nat)
    requires ProperFigures(n) && SyntaxEnd(c, at, Num(n)) == End(e)
    ensures |SpellFigures(n)| <= 63 && e < |c| && !IsNumberByte(c[e]) ==>
              ParseValue(c, at, depth) == ValueAt(Number(ValueOf(n)), e)
    ensures |SpellFigures(n)| > 63 ==>
              var r := ParseValue(c, at, depth); r.ValueAt? ==> at < r.end < e && IsNumberByte(c[r.end])
  {
    NumberBytes(n);
    StartsByte(c, at, SpellFigures(n), 0);
    NumberTurn(c, at, depth);
    if |SpellFigures(n)| > 63 {
      LongNumberReads(c, at, n);
    } else if e < |c| && !IsNumberByte(c[e]) {
      NumberReads(c, at, n);
    }
  }

  lemma StrReads(c: seq<byte>, at: nat, chars: seq<Char>, e: nat, depth: nat)
    requires ProperChars(chars) && StringEnd(c, at, chars) == End(e)
    ensures var r := StringWithin(chars, e);
            ParseValue(c, at, depth) == if r.NoString? then NoValue else ValueAt(String(r.s), r.end)
  {
    NotLiteral(c, at);
    StringReads(c, at, chars, e);
  }

  // ---- any value ----

  /** The text that stands from `at` to `e`, at any place of an input and at any depth. */
  lemma {:induction false} SyntaxReads(x: Syntax, c: seq<byte>, at: nat, e: nat, depth: nat)
    requires Proper(x) == true && !Long(x) && depth <= 1000 && SyntaxEnd(c, at, x) == End(e)
    requires e < |c| && !IsNumberByte(c[e])
    ensures ParseValue(c, at, depth) == ValueWithin(depth, Depth(x), Meaning(x), e)
    decreases x, 3
  {
    match x
    case NullWord => LiteralReads(c, at, depth);
    case FalseWord => LiteralReads(c, at, depth);
    case TrueWord => LiteralReads(c, at, depth);
    case Num(n) => NumReads(c, at, n, e, depth);
    case Str(chars) => StrReads(c, at, chars, e, depth);
    case Arr(blank, elements) => ArrReads(elements, c, at, blank, e, depth);
    case Obj(blank, pairs) => ObjReads(pairs, c, at, blank, e, depth);
  }

  /** The first byte of a text is no white space, and no bracket, brace or mark. */
  lemma SyntaxFirst(c: seq<byte>, at: nat, x: Syntax)
    requires Proper(x) == true && SyntaxEnd(c, at, x).End?
    ensures at < |c| && 32 < c[at] < 0x80 && c[at] != CLOSE_BRACKET
  {
    match x
    case Num(n) =>
      NumberBytes(n);
      StartsByte(c, at, SpellFigures(n), 0);
    case _ =>
  }

  /** What may follow a value. */
  predicate Closes(c: seq<byte>, r: nat) { Is(c, r, COMMA) || Is(c, r, CLOSE_BRACKET) || Is(c, r, CLOSE_BRACE) }

  /** The parser has stopped inside a number. */
  predicate Stuck(c: seq<byte>, v: ValueAt) {
    v.ValueAt? ==> v.end < |c| && IsNumberByte(c[v.end]) && Skip(c, v.end) == v.end
  }

  /** A value inside an array or object, with white space around it; a mark or a closing bracket stands at `r`. */
  lemma {:induction false} ValueReads(x: Syntax, c: seq<byte>, p: nat, q: nat, e: nat, r: nat, depth: nat)
    requires Proper(x) == true && depth <= 1000
    requires Blanks(c, p, q) && SyntaxEnd(c, q, x) == End(e) && Blanks(c, e, r) && Closes(c, r)
    ensures Skip(c, p) == q && Skip(c, e) == r
    ensures if Long(x) then Stuck(c, ParseValue(c, q, depth))
            else ParseValue(c, q, depth) == ValueWithin(depth, Depth(x), Meaning(x), e)
    decreases x, 4
  {
    SyntaxFirst(c, q, x);
    SkipTo(c, p, q);
    SkipTo(c, e, r);
    if Long(x) {
      NumReads(c, q, x.figures, e, depth);
      var v := ParseValue(c, q, depth);
      if v.ValueAt? { SkipTo(c, v.end, v.end); }
    } else {
      SyntaxReads(x, c, q, e, depth);
    }
  }

  // ---- arrays ----

  /** One turn of the loop of parse_array. */
  lemma ItemsTurn(c: seq<byte>, p: nat, q: nat, depth: nat, e: nat, r: nat, end: nat, here: nat, later: nat,
                  m: Sense, ms: ItemsSense)
    requires Skip(c, p) == q && Skip(c, e) == r
    requires ParseValue(c, q, depth) == ValueWithin(depth, here, m, e)
    requires MoreItems(c, r, depth) == ItemsWithin(depth, later, ms, end)
    ensures ParseItems(c, p, depth) ==
              ItemsWithin(depth, Max(here, later),
                          if m.Nonsense? || ms.NoItemsSense? then NoItemsSense
                          else ItemsSense(Item(m.value, ms.items)), end)
  {
  }

  /** A turn that is left inside a number. */
  lemma ItemsStuck(c: seq<byte>, p: nat, q: nat, depth: nat)
    requires Skip(c, p) == q && Stuck(c, ParseValue(c, q, depth))
    ensures ParseItems(c, p, depth) == NoItemsAt
  {
  }

  /** parse_array, when its loop is not reached. */
  lemma ArrayTurned(c: seq<byte>, at: nat, depth: nat, q: nat)
    requires Is(c, at, OPEN_BRACKET) && Skip(c, at + 1) == q && q < |c| && (depth >= 1000 || c[q] == CLOSE_BRACKET)
    ensures ParseValue(c, at, depth) == if depth >= 1000 then NoValue else ValueAt(Array(NoItems), q + 1)
  {
    NotLiteral(c, at);
  }

  /** parse_array, when its loop is reached. */
  lemma ArrayTurn(c: seq<byte>, at: nat, depth: nat, q: nat, r: ItemsAt)
    requires Is(c, at, OPEN_BRACKET) && Skip(c, at + 1) == q && q < |c| && c[q] != CLOSE_BRACKET && depth < 1000
    requires ParseItems(c, q, depth + 1) == r
    ensures ParseValue(c, at, depth) == if r.NoItemsAt? then NoValue else ValueAt(Array(r.items), r.end)
  {
    NotLiteral(c, at);
  }

  lemma {:induction false} ArrReads(x: Elements, c: seq<byte>, at: nat, blank: seq<byte>, e: nat, depth: nat)
    requires IsBlank(blank) && ProperElements(x) == true && depth <= 1000 && ArrEnd(c, at, blank, x) == End(e)
    ensures ParseValue(c, at, depth) == ValueWithin(depth, 1 + ElementsDepth(x), ArraySense(ElementsMeaning(x)), e)
    decreases x, 2
  {
    ArrUnfold(c, at, blank, x, e);
    var s := at + 1 + |blank|;
    var q := FirstItem(c, at, s, x, e - 1);
    if x.NoElements? || depth >= 1000 {
      ArrayTurned(c, at, depth, q);
    } else {
      var r := ItemsParsed(x, c, q, s, e - 1, depth + 1);
      ArrayTurn(c, at, depth, q, r);
    }
  }

  /** Where the parser stands in an array behind the bracket: at the first item, or at the closing bracket. */
  lemma FirstItem(c: seq<byte>, at: nat, s: nat, x: Elements, z: nat) returns (q: nat)
    requires ProperElements(x) == true && Blanks(c, at + 1, s) && ElementsEnd(c, s, x) == End(z)
    requires Is(c, z, CLOSE_BRACKET)
    ensures Skip(c, at + 1) == q && q < |c| && s <= q && (c[q] == CLOSE_BRACKET <==> x.NoElements?)
    ensures x.NoElements? ==> q == z
    ensures x.Element? ==> q == s + |x.before|
  {
    if x.NoElements? {
      q := z;
    } else {
      var e, r;
      q, e, r := ElementsUnfold(c, s, x, z);
      SyntaxFirst(c, q, x.value);
    }
    BlanksJoin(c, at + 1, s, q);
    SkipTo(c, at + 1, q);
  }

  lemma {:induction false} ItemsParsed(x: Elements, c: seq<byte>, p: nat, s: nat, z: nat, depth: nat)
      returns (r: ItemsAt)
    requires x.Element? && ProperElements(x) == true && depth <= 1000 && p == s + |x.before|
    requires ElementsEnd(c, s, x) == End(z) && Is(c, z, CLOSE_BRACKET)
    ensures r == ParseItems(c, p, depth) && r == ItemsWithin(depth, ElementsDepth(x), ElementsMeaning(x), z + 1)
    decreases x, 1
  {
    ItemsRead(x, c, p, s, z, depth);
    r := ParseItems(c, p, depth);
  }

  /** The items whose text begins at `s`. The parser stands at `p`, in the white space before the first of
      them; the closing bracket stands at `z`. */
  lemma {:induction false} ItemsRead(x: Elements, c: seq<byte>, p: nat, s: nat, z: nat, depth: nat)
    requires x.Element? && ProperElements(x) == true && depth <= 1000 && s <= p <= s + |x.before|
    requires ElementsEnd(c, s, x) == End(z) && Is(c, z, CLOSE_BRACKET)
    ensures ParseItems(c, p, depth) == ItemsWithin(depth, ElementsDepth(x), ElementsMeaning(x), z + 1)
    decreases x, 0
  {
    var q, e, r := ElementsUnfold(c, s, x, z);
    BlanksFrom(c, s, p, q);
    ValueReads(x.value, c, p, q, e, r, depth);
    if Long(x.value) {
      ItemsStuck(c, p, q, depth);
    } else {
      MoreItemsRead(x.rest, c, r, z, depth);
      ItemsTurn(c, p, q, depth, e, r, z + 1, Depth(x.value), ElementsDepth(x.rest), Meaning(x.value),
                ElementsMeaning(x.rest));
    }
  }

  /** The items that are left, when the parser stands at `r`: at the comma before them, or at the closing bracket. */
  lemma {:induction false} MoreItemsRead(x: Elements, c: seq<byte>, r: nat, z: nat, depth: nat)
    requires ProperElements(x) == true && depth <= 1000 && Is(c, z, CLOSE_BRACKET)
    requires x.NoElements? ==> r == z
    requires x.Element? ==> Is(c, r, COMMA) && ElementsEnd(c, r + 1, x) == End(z)
    ensures MoreItems(c, r, depth) == ItemsWithin(depth, ElementsDepth(x), ElementsMeaning(x), z + 1)
    decreases x, 1
  {
    if x.Element? { ItemsRead(x, c, r + 1, r + 1, z, depth); }
  }

  lemma {:induction false} BlanksFrom(c: seq<byte>, s: nat, p: nat, q: nat)
    requires Blanks(c, s, q) && s <= p <= q
    ensures Blanks(c, p, q)
    decreases q - s
  {
    if s == p {
    } else {
      BlanksFrom(c, s + 1, p, q);
    }
  }

  // ---- objects ----

  lemma KeyTurn(c: seq<byte>, p: nat, q: nat, key: StringAt, m: nat)
    requires Skip(c, p) == q && ParseString(c, q) == key && (key.StringAt? ==> Skip(c, key.end) == m && Is(c, m, COLON))
    ensures ParseKey(c, p) == if key.NoString? then NoString else StringAt(key.s, m + 1)
  {
  }

  /** The key of the member that stands at `s`. The parser stands at `p`, in the white space before it. */
  lemma KeyReads(c: seq<byte>, p: nat, s: nat, x: Pairs, a: nat) returns (m: nat)
    requires x.Pair? && ProperChars(x.key) && KeyEnd(c, s, x) == End(a) && s <= p <= s + |x.before|
    ensures ParseKey(c, p) == StringWithin(x.key, m) && Blanks(c, m, a)
  {
    var q, e;
    q, e, m := KeyUnfold(c, s, x, a);
    BlanksFrom(c, s, p, q);
    SkipTo(c, p, q);
    StringReads(c, q, x.key, e);
    SkipTo(c, e, m);
    KeyTurn(c, p, q, StringWithin(x.key, e), m);
    m := m + 1;
  }

  lemma MemberTurn(c: seq<byte>, p: nat, depth: nat, key: StringAt, a: nat, nesting: nat, m: Sense, e: nat)
    requires ParseKey(c, p) == key
    requires key.StringAt? ==> Skip(c, key.end) == a && ParseValue(c, a, depth) == ValueWithin(depth, nesting, m, e)
    ensures ParseMember(c, p, depth) == MemberWithin(depth, nesting, key, m, e)
  {
  }

  /** One turn of the loop of parse_object. */
  lemma MembersTurn(c: seq<byte>, p: nat, depth: nat, e: nat, r: nat, end: nat, here: nat, later: nat, key: StringAt,
                    m: Sense, ms: MembersSense)
    requires Skip(c, e) == r && ParseMember(c, p, depth) == MemberWithin(depth, here, key, m, e)
    requires MoreMembers(c, r, depth) == MembersWithin(depth, later, ms, end)
    ensures ParseMembers(c, p, depth) ==
              MembersWithin(depth, Max(here, later),
                            if key.NoString? || m.Nonsense? || ms.NoMembersSense? then NoMembersSense
                            else MembersSense(Member(key.s, m.value, ms.members)), end)
  {
  }

  /** A turn that is left inside a number. */
  lemma MembersStuck(c: seq<byte>, p: nat, depth: nat, key: StringAt, a: nat)
    requires ParseKey(c, p) == key && (key.StringAt? ==> Skip(c, key.end) == a && Stuck(c, ParseValue(c, a, depth)))
    ensures ParseMembers(c, p, depth) == NoMembersAt
  {
  }

  /** parse_object, when its loop is not reached. */
  lemma ObjectTurned(c: seq<byte>, at: nat, depth: nat, q: nat)
    requires Is(c, at, OPEN_BRACE) && Skip(c, at + 1) == q && q < |c| && (depth >= 1000 || c[q] == CLOSE_BRACE)
    ensures ParseValue(c, at, depth) == if depth >= 1000 then NoValue else ValueAt(Object(NoMembers), q + 1)
  {
    NotLiteral(c, at);
  }

  /** parse_object, when its loop is reached. */
  lemma ObjectTurn(c: seq<byte>, at: nat, depth: nat, q: nat, r: MembersAt)
    requires Is(c, at, OPEN_BRACE) && Skip(c, at + 1) == q && q < |c| && c[q] != CLOSE_BRACE && depth < 1000
    requires ParseMembers(c, q, depth + 1) == r
    ensures ParseValue(c, at, depth) == if r.NoMembersAt? then NoValue else ValueAt(Object(r.members), r.end)
  {
    NotLiteral(c, at);
  }

  lemma {:induction false} ObjReads(x: Pairs, c: seq<byte>, at: nat, blank: seq<byte>, e: nat, depth: nat)
    requires IsBlank(blank) && ProperPairs(x) == true && depth <= 1000 && ObjEnd(c, at, blank, x) == End(e)
    ensures ParseValue(c, at, depth) == ValueWithin(depth, 1 + PairsDepth(x), ObjectSense(PairsMeaning(x)), e)
    decreases x, 2
  {
    ObjUnfold(c, at, blank, x, e);
    var s := at + 1 + |blank|;
    var q := FirstKey(c, at, s, x, e - 1);
    if x.NoPairs? || depth >= 1000 {
      ObjectTurned(c, at, depth, q);
    } else {
      var r := MembersParsed(x, c, q, s, e - 1, depth + 1);
      ObjectTurn(c, at, depth, q, r);
    }
  }

  /** Where the parser stands in an object behind the brace: at the first key, or at the closing brace. */
  lemma FirstKey(c: seq<byte>, at: nat, s: nat, x: Pairs, z: nat) returns (q: nat)
    requires Blanks(c, at + 1, s) && PairsEnd(c, s, x) == End(z) && Is(c, z, CLOSE_BRACE)
    ensures Skip(c, at + 1) == q && q < |c| && (c[q] == CLOSE_BRACE <==> x.NoPairs?)
    ensures x.NoPairs? ==> q == z
    ensures x.Pair? ==> q == s + |x.before|
  {
    if x.NoPairs? {
      q := z;
    } else {
      var a, e, r := PairsUnfold(c, s, x, z);
      var k, m;
      q, k, m := KeyUnfold(c, s, x, a);
    }
    BlanksJoin(c, at + 1, s, q);
    SkipTo(c, at + 1, q);
  }

  lemma {:induction false} MembersParsed(x: Pairs, c: seq<byte>, p: nat, s: nat, z: nat, depth: nat)
      returns (r: MembersAt)
    requires x.Pair? && ProperPairs(x) == true && depth <= 1000 && p == s + |x.before|
    requires PairsEnd(c, s, x) == End(z) && Is(c, z, CLOSE_BRACE)
    ensures r == ParseMembers(c, p, depth) && r == MembersWithin(depth, PairsDepth(x), PairsMeaning(x), z + 1)
    decreases x, 1
  {
    MembersRead(x, c, p, s, z, depth);
    r := ParseMembers(c, p, depth);
  }

  /** The members whose text begins at `s`. The parser stands at `p`, in the white space before the first
      key; the closing brace stands at `z`. */
  lemma {:induction false} MembersRead(x: Pairs, c: seq<byte>, p: nat, s: nat, z: nat, depth: nat)
    requires x.Pair? && ProperPairs(x) == true && depth <= 1000 && s <= p <= s + |x.before|
    requires PairsEnd(c, s, x) == End(z) && Is(c, z, CLOSE_BRACE)
    ensures ParseMembers(c, p, depth) == MembersWithin(depth, PairsDepth(x), PairsMeaning(x), z + 1)
    decreases x, 0
  {
    var a, e, r := PairsUnfold(c, s, x, z);
    var m := KeyReads(c, p, s, x, a);
    var key := StringWithin(x.key, m);
    ValueReads(x.value, c, m, a, e, r, depth);
    if Long(x.value) {
      MembersStuck(c, p, depth, key, a);
    } else {
      MemberTurn(c, p, depth, key, a, Depth(x.value), Meaning(x.value), e);
      MoreMembersRead(x.rest, c, r, z, depth);
      MembersTurn(c, p, depth, e, r, z + 1, Depth(x.value), PairsDepth(x.rest), key, Meaning(x.value),
                  PairsMeaning(x.rest));
    }
  }

  /** The members that are left, when the parser stands at `r`: at the comma before them, or at the closing brace. */
  lemma {:induction false} MoreMembersRead(x: Pairs, c: seq<byte>, r: nat, z: nat, depth: nat)
    requires ProperPairs(x) == true && depth <= 1000 && Is(c, z, CLOSE_BRACE)
    requires x.NoPairs? ==> r == z
    requires x.Pair? ==> Is(c, r, COMMA) && PairsEnd(c, r + 1, x) == End(z)
    ensures MoreMembers(c, r, depth) == MembersWithin(depth, PairsDepth(x), PairsMeaning(x), z + 1)
    decreases x, 1
  {
    if x.Pair? { MembersRead(x, c, r + 1, r + 1, z, depth); }
  }
}
