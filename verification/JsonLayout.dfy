/** Where the parts of a spelled text stand in an input: what a reader needs to know of it. */
module JsonLayout {
  import opened Bytes
  import opened JsonStringProofs
  import opened JsonParse
  import opened JsonGrammar
  import opened JsonStringReading

  /** Nothing but white space stands from `p` to `q`. */
  predicate Blanks(c: seq<byte>, p: nat, q: nat)
    decreases q - p
  {
    p <= q <= |c| && (p < q ==> c[p] <= 32 && Blanks(c, p + 1, q))
  }

  /** Where the syntax `x` ends if it stands at `at` in its spelling. */
  function SyntaxEnd(c: seq<byte>, at: nat, x: Syntax): End
    decreases x, 0
  {
    match x
    case NullWord => if Starts(c, at, [0x6E, 0x75, 0x6C, 0x6C]) then End(at + 4) else Nowhere
    case FalseWord => if Starts(c, at, [0x66, 0x61, 0x6C, 0x73, 0x65]) then End(at + 5) else Nowhere
    case TrueWord => if Starts(c, at, [0x74, 0x72, 0x75, 0x65]) then End(at + 4) else Nowhere
    case Num(n) => if Starts(c, at, SpellFigures(n)) then End(at + |SpellFigures(n)|) else Nowhere
    case Str(chars) => StringEnd(c, at, chars)
    case Arr(blank, elements) => ArrEnd(c, at, blank, elements)
    case Obj(blank, pairs) => ObjEnd(c, at, blank, pairs)
  }

  function ArrEnd(c: seq<byte>, at: nat, blank: seq<byte>, x: Elements): End
    decreases x, 3
  {
    var s := at + 1 + |blank|;
    if !Is(c, at, OPEN_BRACKET) || !Blanks(c, at + 1, s) then Nowhere
    else
      var e := ElementsEnd(c, s, x);
      if e.End? && Is(c, e.at, CLOSE_BRACKET) then End(e.at + 1) else Nowhere
  }

  /** Where an item ends that stands at `p`, with the white space around it. */
  function ElementEnd(c: seq<byte>, p: nat, x: Elements): End
    requires x.Element?
    decreases x, 0
  {
    var q := p + |x.before|;
    var e := SyntaxEnd(c, q, x.value);
    if e.End? && Blanks(c, p, q) && Blanks(c, e.at, e.at + |x.after|) then End(e.at + |x.after|) else Nowhere
  }

  function ElementsEnd(c: seq<byte>, p: nat, x: Elements): End
    decreases x, 1
  {
    if x.NoElements? then End(p)
    else
      var r := ElementEnd(c, p, x);
      if r.Nowhere? then Nowhere else MoreEnd(c, r.at, x.rest)
  }

  function MoreEnd(c: seq<byte>, r: nat, x: Elements): End
    decreases x, 2
  {
    if x.NoElements? then End(r) else if Is(c, r, COMMA) then ElementsEnd(c, r + 1, x) else Nowhere
  }

  function ObjEnd(c: seq<byte>, at: nat, blank: seq<byte>, x: Pairs): End
    decreases x, 3
  {
    var s := at + 1 + |blank|;
    if !Is(c, at, OPEN_BRACE) || !Blanks(c, at + 1, s) then Nowhere
    else
      var e := PairsEnd(c, s, x);
      if e.End? && Is(c, e.at, CLOSE_BRACE) then End(e.at + 1) else Nowhere
  }

  /** Where the colon behind a key ends if the member stands at `p`. */
  function ColonEnd(c: seq<byte>, p: nat, before: seq<byte>, key: seq<Char>, gap: seq<byte>): End {
    var e := StringEnd(c, p + |before|, key);
    if e.End? && Blanks(c, p, p + |before|) && Blanks(c, e.at, e.at + |gap|) && Is(c, e.at + |gap|, COLON)
    then End(e.at + |gap| + 1) else Nowhere
  }

  /** Where the value of a member begins if the member stands at `p`. */
  function KeyEnd(c: seq<byte>, p: nat, x: Pairs): End
    requires x.Pair?
  {
    var m := ColonEnd(c, p, x.before, x.key, x.gap);
    if m.End? && Blanks(c, m.at, m.at + |x.behind|) then End(m.at + |x.behind|) else Nowhere
  }

  /** Where a member ends that stands at `p`, with the white space behind it. */
  function MemberEnd(c: seq<byte>, p: nat, x: Pairs): End
    requires x.Pair?
    decreases x, 0
  {
    var a := KeyEnd(c, p, x);
    if a.Nowhere? then Nowhere
    else
      var e := SyntaxEnd(c, a.at, x.value);
      if e.End? && Blanks(c, e.at, e.at + |x.after|) then End(e.at + |x.after|) else Nowhere
  }

  function PairsEnd(c: seq<byte>, p: nat, x: Pairs): End
    decreases x, 1
  {
    if x.NoPairs? then End(p)
    else
      var r := MemberEnd(c, p, x);
      if r.Nowhere? then Nowhere else MorePairsEnd(c, r.at, x.rest)
  }

  function MorePairsEnd(c: seq<byte>, r: nat, x: Pairs): End
    decreases x, 2
  {
    if x.NoPairs? then End(r) else if Is(c, r, COMMA) then PairsEnd(c, r + 1, x) else Nowhere
  }

  // ---- one part at a time ----

  lemma ArrUnfold(c: seq<byte>, at: nat, blank: seq<byte>, x: Elements, e: nat)
    requires ArrEnd(c, at, blank, x) == End(e)
    ensures e > 0 && Is(c, at, OPEN_BRACKET) && Blanks(c, at + 1, at + 1 + |blank|)
    ensures ElementsEnd(c, at + 1 + |blank|, x) == End(e - 1) && Is(c, e - 1, CLOSE_BRACKET)
  {
  }

  lemma ElementsUnfold(c: seq<byte>, p: nat, x: Elements, z: nat) returns (q: nat, e: nat, r: nat)
    requires x.Element? && ElementsEnd(c, p, x) == End(z)
    ensures q == p + |x.before| && Blanks(c, p, q) && SyntaxEnd(c, q, x.value) == End(e) && Blanks(c, e, r)
    ensures x.rest.NoElements? ==> r == z
    ensures x.rest.Element? ==> Is(c, r, COMMA) && ElementsEnd(c, r + 1, x.rest) == End(z)
  {
    q := p + |x.before|;
    e := SyntaxEnd(c, q, x.value).at;
    r := e + |x.after|;
  }

  lemma ObjUnfold(c: seq<byte>, at: nat, blank: seq<byte>, x: Pairs, e: nat)
    requires ObjEnd(c, at, blank, x) == End(e)
    ensures e > 0 && Is(c, at, OPEN_BRACE) && Blanks(c, at + 1, at + 1 + |blank|)
    ensures PairsEnd(c, at + 1 + |blank|, x) == End(e - 1) && Is(c, e - 1, CLOSE_BRACE)
  {
  }

  lemma KeyUnfold(c: seq<byte>, p: nat, x: Pairs, a: nat) returns (q: nat, e: nat, m: nat)
    requires x.Pair? && KeyEnd(c, p, x) == End(a)
    ensures q == p + |x.before| && Blanks(c, p, q) && Is(c, q, QUOTE)
    ensures StringEnd(c, q, x.key) == End(e) && Blanks(c, e, m)
    ensures Is(c, m, COLON) && Blanks(c, m + 1, a)
  {
    q := p + |x.before|;
    e := StringEnd(c, q, x.key).at;
    m := e + |x.gap|;
  }

  lemma PairsUnfold(c: seq<byte>, p: nat, x: Pairs, z: nat) returns (a: nat, e: nat, r: nat)
    requires x.Pair? && PairsEnd(c, p, x) == End(z)
    ensures KeyEnd(c, p, x) == End(a) && SyntaxEnd(c, a, x.value) == End(e) && Blanks(c, e, r)
    ensures x.rest.NoPairs? ==> r == z
    ensures x.rest.Pair? ==> Is(c, r, COMMA) && PairsEnd(c, r + 1, x.rest) == End(z)
  {
    a := KeyEnd(c, p, x).at;
    e := SyntaxEnd(c, a, x.value).at;
    r := e + |x.after|;
  }

  lemma {:induction false} BlanksJoin(c: seq<byte>, p: nat, q: nat, r: nat)
    requires Blanks(c, p, q) && Blanks(c, q, r)
    ensures Blanks(c, p, r)
    decreases q - p
  {
    if p >= q {
    } else {
      BlanksJoin(c, p + 1, q, r);
    }
  }

  // ---- the spelling stands ----

  lemma {:induction false} BlankBytes(c: seq<byte>, p: nat, q: nat)
    requires p <= q <= |c| && forall i :: p <= i < q ==> c[i] <= 32
    ensures Blanks(c, p, q)
    decreases q - p
  {
    if p == q {
    } else {
      BlankBytes(c, p + 1, q);
    }
  }

  lemma SpelledBlank(c: seq<byte>, p: nat, t: seq<byte>)
    requires Starts(c, p, t) && IsBlank(t)
    ensures Blanks(c, p, p + |t|)
  {
    StartsElements(c, p, t, 0);
    forall i | p <= i < p + |t| ensures c[i] <= 32 { assert c[p + (i - p)] == t[i - p]; }
    BlankBytes(c, p, p + |t|);
  }

  lemma SpelledByte(c: seq<byte>, p: nat, b: byte)
    requires Starts(c, p, [b])
    ensures Is(c, p, b)
  {
    StartsByte(c, p, [b], 0);
  }

  lemma FrameParts(c: seq<byte>, at: nat, open: byte, t: seq<byte>, close: byte)
    requires Starts(c, at, [open] + t + [close])
    ensures Is(c, at, open) && Starts(c, at + 1, t) && Is(c, at + 1 + |t|, close)
  {
    StartsParts(c, at, [open] + t + [close], [open] + t, [close]);
    StartsParts(c, at, [open] + t, [open], t);
    StartsByte(c, at, [open], 0);
    StartsByte(c, at + 1 + |t|, [close], 0);
  }

  /** Two brackets or braces, with a blank and a list between them. */
  lemma SpelledFrame(c: seq<byte>, at: nat, open: byte, blank: seq<byte>, t: seq<byte>, close: byte)
    requires Starts(c, at, [open] + (blank + t) + [close]) && IsBlank(blank)
    ensures Is(c, at, open) && Blanks(c, at + 1, at + 1 + |blank|) && Starts(c, at + 1 + |blank|, t)
    ensures Is(c, at + 1 + |blank| + |t|, close)
    ensures at + |[open] + (blank + t) + [close]| == at + 1 + |blank| + |t| + 1
  {
    FrameParts(c, at, open, blank + t, close);
    StartsParts(c, at + 1, blank + t, blank, t);
    SpelledBlank(c, at + 1, blank);
  }

  lemma {:induction false} SpelledSyntax(c: seq<byte>, at: nat, x: Syntax)
    requires Proper(x) == true && Starts(c, at, Spell(x))
    ensures SyntaxEnd(c, at, x) == End(at + |Spell(x)|)
    decreases x, 3
  {
    match x
    case NullWord =>
    case FalseWord =>
    case TrueWord =>
    case Num(n) =>
    case Str(chars) => SpelledString(c, at, chars);
    case Arr(blank, elements) => SpelledArr(c, at, blank, elements);
    case Obj(blank, pairs) => SpelledObj(c, at, blank, pairs);
  }

  lemma {:induction false} SpelledArr(c: seq<byte>, at: nat, blank: seq<byte>, x: Elements)
    requires IsBlank(blank) && ProperElements(x) == true
    requires Starts(c, at, [0x5B] + (blank + SpellElements(x)) + [0x5D])
    ensures ArrEnd(c, at, blank, x) == End(at + |[0x5B] + (blank + SpellElements(x)) + [0x5D]|)
    decreases x, 3
  {
    SpelledFrame(c, at, 0x5B, blank, SpellElements(x), 0x5D);
    SpelledElements(c, at + 1 + |blank|, x);
  }

  /** A text between two blanks. */
  lemma SpelledBetween(c: seq<byte>, p: nat, a: seq<byte>, t: seq<byte>, b: seq<byte>)
    requires Starts(c, p, a + t + b) && IsBlank(a) && IsBlank(b)
    ensures Blanks(c, p, p + |a|) && Starts(c, p + |a|, t) && Blanks(c, p + |a| + |t|, p + |a| + |t| + |b|)
  {
    StartsParts(c, p, a + t + b, a + t, b);
    StartsParts(c, p, a + t, a, t);
    SpelledBlank(c, p, a);
    SpelledBlank(c, p + |a| + |t|, b);
  }

  /** What stands behind an item. */
  function Tail(x: Elements): seq<byte>
    requires x.Element?
  {
    if x.rest.NoElements? then [] else [0x2C] + SpellElements(x.rest)
  }

  lemma {:induction false} SpelledElements(c: seq<byte>, p: nat, x: Elements)
    requires ProperElements(x) == true && Starts(c, p, SpellElements(x))
    ensures ElementsEnd(c, p, x) == End(p + |SpellElements(x)|)
    decreases x, 2
  {
    if x.NoElements? {
    } else {
      StartsParts(c, p, SpellElements(x), SpellElement(x), Tail(x));
      SpelledElement(c, p, x);
      SpelledMore(c, p + |SpellElement(x)|, x.rest);
      ElementsTurn(c, p, x, p + |SpellElement(x)|);
    }
  }

  lemma {:induction false} SpelledElement(c: seq<byte>, p: nat, x: Elements)
    requires x.Element? && ProperElements(x) == true && Starts(c, p, SpellElement(x))
    ensures ElementEnd(c, p, x) == End(p + |SpellElement(x)|)
    decreases x, 1
  {
    SpelledBetween(c, p, x.before, Spell(x.value), x.after);
    SpelledSyntax(c, p + |x.before|, x.value);
    ElementTurn(c, p, x, p + |x.before| + |Spell(x.value)|);
  }

  lemma ElementTurn(c: seq<byte>, p: nat, x: Elements, e: nat)
    requires x.Element? && Blanks(c, p, p + |x.before|) && SyntaxEnd(c, p + |x.before|, x.value) == End(e)
    requires Blanks(c, e, e + |x.after|)
    ensures ElementEnd(c, p, x) == End(e + |x.after|)
  {
  }

  lemma ElementsTurn(c: seq<byte>, p: nat, x: Elements, r: nat)
    requires x.Element? && ElementEnd(c, p, x) == End(r)
    ensures ElementsEnd(c, p, x) == MoreEnd(c, r, x.rest)
  {
  }

  lemma {:induction false} SpelledMore(c: seq<byte>, r: nat, x: Elements)
    requires ProperElements(x) == true
    requires Starts(c, r, if x.NoElements? then [] else [0x2C] + SpellElements(x))
    ensures MoreEnd(c, r, x) == if x.NoElements? then End(r) else End(r + 1 + |SpellElements(x)|)
    decreases x, 3
  {
    if x.Element? {
      StartsParts(c, r, [0x2C] + SpellElements(x), [0x2C], SpellElements(x));
      SpelledByte(c, r, 0x2C);
      SpelledElements(c, r + 1, x);
    }
  }

  lemma {:induction false} SpelledObj(c: seq<byte>, at: nat, blank: seq<byte>, x: Pairs)
    requires IsBlank(blank) && ProperPairs(x) == true
    requires Starts(c, at, [0x7B] + (blank + SpellPairs(x)) + [0x7D])
    ensures ObjEnd(c, at, blank, x) == End(at + |[0x7B] + (blank + SpellPairs(x)) + [0x7D]|)
    decreases x, 3
  {
    SpelledFrame(c, at, 0x7B, blank, SpellPairs(x), 0x7D);
    SpelledPairs(c, at + 1 + |blank|, x);
  }

  function KeyPart(x: Pairs): seq<byte>
    requires x.Pair?
  {
    x.before + SpellString(x.key) + x.gap + [0x3A]
  }

  function ValuePart(x: Pairs): seq<byte>
    requires x.Pair?
  {
    x.behind + Spell(x.value) + x.after
  }

  function PairsTail(x: Pairs): seq<byte>
    requires x.Pair?
  {
    if x.rest.NoPairs? then [] else [0x2C] + SpellPairs(x.rest)
  }

  lemma {:induction false} SpelledPairs(c: seq<byte>, p: nat, x: Pairs)
    requires ProperPairs(x) == true && Starts(c, p, SpellPairs(x))
    ensures PairsEnd(c, p, x) == End(p + |SpellPairs(x)|)
    decreases x, 2
  {
    if x.NoPairs? {
    } else {
      var r := p + |SpellPair(x)|;
      StartsParts(c, p, SpellPairs(x), SpellPair(x), PairsTail(x));
      SpelledMember(c, p, x);
      SpelledMorePairs(c, r, x.rest);
      PairsTurn(c, p, x, r);
    }
  }

  lemma {:induction false} SpelledMember(c: seq<byte>, p: nat, x: Pairs)
    requires x.Pair? && ProperPairs(x) == true && Starts(c, p, SpellPair(x))
    ensures MemberEnd(c, p, x) == End(p + |SpellPair(x)|)
    decreases x, 1
  {
    var m := p + |KeyPart(x)|;
    var a := m + |x.behind|;
    StartsParts(c, p, SpellPair(x), KeyPart(x), ValuePart(x));
    SpelledKey(c, p, x);
    SpelledBetween(c, m, x.behind, Spell(x.value), x.after);
    SpelledSyntax(c, a, x.value);
    KeyTurn(c, p, m, x);
    MemberTurn(c, p, x, a, a + |Spell(x.value)|);
  }

  lemma MemberTurn(c: seq<byte>, p: nat, x: Pairs, a: nat, e: nat)
    requires x.Pair? && KeyEnd(c, p, x) == End(a) && SyntaxEnd(c, a, x.value) == End(e) && Blanks(c, e, e + |x.after|)
    ensures MemberEnd(c, p, x) == End(e + |x.after|)
  {
  }

  lemma PairsTurn(c: seq<byte>, p: nat, x: Pairs, r: nat)
    requires x.Pair? && MemberEnd(c, p, x) == End(r)
    ensures PairsEnd(c, p, x) == MorePairsEnd(c, r, x.rest)
  {
  }

  lemma KeyParts(c: seq<byte>, p: nat, a: seq<byte>, t: seq<byte>, b: seq<byte>)
    requires Starts(c, p, a + t + b + [0x3A]) && IsBlank(a) && IsBlank(b)
    ensures Blanks(c, p, p + |a|) && Starts(c, p + |a|, t) && Blanks(c, p + |a| + |t|, p + |a| + |t| + |b|)
    ensures Is(c, p + |a| + |t| + |b|, 0x3A)
  {
    StartsParts(c, p, a + t + b + [0x3A], a + t + b, [0x3A]);
    SpelledByte(c, p + |a| + |t| + |b|, 0x3A);
    SpelledBetween(c, p, a, t, b);
  }

  lemma SpelledKey(c: seq<byte>, p: nat, x: Pairs)
    requires x.Pair? && IsBlank(x.before) && IsBlank(x.gap) && Starts(c, p, KeyPart(x))
    ensures ColonEnd(c, p, x.before, x.key, x.gap) == End(p + |KeyPart(x)|)
  {
    KeyParts(c, p, x.before, SpellString(x.key), x.gap);
    SpelledString(c, p + |x.before|, x.key);
    ColonTurn(c, p, x.before, x.key, x.gap, p + |x.before| + |SpellString(x.key)|);
  }

  lemma ColonTurn(c: seq<byte>, p: nat, before: seq<byte>, key: seq<Char>, gap: seq<byte>, e: nat)
    requires StringEnd(c, p + |before|, key) == End(e) && Blanks(c, p, p + |before|) && Blanks(c, e, e + |gap|)
    requires Is(c, e + |gap|, COLON)
    ensures ColonEnd(c, p, before, key, gap) == End(e + |gap| + 1)
  {
  }

  lemma KeyTurn(c: seq<byte>, p: nat, m: nat, x: Pairs)
    requires x.Pair? && ColonEnd(c, p, x.before, x.key, x.gap) == End(m) && Blanks(c, m, m + |x.behind|)
    ensures KeyEnd(c, p, x) == End(m + |x.behind|)
  {
  }

  lemma {:induction false} SpelledMorePairs(c: seq<byte>, r: nat, x: Pairs)
    requires ProperPairs(x) == true && Starts(c, r, if x.NoPairs? then [] else [0x2C] + SpellPairs(x))
    ensures MorePairsEnd(c, r, x) == if x.NoPairs? then End(r) else End(r + 1 + |SpellPairs(x)|)
    decreases x, 3
  {
    if x.Pair? {
      StartsParts(c, r, [0x2C] + SpellPairs(x), [0x2C], SpellPairs(x));
      SpelledByte(c, r, 0x2C);
      SpelledPairs(c, r + 1, x);
    }
  }
}
