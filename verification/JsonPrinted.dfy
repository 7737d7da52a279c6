/** What cJSON.c prints is a JSON text, and it stands for the tree that was printed. */
module JsonPrinted {
  import opened JobTypes
  import opened Bytes
  import opened JsonStrings
  import opened JsonNumbers
  import opened JsonTree
  import opened JsonGrammar
  import opened JsonMeaning

  // ---- strings ----

  function SmallHex(n: nat): byte
    requires n < 16
  {
    if n < 10 then '0' as int + n else 'a' as int + (n - 10)
  }

  /** Quotes, backslashes and control characters are escaped, by a letter where there is one; all else is not. */
  function CharOf(b: byte): Char {
    if b == 0x22 || b == 0x5C then Short(b)
    else if b == 0x08 then Short('b' as int)
    else if b == 0x09 then Short('t' as int)
    else if b == 0x0A then Short('n' as int)
    else if b == 0x0C then Short('f' as int)
    else if b == 0x0D then Short('r' as int)
    else if b < 0x20 then Unit([0x30, 0x30, SmallHex(b / 16), SmallHex(b % 16)])
    else Plain(b)
  }

  function CharsOf(s: seq<byte>): seq<Char> { seq(|s|, i requires 0 <= i < |s| => CharOf(s[i])) }

  lemma CharSpelled(b: byte)
    ensures SpellChar(CharOf(b)) == EscapeByte(b) && ProperChar(CharOf(b))
  {
  }

  lemma {:induction false} CharsSpelled(s: seq<byte>)
    ensures SpellChars(CharsOf(s)) == Escape(s) && ProperChars(CharsOf(s))
  {
    if s == [] {
    } else {
      CharSpelled(s[0]);
      assert CharsOf(s)[1..] == CharsOf(s[1..]);
      CharsSpelled(s[1..]);
      assert forall i :: 0 < i < |s| ==> CharsOf(s)[i] == CharsOf(s[1..])[i - 1];
    }
  }

  lemma StringSpelled(s: seq<byte>)
    ensures SpellString(CharsOf(s)) == Quoted(s) && ProperChars(CharsOf(s))
  {
    CharsSpelled(s);
  }

  lemma UnitMeans(b: byte)
    requires CharOf(b).Unit?
    ensures ProperChar(CharOf(b)) && UnitOf(CharOf(b).digits) == b
  {
  }

  lemma {:induction false} CharsMean(s: seq<byte>, i: nat)
    requires i <= |s| && ProperChars(CharsOf(s))
    ensures Decoded(CharsOf(s), i) == Some(s[i..])
    decreases |s| - i
  {
    if i == |s| {
    } else {
      CharsMean(s, i + 1);
      assert s[i..] == [s[i]] + s[i + 1..];
      if CharOf(s[i]).Unit? { UnitMeans(s[i]); }
    }
  }

  lemma {:induction false} AllBeforeZero(s: seq<byte>)
    requires NulFree(s)
    ensures UpToZero(s) == s
  {
    if s == [] {
    } else {
      AllBeforeZero(s[1..]);
    }
  }

  lemma StringMeans(s: seq<byte>)
    requires NulFree(s)
    ensures ProperChars(CharsOf(s)) && Decoded(CharsOf(s), 0) == Some(s) && UpToZero(s) == s
  {
    CharsSpelled(s);
    CharsMean(s, 0);
    AllBeforeZero(s);
  }

  // ---- numbers ----

  function FiguresOf(n: int): Figures { Figures(n < 0, Digits(if n < 0 then -n else n), NoFraction, NoExponent) }

  lemma {:induction false} DigitsMean(n: nat)
    ensures AreDigits(Digits(n)) && Worth(Digits(n)) == n
    ensures Digits(n)[0] == 0x30 ==> n == 0 && |Digits(n)| == 1
  {
    if n < 10 {
      assert Digits(n)[..0] == [];
    } else {
      DigitsMean(n / 10);
      assert Digits(n)[..|Digits(n)| - 1] == Digits(n / 10);
    }
  }

  lemma NumberSpelled(n: int)
    ensures ProperFigures(FiguresOf(n)) && SpellFigures(FiguresOf(n)) == IntText(n)
  {
    DigitsMean(if n < 0 then -n else n);
  }

  lemma NumberMeans(n: int)
    ensures ProperFigures(FiguresOf(n)) && ValueOf(FiguresOf(n)) == n as real
  {
    DigitsMean(if n < 0 then -n else n);
    assert Worth([]) as real / Ten(0) == 0.0;
  }

  // ---- the syntax of what is printed ----

  function NewLine(f: bool): seq<byte> { if f then [0x0A] else [] }

  /** As many tabs as the line is deep. */
  function Margin(d: nat, f: bool): seq<byte> { if f then seq(d, _ => 0x09) else [] }

  lemma MarginIs(d: nat, f: bool)
    ensures Margin(d, f) == Indent(d, f) && IsBlank(NewLine(f) + Margin(d, f))
  {
  }

  /** What stands between the braces of an object without members. */
  function Inside(ms: Members, d: nat, f: bool): seq<byte> {
    if ms.NoMembers? then NewLine(f) + Margin(d, f) else []
  }

  /** Formatted, every member stands on a line of its own, behind as many tabs as it is deep, with a tab behind
      its colon, and a space stands between the items of an array. */
  function SyntaxOf(v: Value, d: nat, f: bool): Syntax
    decreases v, 0
  {
    match v
    case Null => NullWord
    case False => FalseWord
    case True => TrueWord
    case Number(x) => Num(FiguresOf(IntOf(x)))
    case String(s) => Str(CharsOf(s))
    case Array(items) => Arr([], ElementsOf(items, d + 1, f, []))
    case Object(members) =>
      Obj(Inside(members, d, f), PairsOf(members, d, f))
  }

  /** The items, the first of them behind `gap`. */
  function ElementsOf(items: Items, d: nat, f: bool, gap: seq<byte>): Elements
    decreases items, 1
  {
    if items.NoItems? then NoElements
    else Element(gap, SyntaxOf(items.head, d, f), [], ElementsOf(items.tail, d, f, if f then [0x20] else []))
  }

  /** The members of an object printed at depth `d`. */
  function PairsOf(ms: Members, d: nat, f: bool): Pairs
    decreases ms, 1
  {
    if ms.NoMembers? then NoPairs
    else
      Pair(NewLine(f) + Margin(d + 1, f), CharsOf(ms.key), [], if f then [0x09] else [],
           SyntaxOf(ms.value, d + 1, f),
           if ms.rest.NoMembers? then NewLine(f) + Margin(d, f) else [],
           PairsOf(ms.rest, d, f))
  }

  // ---- it spells the text ----

  lemma {:induction false} TextSpelled(v: Value, d: nat, f: bool)
    ensures Spell(SyntaxOf(v, d, f)) == Text(v, d, f)
    decreases v, 0
  {
    match v
    case Null =>
    case False =>
    case True =>
    case Number(x) => NumberSpelled(IntOf(x));
    case String(s) => StringSpelled(s);
    case Array(items) => ArraySpelled(items, d, f);
    case Object(members) => ObjectSpelled(members, d, f);
  }

  lemma {:induction false} ArraySpelled(items: Items, d: nat, f: bool)
    ensures [0x5B] + ([] + SpellElements(ElementsOf(items, d + 1, f, []))) + [0x5D] == ArrayText(items, d, f)
    decreases items, 3
  {
    var t := SpellElements(ElementsOf(items, d + 1, f, []));
    ItemsSpelled(items, d + 1, f, []);
    assert [] + t == t;
  }

  lemma {:induction false} ItemsSpelled(items: Items, d: nat, f: bool, gap: seq<byte>)
    ensures SpellElements(ElementsOf(items, d, f, gap)) == (if items.NoItems? then [] else gap) + ItemsText(items, d, f)
    decreases items, 2
  {
    if items.NoItems? {
    } else {
      var next: seq<byte> := if f then [0x20] else [];
      TextSpelled(items.head, d, f);
      ItemSpelled(items, d, f, gap);
      ItemsSpelled(items.tail, d, f, next);
      var t, ts := Text(items.head, d, f), ItemsText(items.tail, d, f);
      var es := SpellElements(ElementsOf(items.tail, d, f, next));
      SpellTurn(ElementsOf(items, d, f, gap), gap + t, es);
      TextTurn(items, d, f, t, ts, next);
      if items.tail.NoItems? {
        LastItem(gap, t);
      } else {
        NextItem(gap, t, next, ts);
      }
    }
  }

  lemma SpellTurn(x: Elements, e: seq<byte>, es: seq<byte>)
    requires x.Element? && SpellElement(x) == e && SpellElements(x.rest) == es
    ensures SpellElements(x) == e + if x.rest.NoElements? then [] else [0x2C] + es
  {
  }

  lemma TextTurn(items: Items, d: nat, f: bool, t: seq<byte>, ts: seq<byte>, next: seq<byte>)
    requires items.Item? && Text(items.head, d, f) == t && ItemsText(items.tail, d, f) == ts
    requires next == if f then [0x20] else []
    ensures ItemsText(items, d, f) == (t + if items.tail.NoItems? then [] else [0x2C] + next) + ts
    ensures items.tail.NoItems? ==> ts == []
  {
    assert Comma(false, f) == [0x2C] + next;
  }

  lemma ItemSpelled(items: Items, d: nat, f: bool, gap: seq<byte>)
    requires items.Item? && Spell(SyntaxOf(items.head, d, f)) == Text(items.head, d, f)
    ensures SpellElement(ElementsOf(items, d, f, gap)) == gap + Text(items.head, d, f)
  {
    assert gap + Text(items.head, d, f) + [] == gap + Text(items.head, d, f);
  }

  lemma LastItem(gap: seq<byte>, t: seq<byte>)
    ensures (gap + t) + [] == gap + ((t + []) + [])
  {
  }

  lemma NextItem(gap: seq<byte>, t: seq<byte>, next: seq<byte>, rest: seq<byte>)
    ensures (gap + t) + ([0x2C] + (next + rest)) == gap + ((t + ([0x2C] + next)) + rest)
  {
  }

  lemma {:induction false} ObjectSpelled(ms: Members, d: nat, f: bool)
    ensures [0x7B] + (Inside(ms, d, f) + SpellPairs(PairsOf(ms, d, f))) + [0x7D] == ObjectText(ms, d, f)
    decreases ms, 3
  {
    var m := MembersText(ms, d + 1, f);
    ObjectIs(ms, d, f, m);
    MarginIs(d, f);
    if ms.NoMembers? {
      Braces(NewLine(f), [], Indent(d, f));
    } else {
      PairsSpelled(ms, d, f);
      Braces(NewLine(f), m, Indent(d, f));
    }
  }

  lemma ObjectIs(ms: Members, d: nat, f: bool, m: seq<byte>)
    requires MembersText(ms, d + 1, f) == m
    ensures ObjectText(ms, d, f) == ([0x7B] + NewLine(f)) + m + (Indent(d, f) + [0x7D])
    ensures ms.NoMembers? ==> m == []
  {
    assert Opening(f) == [0x7B] + NewLine(f);
  }

  lemma Braces(nl: seq<byte>, t: seq<byte>, indent: seq<byte>)
    ensures [0x7B] + ((nl + indent) + []) + [0x7D] == ([0x7B] + nl) + [] + (indent + [0x7D])
    ensures [0x7B] + ([] + (nl + t + indent)) + [0x7D] == ([0x7B] + nl) + t + (indent + [0x7D])
  {
  }

  lemma {:induction false} PairsSpelled(ms: Members, d: nat, f: bool)
    requires ms.Member?
    ensures SpellPairs(PairsOf(ms, d, f)) == NewLine(f) + MembersText(ms, d + 1, f) + Indent(d, f)
    decreases ms, 2
  {
    var nl, tab: seq<byte> := NewLine(f), if f then [0x09] else [];
    var t := Text(ms.value, d + 1, f);
    TextSpelled(ms.value, d + 1, f);
    PairSpelled(ms, d, f, nl, tab, t);
    MemberIs(ms, d + 1, f, nl, tab, t);
    if ms.rest.NoMembers? {
      LastPair(nl, Indent(d + 1, f), Quoted(ms.key), tab, t, Indent(d, f));
    } else {
      PairsSpelled(ms.rest, d, f);
      NextPair(nl, Indent(d + 1, f), Quoted(ms.key), tab, t, MembersText(ms.rest, d + 1, f), Indent(d, f));
    }
  }

  lemma PairSpelled(ms: Members, d: nat, f: bool, nl: seq<byte>, tab: seq<byte>, t: seq<byte>)
    requires ms.Member? && nl == NewLine(f) && tab == (if f then [0x09] else [])
    requires Spell(SyntaxOf(ms.value, d + 1, f)) == t
    ensures SpellPair(PairsOf(ms, d, f)) ==
              ((nl + Indent(d + 1, f)) + Quoted(ms.key) + [] + [0x3A])
              + (tab + t + (if ms.rest.NoMembers? then nl + Indent(d, f) else []))
  {
    StringSpelled(ms.key);
    MarginIs(d, f);
    MarginIs(d + 1, f);
  }

  /** The text of a member, in parts. */
  lemma MemberIs(ms: Members, d: nat, f: bool, nl: seq<byte>, tab: seq<byte>, t: seq<byte>)
    requires ms.Member? && nl == NewLine(f) && tab == (if f then [0x09] else []) && t == Text(ms.value, d, f)
    ensures MemberText(ms, d, f) ==
              (Indent(d, f) + (Quoted(ms.key) + ([0x3A] + tab)))
              + (t + ((if ms.rest.NoMembers? then [] else [0x2C]) + nl))
  {
    assert Colon(f) == [0x3A] + tab;
  }

  lemma LastPair(nl: seq<byte>, i: seq<byte>, q: seq<byte>, tab: seq<byte>, t: seq<byte>, o: seq<byte>)
    ensures (((nl + i) + q + [] + [0x3A]) + (tab + t + (nl + o))) + []
         == nl + (((i + (q + ([0x3A] + tab))) + (t + ([] + nl))) + []) + o
  {
    assert (nl + i) + q + [] + [0x3A] == nl + (i + q + [0x3A]);
    assert i + (q + ([0x3A] + tab)) == i + q + [0x3A] + tab;
  }

  lemma NextPair(nl: seq<byte>, i: seq<byte>, q: seq<byte>, tab: seq<byte>, t: seq<byte>, rest: seq<byte>, o: seq<byte>)
    ensures (((nl + i) + q + [] + [0x3A]) + (tab + t + [])) + ([0x2C] + (nl + rest + o))
         == nl + (((i + (q + ([0x3A] + tab))) + (t + ([0x2C] + nl))) + rest) + o
  {
    assert (nl + i) + q + [] + [0x3A] == nl + (i + q + [0x3A]);
    assert i + (q + ([0x3A] + tab)) == i + q + [0x3A] + tab;
  }

  // ---- it is proper, and means the tree ----

  lemma {:induction false} SyntaxProper(v: Value, d: nat, f: bool)
    ensures Proper(SyntaxOf(v, d, f))
    decreases v, 0
  {
    match v
    case Number(x) => NumberSpelled(IntOf(x));
    case String(s) => StringSpelled(s);
    case Array(items) => ItemsProper(items, d + 1, f, []);
    case Object(members) =>
      MarginIs(d, f);
      MembersProper(members, d, f);
    case _ =>
  }

  lemma {:induction false} ItemsProper(items: Items, d: nat, f: bool, gap: seq<byte>)
    requires IsBlank(gap)
    ensures ProperElements(ElementsOf(items, d, f, gap))
    decreases items, 1
  {
    if items.NoItems? {
    } else {
      SyntaxProper(items.head, d, f);
      ItemsProper(items.tail, d, f, if f then [0x20] else []);
    }
  }

  lemma {:induction false} MembersProper(ms: Members, d: nat, f: bool)
    ensures ProperPairs(PairsOf(ms, d, f))
    decreases ms, 1
  {
    if ms.NoMembers? {
    } else {
      MarginIs(d + 1, f);
      MarginIs(d, f);
      StringSpelled(ms.key);
      SyntaxProper(ms.value, d + 1, f);
      MembersProper(ms.rest, d, f);
    }
  }

  /** What is printed for a tree, formatted or not, is a JSON text. */
  lemma TextIsJson(v: Value, f: bool)
    ensures IsJson(Text(v, 0, f))
  {
    TextSpelled(v, 0, f);
    SyntaxProper(v, 0, f);
    var t := Text(v, 0, f);
    assert t == [] + t + [];
    assert IsJsonOf(t, [], SyntaxOf(v, 0, f), []);
  }

  lemma {:induction false} SyntaxMeans(v: Value, d: nat, f: bool)
    requires Printable(v) == true && Proper(SyntaxOf(v, d, f)) == true
    ensures Meaning(SyntaxOf(v, d, f)) == Sense(v) && Depth(SyntaxOf(v, d, f)) == Nesting(v)
    decreases v, 0
  {
    match v
    case Number(x) =>
      NumberSpelled(IntOf(x));
      NumberMeans(IntOf(x));
      IntTextLength(IntOf(x));
    case String(s) => StringMeans(s);
    case Array(items) => ItemsMean(items, d + 1, f, []);
    case Object(members) => MembersMean(members, d, f);
    case _ =>
  }

  lemma {:induction false} ItemsMean(items: Items, d: nat, f: bool, gap: seq<byte>)
    requires PrintableItems(items) == true && ProperElements(ElementsOf(items, d, f, gap)) == true
    ensures var x := ElementsOf(items, d, f, gap);
            ElementsMeaning(x) == ItemsSense(items) && ElementsDepth(x) == NestingItems(items)
    decreases items, 1
  {
    if items.NoItems? {
    } else {
      SyntaxMeans(items.head, d, f);
      ItemsMean(items.tail, d, f, if f then [0x20] else []);
    }
  }

  lemma {:induction false} MembersMean(ms: Members, d: nat, f: bool)
    requires PrintableMembers(ms) == true && ProperPairs(PairsOf(ms, d, f)) == true
    ensures var x := PairsOf(ms, d, f);
            PairsMeaning(x) == MembersSense(ms) && PairsDepth(x) == NestingMembers(ms)
    decreases ms, 1
  {
    if ms.NoMembers? {
    } else {
      StringMeans(ms.key);
      SyntaxMeans(ms.value, d + 1, f);
      MembersMean(ms.rest, d, f);
    }
  }
}
