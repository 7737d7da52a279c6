/** Printing and parsing put together: a printed tree is parsed as it was, and what the parser makes of any input
    can be printed and parsed again. */
module JsonResults {
  import opened Bytes
  import opened JsonStrings
  import opened JsonStringProofs
  import opened JsonNumbers
  import opened JsonTree
  import opened JsonParse
  import opened JsonGrammar
  import opened JsonMeaning
  import opened JsonStringReading
  import opened JsonNumberReading
  import opened JsonLayout
  import opened JsonReading
  import opened JsonDocument
  import opened JsonPrinted

  // ---- round trip ----

  /** The syntax of a printed tree. */
  lemma PrintedSyntax(v: Value, d: nat, f: bool) returns (x: Syntax)
    requires Printable(v) == true
    ensures Proper(x) == true && !Long(x) && Spell(x) == Text(v, d, f)
    ensures Meaning(x) == Sense(v) && Depth(x) == Nesting(v)
  {
    x := SyntaxOf(v, d, f);
    SyntaxProper(v, d, f);
    SyntaxMeans(v, d, f);
    TextSpelled(v, d, f);
    if v.Number? {
      NumberSpelled(IntOf(v.value));
      IntTextLength(IntOf(v.value));
    }
  }

  /** Printing a tree and parsing the text gives back the same tree if and only if no more than a
      thousand arrays and objects lie inside one another; otherwise parsing fails. */
  lemma DocumentRoundTrip(v: Value, format: bool, requireTerminator: bool)
    requires Printable(v)
    ensures var t := Text(v, 0, format);
            ParseDocument(t + [NUL], requireTerminator) ==
            if Nesting(v) <= NESTING_LIMIT then ValueAt(v, |t|) else NoValue
  {
    var t := Text(v, 0, format);
    var x := PrintedSyntax(v, 0, format);
    assert Mark(false) + ([] + t + []) + [0] == t + [NUL];
    DocumentReads(false, [], x, [], t + [NUL], requireTerminator);
  }

  /** A printed integer is read back as it was. */
  lemma NumberRoundTrip(c: seq<byte>, at: nat, n: int)
    requires INT_MIN <= n <= INT_MAX && Starts(c, at, IntText(n))
    requires at + |IntText(n)| < |c| && !IsNumberByte(c[at + |IntText(n)|])
    ensures ParseNumber(c, at) == NumberAt(n as real, at + |IntText(n)|)
  {
    IntTextLength(n);
    NumberSpelled(n);
    NumberMeans(n);
    NumberReads(c, at, FiguresOf(n));
  }

  /** A printed string is read back as it was. */
  lemma StringRoundTrip(c: seq<byte>, at: nat, s: seq<byte>)
    requires NulFree(s) && Starts(c, at, Quoted(s))
    ensures ParseString(c, at) == StringAt(s, at + |Quoted(s)|)
  {
    StringSpelled(s);
    StringMeans(s);
    SpelledString(c, at, CharsOf(s));
    StringReads(c, at, CharsOf(s), at + |Quoted(s)|);
  }

  /** The round trip of one value, at any place of an input and at any depth. */
  lemma ValueRoundTrip(v: Value, c: seq<byte>, at: nat, d: nat, f: bool, depth: nat)
    requires Printable(v) == true && depth <= NESTING_LIMIT && Starts(c, at, Text(v, d, f)) == true
    requires at + |Text(v, d, f)| < |c| && !IsNumberByte(c[at + |Text(v, d, f)|])
    ensures ParseValue(c, at, depth) ==
              if depth + Nesting(v) <= NESTING_LIMIT then ValueAt(v, at + |Text(v, d, f)|) else NoValue
  {
    var x := PrintedSyntax(v, d, f);
    SpelledSyntax(c, at, x);
    SyntaxReads(x, c, at, at + |Text(v, d, f)|, depth);
  }

  // ---- what is parsed ----

  /** No string and no key holds a NUL. */
  predicate Clean(v: Value) {
    match v
    case String(s) => NulFree(s)
    case Array(items) => CleanItems(items)
    case Object(members) => CleanMembers(members)
    case _ => true
  }

  predicate CleanItems(items: Items) { items.Item? ==> Clean(items.head) && CleanItems(items.tail) }

  predicate CleanMembers(ms: Members) { ms.Member? ==> NulFree(ms.key) && Clean(ms.value) && CleanMembers(ms.rest) }

  /** All numbers are integers of the range of int. */
  predicate Ints(v: Value) {
    match v
    case Number(x) => x == IntOf(x) as real
    case Array(items) => IntsItems(items)
    case Object(members) => IntsMembers(members)
    case _ => true
  }

  predicate IntsItems(items: Items) { items.Item? ==> Ints(items.head) && IntsItems(items.tail) }

  predicate IntsMembers(ms: Members) { ms.Member? ==> Ints(ms.value) && IntsMembers(ms.rest) }

  lemma {:induction false} CleanInts(v: Value)
    requires Clean(v) && Ints(v)
    ensures Printable(v)
  {
    match v
    case Array(items) => CleanIntsItems(items);
    case Object(members) => CleanIntsMembers(members);
    case _ =>
  }

  lemma {:induction false} CleanIntsItems(items: Items)
    requires CleanItems(items) && IntsItems(items)
    ensures PrintableItems(items)
  {
    if items.NoItems? {
    } else {
      CleanInts(items.head);
      CleanIntsItems(items.tail);
    }
  }

  lemma {:induction false} CleanIntsMembers(ms: Members)
    requires CleanMembers(ms) && IntsMembers(ms)
    ensures PrintableMembers(ms)
  {
    if ms.NoMembers? {
    } else {
      CleanInts(ms.value);
      CleanIntsMembers(ms.rest);
    }
  }

  lemma ParsedString(c: seq<byte>, at: nat)
    requires ParseString(c, at).StringAt?
    ensures NulFree(ParseString(c, at).s)
  {
    CStringPrefix(Decode(c, at + 1, FindEnd(c, at + 1).end).value);
  }

  /** The strings of a parsed tree are C strings, and it is nested no deeper than the limit allows at
      the depth where it stands. */
  lemma {:induction false} ParsedValue(c: seq<byte>, at: nat, depth: nat)
    requires depth <= NESTING_LIMIT && ParseValue(c, at, depth).ValueAt?
    ensures var v := ParseValue(c, at, depth).value; Clean(v) && depth + Nesting(v) <= NESTING_LIMIT
    decreases |c| - at, 2
  {
    if Starts(c, at, NULL_TEXT) || Starts(c, at, FALSE_TEXT) || Starts(c, at, TRUE_TEXT) {
    } else if Is(c, at, QUOTE) {
      ParsedString(c, at);
    } else if Is(c, at, OPEN_BRACKET) {
      ParsedArray(c, at, depth);
    } else if Is(c, at, OPEN_BRACE) {
      ParsedObject(c, at, depth);
    }
  }

  lemma {:induction false} ParsedArray(c: seq<byte>, at: nat, depth: nat)
    requires Is(c, at, OPEN_BRACKET) && ParseArray(c, at, depth).ValueAt?
    ensures var v := ParseArray(c, at, depth).value; Clean(v) && depth + Nesting(v) <= NESTING_LIMIT
    decreases |c| - at, 1
  {
    var p := Skip(c, at + 1);
    if !Is(c, p, CLOSE_BRACKET) { ParsedItems(c, p, depth + 1); }
  }

  lemma {:induction false} ParsedItems(c: seq<byte>, p: nat, depth: nat)
    requires depth <= NESTING_LIMIT && ParseItems(c, p, depth).ItemsAt?
    ensures var items := ParseItems(c, p, depth).items;
            CleanItems(items) && depth + NestingItems(items) <= NESTING_LIMIT
    decreases |c| - p, 3
  {
    ParsedValue(c, Skip(c, p), depth);
    ParsedMore(c, Skip(c, ParseValue(c, Skip(c, p), depth).end), depth);
  }

  lemma {:induction false} ParsedMore(c: seq<byte>, q: nat, depth: nat)
    requires depth <= NESTING_LIMIT && MoreItems(c, q, depth).ItemsAt?
    ensures var items := MoreItems(c, q, depth).items;
            CleanItems(items) && depth + NestingItems(items) <= NESTING_LIMIT
    decreases |c| - q, 0
  {
    if Is(c, q, COMMA) { ParsedItems(c, q + 1, depth); }
  }

  lemma {:induction false} ParsedObject(c: seq<byte>, at: nat, depth: nat)
    requires Is(c, at, OPEN_BRACE) && ParseObject(c, at, depth).ValueAt?
    ensures var v := ParseObject(c, at, depth).value; Clean(v) && depth + Nesting(v) <= NESTING_LIMIT
    decreases |c| - at, 1
  {
    var p := Skip(c, at + 1);
    if !Is(c, p, CLOSE_BRACE) { ParsedMembers(c, p, depth + 1); }
  }

  lemma {:induction false} ParsedMembers(c: seq<byte>, p: nat, depth: nat)
    requires depth <= NESTING_LIMIT && ParseMembers(c, p, depth).MembersAt?
    ensures var ms := ParseMembers(c, p, depth).members;
            CleanMembers(ms) && depth + NestingMembers(ms) <= NESTING_LIMIT
    decreases |c| - p, 4
  {
    ParsedMember(c, p, depth);
    ParsedMoreMembers(c, Skip(c, ParseMember(c, p, depth).end), depth);
  }

  lemma {:induction false} ParsedMember(c: seq<byte>, p: nat, depth: nat)
    requires depth <= NESTING_LIMIT && ParseMember(c, p, depth).MemberAt?
    ensures var m := ParseMember(c, p, depth);
            NulFree(m.key) && Clean(m.value) && depth + Nesting(m.value) <= NESTING_LIMIT
    decreases |c| - p, 3
  {
    ParsedString(c, Skip(c, p));
    ParsedValue(c, Skip(c, ParseKey(c, p).end), depth);
  }

  lemma {:induction false} ParsedMoreMembers(c: seq<byte>, q: nat, depth: nat)
    requires depth <= NESTING_LIMIT && MoreMembers(c, q, depth).MembersAt?
    ensures var ms := MoreMembers(c, q, depth).members;
            CleanMembers(ms) && depth + NestingMembers(ms) <= NESTING_LIMIT
    decreases |c| - q, 0
  {
    if Is(c, q, COMMA) { ParsedMembers(c, q + 1, depth); }
  }

  /** A tree of integers that came out of the parser, from whatever input, comes out again when it is
      printed and parsed, formatted or not. */
  lemma Reprinted(c: seq<byte>, terminated: bool, format: bool, requireTerminator: bool)
    requires ParseDocument(c, terminated).ValueAt? && Ints(ParseDocument(c, terminated).value)
    ensures var v := ParseDocument(c, terminated).value;
            ParseDocument(Text(v, 0, format) + [NUL], requireTerminator) == ValueAt(v, |Text(v, 0, format)|)
  {
    var v := ParseDocument(c, terminated).value;
    ParsedValue(c, Skip(c, SkipBom(c)), 0);
    CleanInts(v);
    DocumentRoundTrip(v, format, requireTerminator);
  }
}
