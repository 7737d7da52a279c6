/** Whole documents: what the parser makes of a JSON text. */
module JsonDocument {
  import opened Bytes
  import opened JsonStringProofs
  import opened JsonParse
  import opened JsonGrammar
  import opened JsonMeaning
  import opened JsonStringReading
  import opened JsonLayout
  import opened JsonReading

  /** The byte order mark a document may begin with. */
  function Mark(bom: bool): seq<byte> { if bom then [0xEF, 0xBB, 0xBF] else [] }

  /** What stands in memory: the text and the byte that ends it. */
  function Input(bom: bool, t: seq<byte>): seq<byte> { Mark(bom) + t + [0] }

  lemma {:induction false} BlankAll(c: seq<byte>, p: nat)
    requires Blanks(c, p, |c|)
    ensures Blank(c, p) == |c|
    decreases |c| - p
  {
    if p == |c| {
    } else {
      BlankAll(c, p + 1);
    }
  }

  /** Nothing but white space is left, the final zero included: skipping it ends on that zero. */
  lemma SkipAll(c: seq<byte>, p: nat)
    requires p < |c| && Blanks(c, p, |c|)
    ensures Skip(c, p) == |c| - 1
  {
    BlankAll(c, p);
  }

  lemma StartsIn(a: seq<byte>, t: seq<byte>, b: seq<byte>)
    ensures Starts(a + t + b, |a|, t)
  {
    var c := a + t + b;
    forall k | 0 <= k < |t| ensures c[|a| + k] == t[k] { assert c[|a| + k] == (a + t)[|a| + k]; }
    ElementsStart(c, |a|, t, 0);
  }

  lemma PartsOf(m: seq<byte>, a: seq<byte>, t: seq<byte>, b: seq<byte>, c: seq<byte>)
    requires c == m + (a + t + b) + [0]
    ensures |c| == |m| + |a| + |t| + |b| + 1 && c[|c| - 1] == 0 && (m == [] && a != [] ==> c[0] == a[0])
    ensures Starts(c, 0, m) && Starts(c, |m|, a) && Starts(c, |m| + |a|, t) && Starts(c, |m| + |a| + |t|, b)
  {
    assert c == [] + m + (a + t + b + [0]);
    StartsIn([], m, a + t + b + [0]);
    assert c == m + a + (t + b + [0]);
    StartsIn(m, a, t + b + [0]);
    assert c == (m + a) + t + (b + [0]);
    StartsIn(m + a, t, b + [0]);
    assert c == (m + a + t) + b + [0];
    StartsIn(m + a + t, b, [0]);
  }

  lemma LastBlank(c: seq<byte>)
    requires c != [] && c[|c| - 1] == 0
    ensures Blanks(c, |c| - 1, |c|)
  {
    assert Blanks(c, |c|, |c|);
  }

  /** Where the parts of a document stand. */
  lemma DocumentParts(m: seq<byte>, a: seq<byte>, t: seq<byte>, b: seq<byte>, c: seq<byte>, at: nat, e: nat)
    requires IsBlank(a) && IsBlank(b) && c == m + (a + t + b) + [0] && at == |m| + |a| && e == at + |t|
    ensures e < |c| && Blanks(c, |m|, at) == true && Starts(c, at, t) == true && Blanks(c, e, |c|) == true
    ensures c[|c| - 1] == 0 && Starts(c, 0, m) == true && (m == [] && a != [] ==> c[0] <= 32)
  {
    PartsOf(m, a, t, b, c);
    SpelledBlank(c, |m|, a);
    SpelledBlank(c, e, b);
    LastBlank(c);
    BlanksJoin(c, e, |c| - 1, |c|);
    if m == [] && a != [] { assert c[0] == a[0]; }
  }

  lemma NoMark(c: seq<byte>)
    requires c != [] && c[0] < 0x80
    ensures !Starts(c, 0, [0xEF, 0xBB, 0xBF])
  {
  }

  lemma SkipsMark(bom: bool, c: seq<byte>, at: nat)
    requires |Mark(bom)| <= at < |c| - 1 && 32 < c[at] < 0x80 && Blanks(c, |Mark(bom)|, at)
    requires bom ==> Starts(c, 0, [0xEF, 0xBB, 0xBF])
    requires !bom && at > 0 ==> c[0] <= 32
    ensures SkipBom(c) == |Mark(bom)| && Skip(c, SkipBom(c)) == at
  {
    SkipTo(c, |Mark(bom)|, at);
    if !bom { NoMark(c); }
  }

  lemma DocumentTurn(c: seq<byte>, at: nat, v: ValueAt, requireTerminator: bool)
    requires Skip(c, SkipBom(c)) == at && ParseValue(c, at, 0) == v
    ensures ParseDocument(c, requireTerminator) ==
              if v.NoValue? || !requireTerminator then v
              else if Is(c, Skip(c, v.end), 0) then ValueAt(v.value, Skip(c, v.end)) else NoValue
  {
  }

  lemma ValueParsed(c: seq<byte>, at: nat, x: Syntax, e: nat, requireTerminator: bool)
    requires Proper(x) && !Long(x) && SyntaxEnd(c, at, x) == End(e) && Skip(c, SkipBom(c)) == at
    requires e < |c| && Blanks(c, e, |c|) && c[|c| - 1] == 0
    ensures ParseDocument(c, requireTerminator) ==
              ValueWithin(0, Depth(x), Meaning(x), if requireTerminator then |c| - 1 else e)
  {
    SkipAll(c, e);
    assert c[e] <= 32;
    SyntaxReads(x, c, at, e, 0);
    DocumentTurn(c, at, ValueWithin(0, Depth(x), Meaning(x), e), requireTerminator);
  }

  lemma LongParsed(c: seq<byte>, at: nat, n: Figures, e: nat, requireTerminator: bool)
    requires ProperFigures(n) && Long(Num(n)) && SyntaxEnd(c, at, Num(n)) == End(e) && Skip(c, SkipBom(c)) == at
    ensures var r := ParseDocument(c, requireTerminator); r.ValueAt? ==> !requireTerminator && r.end < e
  {
    NumReads(c, at, n, e, 0);
    var v := ParseValue(c, at, 0);
    DocumentTurn(c, at, v, requireTerminator);
    if v.ValueAt? { SkipTo(c, v.end, v.end); }
  }

  /** What the parser makes of the syntax `x`, spelled up to `e`, in a document whose text ends at `last`: the value it
      stands for, exactly when it has one and is not nested too deeply. Nothing but a number of more than 63
      characters is refused if the document must end behind it, and else read in part. */
  predicate ReadsAs(r: ValueAt, x: Syntax, e: nat, last: nat, requireTerminator: bool) {
    if Long(x) then r.ValueAt? ==> !requireTerminator && r.end < e
    else
      r == if Meaning(x).Sense? && Depth(x) <= 1000
           then ValueAt(Meaning(x).value, if requireTerminator then last else e) else NoValue
  }

  /** Any JSON text is read so; the byte order mark before it and the white space around it do not matter. */
  lemma DocumentReads(bom: bool, a: seq<byte>, x: Syntax, b: seq<byte>, c: seq<byte>, requireTerminator: bool)
    requires IsBlank(a) && Proper(x) == true && IsBlank(b) && c == Input(bom, a + Spell(x) + b)
    ensures ReadsAs(ParseDocument(c, requireTerminator), x, |Mark(bom)| + |a| + |Spell(x)|, |c| - 1, requireTerminator)
  {
    var at := |Mark(bom)| + |a|;
    var e := at + |Spell(x)|;
    DocumentParts(Mark(bom), a, Spell(x), b, c, at, e);
    SyntaxParsed(bom, c, at, x, e, requireTerminator);
  }

  lemma SyntaxParsed(bom: bool, c: seq<byte>, at: nat, x: Syntax, e: nat, requireTerminator: bool)
    requires Proper(x) == true && Starts(c, at, Spell(x)) == true && e == at + |Spell(x)| < |c|
    requires Starts(c, 0, Mark(bom)) == true && c[|c| - 1] == 0
    requires Blanks(c, |Mark(bom)|, at) == true && Blanks(c, e, |c|) == true
    requires !bom && at > 0 ==> c[0] <= 32
    ensures ReadsAs(ParseDocument(c, requireTerminator), x, e, |c| - 1, requireTerminator) == true
  {
    SpelledSyntax(c, at, x);
    SyntaxFirst(c, at, x);
    SkipsMark(bom, c, at);
    if Long(x) {
      LongParsed(c, at, x.figures, e, requireTerminator);
    } else {
      ValueParsed(c, at, x, e, requireTerminator);
    }
  }
}
