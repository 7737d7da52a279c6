/** parse_number reads every number of the grammar as the real number its digits denote, as long as it has no more
    than 63 characters; of a longer one it takes a part. */
module JsonNumberReading {
  import opened Bytes
  import opened JsonStringProofs
  import opened JsonNumbers
  import opened JsonGrammar
  import opened JsonMeaning

  // ---- digits ----

  lemma {:induction false} WorthRead(t: seq<byte>)
    ensures Decimal(t) == Worth(t)
  {
    if t == [] {
    } else {
      WorthRead(t[..|t| - 1]);
    }
  }

  lemma {:induction false} TenIs(n: nat)
    ensures Ten(n) == Pow10(n)
  {
    if n == 0 {
    } else {
      TenIs(n - 1);
    }
  }

  lemma {:induction false} DigitsTo(s: seq<byte>, i: nat, j: nat)
    requires i <= j <= |s| && (forall m :: i <= m < j ==> IsDigit(s[m])) && (j < |s| ==> !IsDigit(s[j]))
    ensures DigitRun(s, i) == j
    decreases j - i
  {
    if i == j {
    } else {
      DigitsTo(s, i + 1, j);
    }
  }

  /** A run of digits `t` between a front and a rest that begins with no digit. */
  lemma RunOf(a: seq<byte>, t: seq<byte>, b: seq<byte>)
    requires AreDigits(t) && (b != [] ==> !IsDigit(b[0]))
    ensures DigitRun(a + t + b, |a|) == |a| + |t| && (a + t + b)[|a|..|a| + |t|] == t
  {
    var s := a + t + b;
    forall m | |a| <= m < |a| + |t| ensures IsDigit(s[m]) { assert s[m] == t[m - |a|]; }
    DigitsTo(s, |a|, |a| + |t|);
  }

  // ---- the parts of a number ----

  function Sign(n: Figures): seq<byte> { if n.minus then [0x2D] else [] }

  function Behind(x: Fraction): seq<byte> { if x.NoFraction? then [] else x.digits }

  lemma NoDigitFirst(x: Exponent)
    requires ProperExponent(x)
    ensures SpellExponent(x) != [] ==> SpellExponent(x)[0] in {0x65, 0x45}
  {
  }

  /** What strtod takes, more than the grammar has: zeros may lead, and digits may be missing before or behind
      the point, but not both. */
  predicate Numeric(n: Figures) {
    && AreDigits(n.whole) && AreDigits(Behind(n.fraction)) && (n.whole != [] || Behind(n.fraction) != [])
    && ProperExponent(n.exponent)
  }

  lemma WholeRead(n: Figures)
    requires Numeric(n)
    ensures var s := SpellFigures(n);
            && s != [] && (if n.minus then s[0] == MINUS else s[0] == DOT || IsDigit(s[0]))
            && DigitRun(s, |Sign(n)|) == |Sign(n)| + |n.whole|
            && s[|Sign(n)|..|Sign(n)| + |n.whole|] == n.whole
  {
    NoDigitFirst(n.exponent);
    var rest := SpellFraction(n.fraction) + SpellExponent(n.exponent);
    assert SpellFigures(n) == Sign(n) + n.whole + rest;
    RunOf(Sign(n), n.whole, rest);
  }

  lemma NoPoint(front: seq<byte>, x: Exponent)
    requires ProperExponent(x)
    ensures var s := front + SpellExponent(x); |front| == |s| || s[|front|] != DOT
  {
    NoDigitFirst(x);
  }

  lemma Point(front: seq<byte>, digits: seq<byte>, x: Exponent)
    requires ProperExponent(x) && AreDigits(digits)
    ensures var s, j := front + [0x2E] + digits + SpellExponent(x), |front|;
            && s[j] == DOT && DigitRun(s, j + 1) == j + 1 + |digits|
            && s[j + 1..j + 1 + |digits|] == digits
  {
    NoDigitFirst(x);
    RunOf(front + [0x2E], digits, SpellExponent(x));
  }

  /** Between `j` and `k` stands the fraction. */
  predicate FractionStands(s: seq<byte>, j: nat, x: Fraction, k: nat)
    requires j <= |s|
  {
    if x.NoFraction? then (j == |s| || s[j] != DOT) && k == j
    else j < |s| && s[j] == DOT && DigitRun(s, j + 1) == k && j + 1 <= k <= |s| && s[j + 1..k] == x.digits
  }

  lemma FractionRead(n: Figures)
    requires Numeric(n)
    ensures var s, j := SpellFigures(n), |Sign(n)| + |n.whole|;
            j <= |s| && FractionStands(s, j, n.fraction, j + |SpellFraction(n.fraction)|)
  {
    var front := Sign(n) + n.whole;
    if n.fraction.NoFraction? {
      NoPoint(front, n.exponent);
      assert SpellFigures(n) == front + SpellExponent(n.exponent);
    } else {
      Point(front, n.fraction.digits, n.exponent);
      assert SpellFigures(n) == front + [0x2E] + n.fraction.digits + SpellExponent(n.exponent);
    }
  }

  function ExponentOf(x: Exponent): int
    requires ProperExponent(x)
  {
    if x.NoExponent? then 0 else if x.sign == [0x2D] then -(Worth(x.digits) as int) else Worth(x.digits)
  }

  /** An exponent part that begins at `k`, its digits at `i`. */
  lemma ExponentIs(s: seq<byte>, k: nat, i: nat)
    requires k + 1 < |s| && (s[k] == SMALL_E || s[k] == BIG_E)
    requires i == (if s[k + 1] == PLUS || s[k + 1] == MINUS then k + 2 else k + 1) < |s| && DigitRun(s, i) == |s|
    ensures ExponentEnd(s, k) == |s|
    ensures ExponentValue(s, k) == if s[k + 1] == MINUS then -(Decimal(s[i..]) as int) else Decimal(s[i..])
  {
    assert s[i..|s|] == s[i..];
  }

  lemma ExponentRead(front: seq<byte>, x: Exponent)
    requires ProperExponent(x)
    ensures var s := front + SpellExponent(x);
            ExponentEnd(s, |front|) == |s| && ExponentValue(s, |front|) == ExponentOf(x)
  {
    if x.Exponent? {
      var s := front + SpellExponent(x);
      var i := |front| + 1 + |x.sign|;
      ExponentParts(front, x, s, i);
      WorthRead(x.digits);
      ExponentIs(s, |front|, i);
    }
  }

  lemma ExponentParts(front: seq<byte>, x: Exponent, s: seq<byte>, i: nat)
    requires ProperExponent(x) && x.Exponent? && s == front + SpellExponent(x) && i == |front| + 1 + |x.sign|
    ensures i < |s| && DigitRun(s, i) == |s| && s[i..] == x.digits && s[|front|] == x.mark
    ensures s[|front| + 1] == if x.sign == [] then x.digits[0] else x.sign[0]
  {
    assert s == (front + [x.mark] + x.sign) + x.digits + [];
    RunOf(front + [x.mark] + x.sign, x.digits, []);
    assert s[i..|s|] == s[i..];
  }

  // ---- the value ----

  /** The number before its sign and exponent are looked at. */
  function Magnitude(whole: seq<byte>, fraction: seq<byte>): real {
    Decimal(whole) as real + Scale(Decimal(fraction) as real, -|fraction|)
  }

  lemma MantissaRead(n: Figures)
    ensures var m := Magnitude(n.whole, Behind(n.fraction)); Mantissa(n) == if n.minus then -m else m
  {
    WorthRead(n.whole);
    WorthRead(Behind(n.fraction));
    TenIs(|Behind(n.fraction)|);
  }

  lemma ScaledUp(m: real, k: nat)
    ensures Scale(m, k) == m * Ten(k)
  {
    TenIs(k);
  }

  lemma ScaledDown(m: real, k: nat)
    ensures Scale(m, -(k as int)) == m / Ten(k)
  {
    TenIs(k);
  }

  lemma ScaledRead(m: real, x: Exponent)
    requires ProperExponent(x)
    ensures Shifted(m, x) == Scale(m, ExponentOf(x))
  {
    if x.NoExponent? {
      ScaledUp(m, 0);
    } else if x.sign == [0x2D] {
      ScaledDown(m, Worth(x.digits));
    } else {
      ScaledUp(m, Worth(x.digits));
    }
  }

  /** strtod on a string whose digits end at `j`, with the fraction behind it, if there is one. */
  lemma StrtodIs(s: seq<byte>, i: nat, j: nat, x: Fraction, k: nat, m: real)
    requires i == (if s != [] && (s[0] == PLUS || s[0] == MINUS) then 1 else 0) <= j <= |s| && DigitRun(s, i) == j
    requires s != [] && (i < j || Behind(x) != []) && FractionStands(s, j, x, k) && k <= |s|
    requires m == if s[0] == MINUS then -Magnitude(s[i..j], Behind(x)) else Magnitude(s[i..j], Behind(x))
    ensures Strtod(s) == Numeral(ExponentEnd(s, k), Scale(m, ExponentValue(s, k)))
  {
    var dot := j < |s| && s[j] == DOT;
    if x.NoFraction? {
      assert !dot;
    } else {
      assert dot;
    }
  }

  lemma FiguresStrtod(n: Figures, m: real)
    requires Numeric(n)
    requires var t := Magnitude(n.whole, Behind(n.fraction)); m == if n.minus then -t else t
    ensures Strtod(SpellFigures(n)) == Numeral(|SpellFigures(n)|, Scale(m, ExponentOf(n.exponent)))
  {
    var s := SpellFigures(n);
    var i := |Sign(n)|;
    var j := i + |n.whole|;
    var k := j + |SpellFraction(n.fraction)|;
    WholeRead(n);
    FractionRead(n);
    FiguresExponent(n, s, k);
    StrtodIs(s, i, j, n.fraction, k, m);
  }

  lemma FiguresRead(n: Figures)
    requires Numeric(n)
    ensures Strtod(SpellFigures(n)) == Numeral(|SpellFigures(n)|, ValueOf(n))
  {
    var m := Mantissa(n);
    MantissaRead(n);
    ScaledRead(m, n.exponent);
    FiguresStrtod(n, m);
  }

  lemma FiguresExponent(n: Figures, s: seq<byte>, k: nat)
    requires Numeric(n) && s == SpellFigures(n) && k == |Sign(n)| + |n.whole| + |SpellFraction(n.fraction)|
    ensures k <= |s| && ExponentEnd(s, k) == |s| && ExponentValue(s, k) == ExponentOf(n.exponent)
  {
    var front := Sign(n) + n.whole + SpellFraction(n.fraction);
    assert s == front + SpellExponent(n.exponent);
    ExponentRead(front, n.exponent);
  }

  // ---- in the input ----

  lemma NumberBytes(n: Figures)
    requires ProperFigures(n)
    ensures forall i :: 0 <= i < |SpellFigures(n)| ==> IsNumberByte(SpellFigures(n)[i])
    ensures SpellFigures(n) != [] && (SpellFigures(n)[0] == MINUS || IsDigit(SpellFigures(n)[0]))
  {
  }

  lemma NumberReads(c: seq<byte>, at: nat, n: Figures)
    requires ProperFigures(n) && |SpellFigures(n)| <= 63 && Starts(c, at, SpellFigures(n))
    requires at + |SpellFigures(n)| < |c| && !IsNumberByte(c[at + |SpellFigures(n)|])
    ensures ParseNumber(c, at) == NumberAt(ValueOf(n), at + |SpellFigures(n)|)
  {
    var t := SpellFigures(n);
    NumberBytes(n);
    StartsElements(c, at, t, 0);
    NumeralCopied(c, at, t, 0);
    FiguresRead(n);
    NumeralRead(c, at, t, ValueOf(n));
  }

  lemma {:induction false} FrontCopied(c: seq<byte>, at: nat, t: seq<byte>, k: nat)
    requires k <= 63 < |t| && at + |t| <= |c|
    requires forall i :: 0 <= i < |t| ==> IsNumberByte(t[i]) && c[at + i] == t[i]
    ensures NumberFrom(c, at, k).NumberAt? ==> NumberFrom(c, at, k).end <= at + 63
    decreases 63 - k
  {
    if k == 63 {
    } else {
      assert c[at + k] == t[k];
      FrontCopied(c, at, t, k + 1);
    }
  }

  /** Of a longer number a part is read, and the parser is left in the midst of it. */
  lemma LongNumberReads(c: seq<byte>, at: nat, n: Figures)
    requires ProperFigures(n) && |SpellFigures(n)| > 63 && Starts(c, at, SpellFigures(n))
    ensures var r := ParseNumber(c, at);
            r.NumberAt? ==> at < r.end < at + |SpellFigures(n)| && IsNumberByte(c[r.end])
  {
    var t := SpellFigures(n);
    NumberBytes(n);
    StartsElements(c, at, t, 0);
    FrontCopied(c, at, t, 0);
    var r := ParseNumber(c, at);
    if r.NumberAt? { assert c[at + (r.end - at)] == t[r.end - at]; }
  }
}
