/** JSON numbers. The library functions are modelled on exact arithmetic: `Strtod` reads a decimal
    numeral as the real number it denotes, `IntText` is what %d prints. */
module JsonNumbers {
  import opened Bytes

  // ---- reading ----

  /** The characters parse_number copies for strtod. */
  predicate IsNumberByte(b: byte) {
    IsDigit(b) || b == PLUS || b == MINUS || b == SMALL_E || b == BIG_E || b == DOT
  }

  function DigitRun(s: seq<byte>, i: nat): (j: nat)
    requires i <= |s|
    ensures i <= j <= |s|
    decreases |s| - i
  {
    if i < |s| && IsDigit(s[i]) then DigitRun(s, i + 1) else i
  }

  function DigitValue(b: byte): (d: nat)
    ensures d < 10
  {
    if IsDigit(b) then var n: int := b; n - 48 else 0
  }

  /** The value of a string of digits. */
  function Decimal(t: seq<byte>): nat {
    if t == [] then 0 else Decimal(t[..|t| - 1]) * 10 + DigitValue(t[|t| - 1])
  }

  function Pow10(n: nat): real { if n == 0 then 1.0 else 10.0 * Pow10(n - 1) }

  lemma {:induction false} Pow10Positive(n: nat)
    ensures Pow10(n) > 0.0
  {
    if n == 0 {
    } else {
      Pow10Positive(n - 1);
    }
  }

  function Scale(x: real, e: int): real {
    if e >= 0 then x * Pow10(e) else Pow10Positive(-e); x / Pow10(-e)
  }

  /** Where the exponent part at `k` ends, if there is one; else `k`. */
  function ExponentEnd(s: seq<byte>, k: nat): (j: nat)
    requires k <= |s|
    ensures k <= j <= |s|
  {
    if k < |s| && (s[k] == SMALL_E || s[k] == BIG_E) then
      var i := if k + 1 < |s| && (s[k + 1] == PLUS || s[k + 1] == MINUS) then k + 2 else k + 1;
      var j := DigitRun(s, i);
      if j == i then k else j
    else k
  }

  function ExponentValue(s: seq<byte>, k: nat): int
    requires k <= |s|
  {
    var j := ExponentEnd(s, k);
    if j == k then 0
    else
      var i := if s[k + 1] == PLUS || s[k + 1] == MINUS then k + 2 else k + 1;
      assert j == DigitRun(s, i);
      var e: int := Decimal(s[i..j]);
      if s[k + 1] == MINUS then -e else e
  }

  datatype Numeral = Numeral(length: nat, value: real)

  /** strtod on a string of number characters: how many it takes (none on failure) and the value. */
  function Strtod(s: seq<byte>): (r: Numeral)
    ensures r.length <= |s|
  {
    var i := if s != [] && (s[0] == PLUS || s[0] == MINUS) then 1 else 0;
    var j := DigitRun(s, i);
    var dot := j < |s| && s[j] == DOT;
    var k := if dot then DigitRun(s, j + 1) else j;
    var fraction := if dot then s[j + 1..k] else [];
    if j == i && fraction == [] then Numeral(0, 0.0)
    else
      var mantissa := Decimal(s[i..j]) as real + Scale(Decimal(fraction) as real, -|fraction|);
      Numeral(ExponentEnd(s, k), Scale(if s[0] == MINUS then -mantissa else mantissa, ExponentValue(s, k)))
  }

  /** A number that was read, and the position behind it. */
  datatype NumberAt = NoNumber | NumberAt(value: real, end: nat)

  /** parse_number at `at`, once it has copied `k` characters. No more than 63 are looked at. */
  function NumberFrom(c: seq<byte>, at: nat, k: nat): (r: NumberAt)
    requires at + k <= |c| && k <= 63
    ensures r.NumberAt? ==> at < r.end <= |c|
    decreases 63 - k
  {
    if k < 63 && at + k < |c| && IsNumberByte(c[at + k]) then NumberFrom(c, at, k + 1)
    else
      var r := Strtod(c[at..at + k]);
      if r.length == 0 then NoNumber else NumberAt(r.value, at + r.length)
  }

  function ParseNumber(c: seq<byte>, at: nat): NumberAt
    requires at <= |c|
  {
    NumberFrom(c, at, 0)
  }

  /** The `valueint` that goes with a value: truncated, and saturated at the limits of int. */
  function IntOf(x: real): (n: int)
    ensures INT_MIN <= n <= INT_MAX
  {
    if x >= INT_MAX as real then INT_MAX
    else if x <= INT_MIN as real then INT_MIN
    else if x >= 0.0 then x.Floor
    else -(-x).Floor
  }

  lemma IntOfInt(n: int)
    requires INT_MIN <= n <= INT_MAX
    ensures IntOf(n as real) == n
  {
  }

  /** Within the range of int the number is cut off towards zero; beyond it the limit is taken. */
  lemma IntOfTruncates(x: real)
    ensures x >= INT_MAX as real ==> IntOf(x) == INT_MAX
    ensures x <= INT_MIN as real ==> IntOf(x) == INT_MIN
    ensures 0.0 <= x < INT_MAX as real ==> IntOf(x) as real <= x < IntOf(x) as real + 1.0
    ensures INT_MIN as real < x <= 0.0 ==> IntOf(x) as real - 1.0 < x <= IntOf(x) as real
  {
  }

  // ---- printing ----

  function Digits(n: nat): (r: seq<byte>)
    ensures |r| >= 1 && forall i :: 0 <= i < |r| ==> IsDigit(r[i])
  {
    if n < 10 then [48 + n] else Digits(n / 10) + [48 + n % 10]
  }

  function IntText(n: int): (r: seq<byte>)
    ensures |r| >= 1 && forall i :: 0 <= i < |r| ==> IsNumberByte(r[i])
    ensures IsDigit(r[0]) || r[0] == MINUS
  {
    if n < 0 then [MINUS] + Digits(-n) else Digits(n)
  }

  // ---- how long a printed integer is ----

  function IntPow10(k: nat): nat { if k == 0 then 1 else 10 * IntPow10(k - 1) }

  lemma {:induction false} DigitsLength(n: nat, k: nat)
    requires k >= 1 && n < IntPow10(k)
    ensures |Digits(n)| <= k
  {
    if n < 10 {
    } else {
      DigitsLength(n / 10, k - 1);
    }
  }

  lemma IntTextLength(n: int)
    requires INT_MIN <= n <= INT_MAX
    ensures |IntText(n)| <= 11
  {
    assert IntPow10(10) == 10_000_000_000 by {
      assert IntPow10(3) == 1_000;
      assert IntPow10(6) == 1_000_000;
      assert IntPow10(9) == 1_000_000_000;
    }
    DigitsLength(if n < 0 then -n else n, 10);
  }

  // ---- what parse_number copies ----

  /** The characters parse_number copies are those of the numeral. */
  lemma {:induction false} NumeralCopied(c: seq<byte>, at: nat, t: seq<byte>, k: nat)
    requires k <= |t| <= 63 && at + |t| < |c| && !IsNumberByte(c[at + |t|])
    requires forall i :: 0 <= i < |t| ==> IsNumberByte(t[i]) && c[at + i] == t[i]
    ensures NumberFrom(c, at, k) == NumberFrom(c, at, |t|)
    decreases |t| - k
  {
    if k == |t| {
    } else {
      assert c[at + k] == t[k];
      NumeralCopied(c, at, t, k + 1);
    }
  }

  lemma NumeralRead(c: seq<byte>, at: nat, t: seq<byte>, x: real)
    requires 0 < |t| <= 63 && at + |t| < |c| && !IsNumberByte(c[at + |t|]) && Strtod(t) == Numeral(|t|, x)
    requires forall i :: 0 <= i < |t| ==> c[at + i] == t[i]
    ensures NumberFrom(c, at, |t|) == NumberAt(x, at + |t|)
  {
    CopyOf(c, at, t);
  }

  lemma CopyOf(c: seq<byte>, at: nat, t: seq<byte>)
    requires at + |t| <= |c| && forall i :: 0 <= i < |t| ==> c[at + i] == t[i]
    ensures c[at..at + |t|] == t
  {
  }
}
