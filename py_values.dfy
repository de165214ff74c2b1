/** Python values as far as the external-call rollup handles them: the values
    stored in a span's params dict, and the text that `%s` formatting (Python's
    str()) puts into a metric name. */
module PyValues {

  datatype Option<+T> = None | Some(value: T)

  /** A value held in a Python dict or attribute. `Other` stands for any object
      not listed here (a float, a bool, ...), given by the text str() makes of it. */
  datatype Value = PyNone | Str(s: string) | Int(i: int) | Other(shown: string)

  predicate IsDigit(c: char) {
    '0' <= c <= '9'
  }

  predicate AllDigits(s: string) {
    forall i :: 0 <= i < |s| ==> IsDigit(s[i])
  }

  function DigitChar(d: nat): (c: char)
    requires d < 10
    ensures IsDigit(c) && c as int - '0' as int == d
  {
    ('0' as int + d) as char
  }

  /** The decimal text str() gives for a non-negative integer: digits only,
      never empty, and without leading zeros. */
  function Decimal(n: nat): (s: string)
    ensures |s| > 0 && AllDigits(s)
    ensures n == 0 <==> s == "0"
    ensures |s| > 1 ==> s[0] != '0'
  {
    if n < 10 then [DigitChar(n)] else Decimal(n / 10) + [DigitChar(n % 10)]
  }

  /** The number a run of decimal digits denotes. */
  function DigitsValue(s: string): nat
    requires AllDigits(s)
  {
    if s == [] then 0 else DigitsValue(s[..|s| - 1]) * 10 + (s[|s| - 1] as int - '0' as int)
  }

  /** Reading back the decimal text of n gives n. */
  lemma {:induction false} DecimalRoundTrip(n: nat)
    ensures DigitsValue(Decimal(n)) == n
  {
    if n >= 10 {
      var s := Decimal(n);
      assert s[..|s| - 1] == Decimal(n / 10);
      DecimalRoundTrip(n / 10);
    }
  }

  /** str() of a value: what `'%s' % v` inserts into a name. */
  function Show(v: Value): (r: string)
    ensures v.PyNone? ==> r == "None"
    ensures v.Str? ==> r == v.s
    ensures v.Int? && v.i >= 0 ==> AllDigits(r) && DigitsValue(r) == v.i
    ensures v.Int? && v.i < 0 ==> |r| > 1 && r[0] == '-' && AllDigits(r[1..]) && DigitsValue(r[1..]) == -v.i
  {
    match v
    case PyNone => "None"
    case Str(s) => s
    case Int(i) =>
      if i < 0 then
        DecimalRoundTrip(-i);
        assert ("-" + Decimal(-i))[1..] == Decimal(-i);
        "-" + Decimal(-i)
      else
        DecimalRoundTrip(i);
        Decimal(i)
    case Other(shown) => shown
  }

  /** The text of an integer determines the integer. */
  lemma ShowIntInjective(i: int, j: int)
    requires Show(Int(i)) == Show(Int(j))
    ensures i == j
  {
    if i < 0 && j < 0 {
      assert Show(Int(i))[1..] == Show(Int(j))[1..];
    }
  }
}
