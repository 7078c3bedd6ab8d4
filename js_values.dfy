/** The handful of JavaScript value behaviours the worker relies on:
    missing form fields, numbers that may be NaN, and the decimal text a
    whole number turns into when it is concatenated to a string. */
module JsValues {

  datatype Option<+T> = None | Some(value: T)

  datatype Result<+T, +E> = Success(value: T) | Failure(error: E)

  /** A JavaScript number as the worker can meet it: a finite value, or NaN
      (what `parseFloat` gives for a missing or non-numeric field, and what
      arithmetic on NaN gives back). */
  datatype Num = Finite(value: real) | NaN

  /** `a + b` on numbers: NaN if either side is NaN. */
  function Add(a: Num, b: Num): Num {
    if a.Finite? && b.Finite? then Finite(a.value + b.value) else NaN
  }

  /** `a * b` on numbers: NaN if either side is NaN. */
  function Mul(a: Num, b: Num): Num {
    if a.Finite? && b.Finite? then Finite(a.value * b.value) else NaN
  }

  /** `a < b` on numbers: every comparison with NaN is false. */
  predicate Less(a: Num, b: Num) {
    a.Finite? && b.Finite? && a.value < b.value
  }

  /** `n || 0`: NaN and zero are falsy, so both become 0. */
  function OrZero(n: Num): (r: real)
    ensures n.Finite? ==> r == n.value
    ensures n.NaN? ==> r == 0.0
  {
    if n.Finite? then n.value else 0.0
  }

  lemma AddZeroLeft(a: Num)
    ensures Add(Finite(0.0), a) == a
  {
  }

  lemma MulOne(a: Num)
    ensures Mul(a, Finite(1.0)) == a
  {
  }

  function DigitChar(d: nat): char
    requires d < 10
  {
    ('0' as int + d) as char
  }

  function DigitValue(c: char): nat {
    if '0' <= c <= '9' then c as int - '0' as int else 0
  }

  predicate IsDigit(c: char) {
    '0' <= c <= '9'
  }

  /** The text JavaScript produces for a whole number below 10^21 when it is
      concatenated to a string: its decimal digits, no sign, no leading zero. */
  function DecimalString(n: nat): (s: string)
    ensures |s| > 0
    ensures forall i :: 0 <= i < |s| ==> IsDigit(s[i])
    ensures |s| > 1 ==> s[0] != '0'
    decreases n
  {
    if n < 10 then [DigitChar(n)] else DecimalString(n / 10) + [DigitChar(n % 10)]
  }

  /** Reads a string of decimal digits back as a number. */
  function DecimalValue(s: string): nat
    decreases |s|
  {
    if s == [] then 0 else DecimalValue(s[..|s| - 1]) * 10 + DigitValue(s[|s| - 1])
  }

  /** Decimal text loses nothing: reading it back gives the number. */
  lemma {:induction false} DecimalRoundTrip(n: nat)
    ensures DecimalValue(DecimalString(n)) == n
    decreases n
  {
    var s := DecimalString(n);
    if n >= 10 {
      DecimalRoundTrip(n / 10);
      assert s[..|s| - 1] == DecimalString(n / 10);
    }
  }

  /** Different numbers have different decimal text. */
  lemma DecimalInjective(m: nat, n: nat)
    requires m != n
    ensures DecimalString(m) != DecimalString(n)
  {
    DecimalRoundTrip(m);
    DecimalRoundTrip(n);
  }
}
