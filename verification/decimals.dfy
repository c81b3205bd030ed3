/**
 * Exact decimal numbers in the shape of Python's `decimal.Decimal` for finite
 * values: a sign, a coefficient and a base-10 exponent. The sign is kept apart
 * from the coefficient so that negative zero ("-0.00") is a distinct value,
 * as it is in Python. Two decimals with different exponents can denote the
 * same number ("-50.00" and "-50"); comparisons are numeric, while the
 * representation is what gets carried into the ledger unchanged.
 */
module Decimals {

  datatype Decimal = Decimal(negative: bool, coefficient: nat, exponent: int)

  /** 10 to the power n. */
  function Pow10(n: nat): (r: nat)
    ensures r >= 1
    ensures n > 0 ==> r >= 10
  {
    if n == 0 then 1 else 10 * Pow10(n - 1)
  }

  /** The magnitude a decimal denotes, as an exact rational. */
  function Magnitude(d: Decimal): real {
    if d.exponent >= 0 then (d.coefficient * Pow10(d.exponent)) as real
    else d.coefficient as real / Pow10(-d.exponent) as real
  }

  /** The signed rational number a decimal denotes. */
  function Value(d: Decimal): real {
    if d.negative then -Magnitude(d) else Magnitude(d)
  }

  /** Python's `==` on decimals: equality of the numbers denoted. */
  predicate NumEq(a: Decimal, b: Decimal) {
    Value(a) == Value(b)
  }

  /** Python's `d < 0` on a decimal. */
  predicate IsNegative(d: Decimal) {
    Value(d) < 0.0
  }

  /** The magnitude is zero exactly when the coefficient is. */
  lemma MagnitudeZeroIff(d: Decimal)
    ensures Magnitude(d) >= 0.0
    ensures Magnitude(d) == 0.0 <==> d.coefficient == 0
  {
    var p := if d.exponent >= 0 then Pow10(d.exponent) else Pow10(-d.exponent);
    assert p >= 1;
    if d.exponent < 0 && d.coefficient > 0 {
      assert Magnitude(d) * p as real == d.coefficient as real;
    }
  }

  /**
   * A decimal is below zero exactly when its sign is negative and its
   * coefficient is not zero: negative zero is not negative.
   */
  lemma NegativeIff(d: Decimal)
    ensures IsNegative(d) <==> d.negative && d.coefficient > 0
  {
    MagnitudeZeroIff(d);
  }

  /** Numeric equality ignores the exponent: "-50.00" equals "-50". */
  lemma TrailingZerosAreEqual(negative: bool, c: nat, e: int)
    ensures NumEq(Decimal(negative, c * 10, e - 1), Decimal(negative, c, e))
  {
    var a := Decimal(negative, c * 10, e - 1);
    var b := Decimal(negative, c, e);
    if e >= 1 {
      var p := Pow10(e - 1);
      assert Pow10(e) == 10 * p;
      assert c * 10 * p == c * (10 * p);
      assert Magnitude(a) == Magnitude(b);
    } else if e == 0 {
      assert Pow10(1) == 10;
      assert Magnitude(a) == (c * 10) as real / 10.0;
      assert Magnitude(a) == Magnitude(b);
    } else {
      var q := Pow10(-e);
      assert Pow10(1 - e) == 10 * q;
      ScaleBothByTen(c, q);
      assert Magnitude(a) == Magnitude(b);
    }
  }

  lemma ScaleBothByTen(c: nat, q: nat)
    requires q >= 1
    ensures (c * 10) as real / (10 * q) as real == c as real / q as real
  {
    var x := c as real / q as real;
    assert x * q as real == c as real;
    assert x * (10 * q) as real == (c * 10) as real;
  }
}
