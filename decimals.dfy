/** Exact fixed-point decimals, the way Python's decimal.Decimal holds a
    price: an integer coefficient and the number of digits written after the
    point. 1.99 is Decimal(199, 2); 1.990 is Decimal(1990, 3), which has the
    same value but three fractional digits, and a validator sees the
    difference. */
module Decimals {

  datatype Decimal = Decimal(unscaled: int, scale: nat)

  /** The integer 0 that Python's sum() starts from. */
  const Zero := Decimal(0, 0)

  function Max(a: nat, b: nat): nat { if a < b then b else a }

  function Abs(x: int): nat { if x < 0 then -x else x }

  function Pow10(k: nat): (r: nat)
    ensures r >= 1
  {
    if k == 0 then 1 else 10 * Pow10(k - 1)
  }

  lemma {:induction false} Pow10Add(i: nat, j: nat)
    ensures Pow10(i + j) == Pow10(i) * Pow10(j)
  {
    if i > 0 {
      Pow10Add(i - 1, j);
      assert Pow10(i + j) == 10 * Pow10(i - 1 + j);
    }
  }

  lemma {:induction false} Pow10Monotone(i: nat, j: nat)
    requires i <= j
    ensures Pow10(i) <= Pow10(j)
  {
    if i < j { Pow10Monotone(i, j - 1); }
  }

  /** The exact value of a decimal. */
  function Value(d: Decimal): real
  {
    d.unscaled as real / Pow10(d.scale) as real
  }

  /** Number of digits of the coefficient; 0 has one digit, as in
      Decimal.as_tuple(). */
  function NumDigits(n: nat): (r: nat)
    ensures r >= 1
  {
    if n < 10 then 1 else 1 + NumDigits(n / 10)
  }

  /** A coefficient has at most k digits exactly when it is below 10^k. */
  lemma {:induction false} NumDigitsBound(n: nat, k: nat)
    requires k >= 1
    ensures NumDigits(n) <= k <==> n < Pow10(k)
  {
    if n < 10 {
      Pow10Monotone(1, k);
    } else if k == 1 {
      assert NumDigits(n) == 1 + NumDigits(n / 10);
    } else {
      NumDigitsBound(n / 10, k - 1);
      assert Pow10(k) == 10 * Pow10(k - 1);
    }
  }

  /** Digits counted as a decimal-digits validator counts them: the
      coefficient's digits, or the fractional digits when there are more of
      those (0.05 has two digits, both after the point). */
  function Digits(d: Decimal): nat
  {
    Max(NumDigits(Abs(d.unscaled)), d.scale)
  }

  /** Digits before the point. */
  function WholeDigits(d: Decimal): nat
  {
    Digits(d) - d.scale
  }

  /** x / p keeps its value when both sides are multiplied by q. */
  lemma ScaleFraction(x: real, p: real, q: real)
    requires p > 0.0 && q > 0.0
    ensures x / p == (x * q) / (p * q)
  {
    assert (x / p) * (p * q) == x * q;
  }

  lemma MulToReal(x: int, y: int)
    ensures (x * y) as real == x as real * y as real
  {
  }

  /** Rewriting a decimal at a larger scale keeps its value. */
  lemma Rescale(d: Decimal, k: nat)
    ensures Value(Decimal(d.unscaled * Pow10(k), d.scale + k)) == Value(d)
  {
    var p, q := Pow10(d.scale), Pow10(k);
    Pow10Add(d.scale, k);
    MulToReal(d.unscaled, q);
    MulToReal(p, q);
    ScaleFraction(d.unscaled as real, p as real, q as real);
  }

  lemma SumFraction(x: real, y: real, p: real)
    requires p > 0.0
    ensures (x + y) / p == x / p + y / p
  {
  }

  lemma DivBounds(x: real, c: real, q: real)
    requires q > 0.0
    ensures x / q < c <==> x < c * q
    ensures -c < x / q <==> -c * q < x
  {
    assert x == (x / q) * q;
  }

  /** A coefficient below 10^(k + scale) in absolute value is a value
      strictly between -10^k and 10^k. */
  lemma ValueBound(d: Decimal, k: nat)
    ensures Abs(d.unscaled) < Pow10(k + d.scale) <==> -(Pow10(k) as real) < Value(d) < Pow10(k) as real
  {
    var p, q := Pow10(k), Pow10(d.scale);
    Pow10Add(k, d.scale);
    MulToReal(p, q);
    DivBounds(d.unscaled as real, p as real, q as real);
  }

  /** Two decimals with the same scale and the same value are the same
      representation. */
  lemma SameValueSameScale(a: Decimal, b: Decimal)
    requires a.scale == b.scale && Value(a) == Value(b)
    ensures a == b
  {
    var p := Pow10(a.scale) as real;
    assert a.unscaled as real == Value(a) * p;
    assert b.unscaled as real == Value(b) * p;
  }

  /** Exact addition, as Python's Decimal adds when no precision is lost:
      the result carries the larger of the two scales. */
  function Add(a: Decimal, b: Decimal): (r: Decimal)
    ensures r.scale == Max(a.scale, b.scale)
    ensures Value(r) == Value(a) + Value(b)
  {
    var s := Max(a.scale, b.scale);
    var ka, kb := s - a.scale, s - b.scale;
    Rescale(a, ka);
    Rescale(b, kb);
    var r := Decimal(a.unscaled * Pow10(ka) + b.unscaled * Pow10(kb), s);
    SumFraction((a.unscaled * Pow10(ka)) as real, (b.unscaled * Pow10(kb)) as real, Pow10(s) as real);
    r
  }

  /** Adding the starting 0 changes nothing. */
  lemma AddZero(d: Decimal)
    ensures Add(d, Zero) == d
  {
    SameValueSameScale(Add(d, Zero), d);
  }

  /** The order in which prices are added does not change the sum, not even
      its representation. */
  lemma AddExchange(a: Decimal, b: Decimal, c: Decimal)
    ensures Add(a, Add(b, c)) == Add(b, Add(a, c))
  {
    SameValueSameScale(Add(a, Add(b, c)), Add(b, Add(a, c)));
  }
}
