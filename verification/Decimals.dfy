/** Decimal numbers as coefficient and exponent, and `quantize` with ROUND_DOWN as the General Decimal
    Arithmetic Specification defines it: the result takes the exponent of the second operand, and digits
    beyond it are cut off. */
module Decimals {

  /** coef * 10^exp */
  datatype Dec = Dec(coef: int, exp: int)

  function Pow10(n: nat): (r: nat)
    ensures r >= 1
  {
    if n == 0 then 1 else 10 * Pow10(n - 1)
  }

  /** Division that truncates toward zero. */
  function Truncate(a: int, b: nat): int
    requires b > 0
  {
    if a >= 0 then a / b else -(-a / b)
  }

  function Quantize(d: Dec, step: Dec): Dec {
    if d.exp >= step.exp then Dec(d.coef * Pow10(d.exp - step.exp), step.exp)
    else Dec(Truncate(d.coef, Pow10(step.exp - d.exp)), step.exp)
  }

  /** The coefficient at a smaller exponent. */
  function Scaled(d: Dec, exp: int): int
    requires exp <= d.exp
  {
    d.coef * Pow10(d.exp - exp)
  }

  function MinInt(a: int, b: int): int { if a <= b then a else b }

  predicate AtMost(a: Dec, b: Dec) {
    Scaled(a, MinInt(a.exp, b.exp)) <= Scaled(b, MinInt(a.exp, b.exp))
  }

  function Times(a: Dec, b: Dec): Dec { Dec(a.coef * b.coef, a.exp + b.exp) }

  predicate Positive(d: Dec) { d.coef > 0 }

  // ----- powers of ten -----

  lemma {:induction false} Pow10Add(m: nat, n: nat)
    ensures Pow10(m + n) == Pow10(m) * Pow10(n)
  {
    if m != 0 { Pow10Add(m - 1, n); }
  }

  lemma ScaleFurther(d: Dec, e: int, f: int)
    requires f <= e <= d.exp
    ensures Scaled(d, f) == Scaled(d, e) * Pow10(e - f)
  {
    Pow10Add(d.exp - e, e - f);
    Associate(d.coef, Pow10(d.exp - e), Pow10(e - f));
  }

  lemma Associate(a: int, b: int, c: int)
    ensures a * (b * c) == a * b * c
  {}

  lemma ScaleOrder(x: int, y: int, k: int)
    requires k >= 1
    ensures x <= y <==> x * k <= y * k
  {
    if x <= y { KeepOrder(x, y, k); } else { KeepOrder(y + 1, x, k); }
  }

  lemma KeepOrder(x: int, y: int, k: int)
    requires x <= y && k >= 0
    ensures x * k <= y * k
  {
    assert (y - x) * k >= 0;
    assert (y - x) * k == y * k - x * k;
  }

  /** The comparison does not depend on the exponent it is made at. */
  lemma AtMostAt(a: Dec, b: Dec, e: int)
    requires e <= a.exp && e <= b.exp
    ensures AtMost(a, b) <==> Scaled(a, e) <= Scaled(b, e)
  {
    var m := MinInt(a.exp, b.exp);
    ScaleFurther(a, m, e);
    ScaleFurther(b, m, e);
    ScaleOrder(Scaled(a, m), Scaled(b, m), Pow10(m - e));
  }

  lemma AtMostTransitive(a: Dec, b: Dec, c: Dec)
    requires AtMost(a, b) && AtMost(b, c)
    ensures AtMost(a, c)
  {
    var e := MinInt(a.exp, MinInt(b.exp, c.exp));
    AtMostAt(a, b, e);
    AtMostAt(b, c, e);
    AtMostAt(a, c, e);
  }

  lemma TimesScaled(a: Dec, b: Dec, e: int, f: int)
    requires e <= a.exp && f <= b.exp
    ensures Scaled(Times(a, b), e + f) == Scaled(a, e) * Scaled(b, f)
  {
    var m, n := Pow10(a.exp - e), Pow10(b.exp - f);
    Pow10Add(a.exp - e, b.exp - f);
    Swap(a.coef, b.coef, m, n);
  }

  lemma Swap(a: int, b: int, m: int, n: int)
    ensures a * b * (m * n) == a * m * (b * n)
  {
    Associate(a, b, m * n);
    Associate(b, m, n);
    Associate(m, b, n);
    Associate(a, m, b * n);
    assert b * m == m * b;
  }

  /** Multiplying by something positive keeps the order. */
  lemma TimesKeepsOrder(q: Dec, p: Dec, r: Dec)
    requires q.coef >= 0 && AtMost(p, r)
    ensures AtMost(Times(q, p), Times(q, r))
  {
    var e := MinInt(p.exp, r.exp);
    TimesScaled(q, p, q.exp, e);
    TimesScaled(q, r, q.exp, e);
    KeepOrder(Scaled(p, e), Scaled(r, e), Scaled(q, q.exp));
    AtMostAt(Times(q, p), Times(q, r), q.exp + e);
  }

  // ----- quantize -----

  lemma TruncateBounds(a: int, b: nat)
    requires b > 0 && a >= 0
    ensures Truncate(a, b) >= 0 && Truncate(a, b) * b <= a < Truncate(a, b) * b + b
  {
    var q, r := a / b, a % b;
    assert a == b * q + r && 0 <= r < b;
    assert b * q == q * b;
    if q < 0 { KeepOrder(q, -1, b); }
  }

  /** Quantizing again changes nothing, whatever the sign. */
  lemma QuantizeAgain(d: Dec, step: Dec)
    ensures Quantize(Quantize(d, step), step) == Quantize(d, step)
  {
    var q := Quantize(d, step);
    assert Pow10(0) == 1;
  }

  /** A nonnegative number is cut down by less than one unit of the step's last place. */
  lemma QuantizeDown(d: Dec, step: Dec)
    requires d.coef >= 0
    ensures Quantize(d, step).coef >= 0 && AtMost(Quantize(d, step), d)
    ensures !AtMost(Dec(Quantize(d, step).coef + 1, step.exp), d)
  {
    var q := Quantize(d, step);
    assert Pow10(0) == 1;
    if d.exp >= step.exp {
      KeepOrder(0, d.coef, Pow10(d.exp - step.exp));
      AtMostAt(q, d, step.exp);
      AtMostAt(Dec(q.coef + 1, step.exp), d, step.exp);
    } else {
      TruncateBounds(d.coef, Pow10(step.exp - d.exp));
      AtMostAt(q, d, d.exp);
      AtMostAt(Dec(q.coef + 1, step.exp), d, d.exp);
      OneMore(q.coef, Pow10(step.exp - d.exp));
    }
  }

  /** Truncation is toward zero: a negative number is cut down to minus what its opposite is cut down to. */
  lemma QuantizeNegative(d: Dec, step: Dec)
    ensures Quantize(Dec(-d.coef, d.exp), step) == Dec(-Quantize(d, step).coef, step.exp)
  {
    if d.exp >= step.exp { Opposite(d.coef, Pow10(d.exp - step.exp)); }
    else { OppositeCut(d.coef, Pow10(step.exp - d.exp)); }
  }

  lemma OppositeCut(a: int, k: nat)
    requires k > 0
    ensures Truncate(-a, k) == -Truncate(a, k)
  {
    assert 0 / k == 0;
  }

  lemma Opposite(a: int, k: int)
    ensures -a * k == -(a * k)
  {}

  /** 12.3456 with two places is 12.34, and 12 with two places is 12.00. */
  lemma QuantizeExample()
    ensures Quantize(Dec(123456, -4), Dec(1, -2)) == Dec(1234, -2)
    ensures Quantize(Dec(12, 0), Dec(1, -2)) == Dec(1200, -2)
  {
    assert Pow10(0) == 1;
    assert Pow10(1) == 10;
    assert Pow10(2) == 100;
  }

  lemma OneMore(c: int, k: int)
    ensures (c + 1) * k == c * k + k
  {}

  /** A number at the step's exponent is a multiple of the step exactly when its coefficient is. */
  predicate MultipleOf(q: Dec, step: Dec) { q.exp == step.exp && step.coef != 0 && q.coef % step.coef == 0 }

  /** Every quantized number is a multiple of the step if and only if the step's coefficient is 1 or -1, that
      is, the step is written as a bare power of ten: 0.001, not 0.00100000 and not 0.005. */
  lemma MultipleIff(step: Dec)
    requires step.coef != 0
    ensures (forall d :: MultipleOf(Quantize(d, step), step)) <==> step.coef == 1 || step.coef == -1
  {
    var unit := Dec(1, step.exp);
    assert Pow10(0) == 1;
    assert Quantize(unit, step) == unit;
    if !(step.coef == 1 || step.coef == -1) {
      assert 1 % step.coef == 1;
      assert !MultipleOf(Quantize(unit, step), step);
    }
  }
}
