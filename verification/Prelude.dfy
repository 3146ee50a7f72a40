/** Small datatypes and real-number helpers shared by every module. */
module Prelude {

  datatype Option<+T> = None | Some(value: T) {
    function GetOr(default: T): T {
      match this
      case Some(v) => v
      case None => default
    }
  }

  /** Models a Python call that either returns a value or raises. */
  datatype Result<+T, +E> = Ok(value: T) | Err(error: E) {
    predicate IsFailure() { Err? }

    function PropagateFailure<U>(): Result<U, E>
      requires Err?
    {
      Err(error)
    }

    function Extract(): T
      requires Ok?
    {
      value
    }
  }

  function Min(a: real, b: real): real { if a <= b then a else b }

  function Max(a: real, b: real): real { if a >= b then a else b }

  function Abs(a: real): real { if a >= 0.0 then a else -a }

  // ----- facts about real products and quotients that the solver needs one at a time -----

  lemma MulMono(a: real, x: real, y: real)
    requires a >= 0.0 && x <= y
    ensures a * x <= a * y
  {
    assert a * (y - x) >= 0.0;
  }

  lemma MulPos(a: real, b: real)
    requires a > 0.0 && b > 0.0
    ensures a * b > 0.0
  {}

  lemma MulNonneg(a: real, b: real)
    requires a >= 0.0 && b >= 0.0
    ensures a * b >= 0.0
  {}

  lemma DivMul(a: real, b: real)
    requires b != 0.0
    ensures a / b * b == a
  {}

  lemma DivPos(a: real, b: real)
    requires a > 0.0 && b > 0.0
    ensures a / b > 0.0
  {
    if a / b <= 0.0 { MulNonneg(-(a / b), b); }
  }

  /** x <= y stays true after dividing by a positive number, and conversely. */
  lemma DivMono(x: real, y: real, d: real)
    requires d > 0.0
    ensures x <= y <==> x / d <= y / d
  {
    var p, q := x / d, y / d;
    DivMul(x, d);
    DivMul(y, d);
    assert (q - p) * d == y - x;
    if p <= q { MulNonneg(q - p, d); } else { MulPos(p - q, d); }
  }

  /** Lower and upper bounds on a quotient, by multiplying out. */
  lemma QuotientBounds(lo: real, x: real, d: real, hi: real)
    requires d > 0.0 && lo * d <= x <= hi * d
    ensures lo <= x / d <= hi
  {
    DivMono(lo * d, x, d);
    DivMono(x, hi * d, d);
    MulDiv(lo, d);
    MulDiv(hi, d);
  }

  lemma MulDiv(a: real, b: real)
    requires b != 0.0
    ensures a * b / b == a
  {
    DivMul(a * b, b);
    var q := a * b / b;
    assert (q - a) * b == 0.0;
    if q - a != 0.0 { NonzeroProduct(q - a, b); }
  }

  lemma NonzeroProduct(a: real, b: real)
    requires a != 0.0 && b != 0.0
    ensures a * b != 0.0
  {}
}
