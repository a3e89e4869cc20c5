/** Stock containers and the real-number helpers the models share. */
module Common {

  datatype Option<+T> = None | Some(value: T) {
    function GetOr(default: T): T {
      match this
      case Some(v) => v
      case None => default
    }
  }

  datatype Result<+T, +E> = Ok(value: T) | Err(error: E)

  function Abs(x: real): real {
    if x < 0.0 then -x else x
  }

  function Max(x: real, y: real): real {
    if x < y then y else x
  }

  function Min(x: real, y: real): real {
    if y < x then y else x
  }

  /** Python's float(): an int of arbitrary size as a real. */
  function Real(n: int): real {
    n as real
  }

  /** Python's int() of a float: truncation toward zero. */
  function Truncate(x: real): int {
    if x < 0.0 then -((-x).Floor) else x.Floor
  }

  /** Floor division by a positive divisor leaves a remainder below the divisor. */
  lemma FloorDivision(x: real, d: real)
    requires d > 0.0
    ensures var n := (x / d).Floor;
            && Real(n) * d <= x < Real(n + 1) * d
            && (x >= 0.0 ==> n >= 0)
            && (n >= 1 <==> x >= d)
            && (n >= 2 <==> x >= 2.0 * d)
  {
    var q := x / d;
    var n := q.Floor;
    QuotientBounds(x, d, q, Real(n), Real(n + 1));
    if n >= 1 {
      MulMonotone(1.0, Real(n), d);
    } else {
      MulMonotone(Real(n + 1), 1.0, d);
    }
    if n >= 2 {
      MulMonotone(2.0, Real(n), d);
    } else {
      MulMonotone(Real(n + 1), 2.0, d);
    }
    if x >= 0.0 && n < 0 {
      MulMonotone(Real(n + 1), 0.0, d);
    }
  }

  lemma QuotientBounds(x: real, d: real, q: real, lo: real, hi: real)
    requires d > 0.0 && q == x / d && lo <= q < hi
    ensures lo * d <= x < hi * d
  {
    assert q * d == x;
    MulMonotone(lo, q, d);
    MulStrict(q, hi, d);
  }

  lemma MulMonotone(a: real, b: real, d: real)
    requires a <= b && d >= 0.0
    ensures a * d <= b * d
  {
  }

  lemma MulStrict(a: real, b: real, d: real)
    requires a < b && d > 0.0
    ensures a * d < b * d
  {
  }
}
