/** Small datatypes and helpers shared by every component. */
module Basics {

  datatype Option<+T> = None | Some(value: T) {
    function GetOr(default: T): T {
      match this
      case None => default
      case Some(v) => v
    }
  }

  datatype Result<+T, +E> = Ok(value: T) | Err(error: E)

  function Max(x: int, y: int): (m: int)
    ensures x <= m && y <= m && (m == x || m == y)
  {
    if x < y then y else x
  }

  /** The least integer that is not below `x`. */
  function Ceil(x: real): (c: int)
    ensures x <= c as real < x + 1.0
  {
    if x.Floor as real == x then x.Floor else x.Floor + 1
  }

  /** Cross-multiplication for fractions with positive denominators. */
  lemma FractionOrder(a: real, b: real, c: real, d: real)
    requires b > 0.0 && d > 0.0
    ensures a / b <= c / d <==> a * d <= c * b
  {
    var x, y := a / b, c / d;
    assert a * d == x * b * d && c * b == y * d * b;
    assert b * d > 0.0;
    ScaleOrder(x, y, b * d);
  }

  lemma ScaleOrder(x: real, y: real, k: real)
    requires k > 0.0
    ensures x <= y <==> x * k <= y * k
  {
    if x > y {
      assert (x - y) * k > 0.0;
    }
  }

  lemma TimesNext(n: int, k: int)
    ensures (n + 1) * k == n * k + k
  {
  }
}
