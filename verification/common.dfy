/**
  Small shared vocabulary: Swift optionals and the numeric conversions the game
  logic relies on (`min`, `max` on integers and doubles, and `Int(_:)` applied
  to a `Double`, which truncates toward zero).
 */
module Common {

  /** A Swift optional: `nil` or a wrapped value. */
  datatype Option<T> = None | Some(value: T)

  function Min(a: int, b: int): (r: int)
    ensures r <= a && r <= b && (r == a || r == b)
  {
    if a <= b then a else b
  }

  function Max(a: int, b: int): (r: int)
    ensures r >= a && r >= b && (r == a || r == b)
  {
    if a >= b then a else b
  }

  function MinReal(a: real, b: real): (r: real)
    ensures r <= a && r <= b && (r == a || r == b)
  {
    if a <= b then a else b
  }

  function MaxReal(a: real, b: real): (r: real)
    ensures r >= a && r >= b && (r == a || r == b)
  {
    if a >= b then a else b
  }

  /** Swift's `Int(x)` on a finite `Double`: the integer part, rounded toward zero. */
  function Trunc(x: real): (r: int)
    ensures 0.0 <= x ==> 0 <= r && r as real <= x < r as real + 1.0
    ensures x < 0.0 ==> r <= 0 && r as real - 1.0 < x <= r as real
  {
    if x >= 0.0 then x.Floor else -((-x).Floor)
  }

  /** Truncation never decreases when its argument grows. */
  lemma TruncMonotonic(x: real, y: real)
    requires x <= y
    ensures Trunc(x) <= Trunc(y)
  {
    if 0.0 <= x {
      assert x.Floor <= y.Floor;
    } else if y < 0.0 {
      assert (-y).Floor <= (-x).Floor;
    }
  }
}
