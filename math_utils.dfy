/** src/utils/math_utils.c, and the C integer division the other files rely on. */
module MathUtils {

  /** `clamp(val, min, max)`: the `min` test comes first, so with `min > max`
      a value below `min` still yields `min`. */
  function Clamp(val: int, min: int, max: int): (r: int)
    ensures val < min ==> r == min
    ensures min <= val && val > max ==> r == max
    ensures min <= val <= max ==> r == val
  {
    if val < min then min else if val > max then max else val
  }

  lemma ClampInRange(val: int, min: int, max: int)
    requires min <= max
    ensures min <= Clamp(val, min, max) <= max
  {
  }

  lemma ClampIdempotent(val: int, min: int, max: int)
    requires min <= max
    ensures Clamp(Clamp(val, min, max), min, max) == Clamp(val, min, max)
  {
  }

  /** C's `/` on `int`: the quotient is truncated toward zero (Dafny's `/`
      is Euclidean, which differs for a negative dividend). */
  function CDiv(a: int, b: int): (q: int)
    requires b > 0
    ensures a >= 0 ==> 0 <= a - q * b < b
    ensures a < 0 ==> -b < a - q * b <= 0
  {
    if a >= 0 then a / b else -((-a) / b)
  }

  /** The truncating quotient is the only one with a remainder of `a`'s sign
      smaller than `b`, and agrees with Dafny's `/` for a non-negative `a`. */
  lemma CDivUnique(a: int, b: int, q: int)
    requires b > 0
    requires a >= 0 ==> 0 <= a - q * b < b
    requires a < 0 ==> -b < a - q * b <= 0
    ensures q == CDiv(a, b)
    ensures a >= 0 ==> q == a / b
  {
    var c := CDiv(a, b);
    var d := c - q;
    assert d * b == (a - q * b) - (a - c * b) by {
      assert d * b == c * b - q * b;
    }
    if d >= 1 {
      MulAtLeast(d, b);
    } else if d <= -1 {
      MulAtLeast(-d, b);
    }
  }

  lemma MulAtLeast(d: int, b: int)
    requires d >= 1 && b > 0
    ensures d * b >= b
  {
  }
}
