/** Exact real-number stand-ins for the scalar operations the quantizers use:
    integer powers, torch.round (round half to even), the truncating int8 cast
    and torch.clamp. */
module RealArith {

  /** True iff `x` has no fractional part. */
  predicate IsInteger(x: real) {
    x == x.Floor as real
  }

  function Abs(x: real): (r: real)
    ensures r >= 0.0 && (r == x || r == -x)
  {
    if x < 0.0 then -x else x
  }

  function MinR(a: real, b: real): (r: real)
    ensures r <= a && r <= b && (r == a || r == b)
  {
    if a <= b then a else b
  }

  function MaxR(a: real, b: real): (r: real)
    ensures r >= a && r >= b && (r == a || r == b)
  {
    if a >= b then a else b
  }

  /** 2^n, the value of `1 << n`. */
  function Pow2(n: nat): (r: nat)
    ensures r >= 1
    ensures n >= 1 ==> r >= 2
  {
    if n == 0 then 1 else 2 * Pow2(n - 1)
  }

  /** The largest unsigned code of a `bits`-wide quantizer, `(1 << bits) - 1`. */
  function Qmax(bits: nat): (r: nat)
    ensures bits >= 1 ==> r >= 1
    ensures r + 1 == Pow2(bits)
  {
    Pow2(bits) - 1
  }

  /** torch.round: the nearest integer, ties broken towards the even neighbour. */
  function Round(x: real): (r: int)
    ensures -0.5 <= r as real - x <= 0.5
    ensures (r as real - x == 0.5 || x - r as real == 0.5) ==> r % 2 == 0
  {
    var f := x.Floor;
    var frac := x - f as real;
    if frac < 0.5 then f
    else if frac > 0.5 then f + 1
    else if f % 2 == 0 then f
    else f + 1
  }

  /** An integer strictly closer than one half to `x` is what Round picks. */
  lemma RoundNearest(x: real, n: int)
    requires -0.5 < n as real - x < 0.5
    ensures Round(x) == n
  {
    var r := Round(x);
    assert -1.0 < r as real - n as real < 1.0;
  }

  /** Rounding leaves integers alone. */
  lemma RoundOfInteger(x: real)
    requires IsInteger(x)
    ensures Round(x) as real == x
  {
    RoundNearest(x, x.Floor);
  }

  /** Rounding preserves the order of its arguments. */
  lemma RoundMonotone(x: real, y: real)
    requires x <= y
    ensures Round(x) <= Round(y)
  {
  }

  /** Scaling by a non-negative factor keeps an order. */
  lemma MulLe(a: real, b: real, s: real)
    requires s >= 0.0 && a <= b
    ensures a * s <= b * s
  {
    assert b * s - a * s == (b - a) * s;
  }

  /** Scaling by a positive factor keeps a strict order. */
  lemma MulLt(a: real, b: real, s: real)
    requires s > 0.0 && a < b
    ensures a * s < b * s
  {
    assert b * s - a * s == (b - a) * s;
  }

  /** Truncation toward zero, the float-to-integer conversion of `.type(torch.int8)`. */
  function Trunc(x: real): (r: int)
    ensures x >= 0.0 ==> 0 <= r && r as real <= x < r as real + 1.0
    ensures x < 0.0 ==> r <= 0 && r as real - 1.0 < x <= r as real
  {
    if x >= 0.0 then x.Floor else -((-x).Floor)
  }

  /** Conversion to int8 of a value whose truncation fits the type; outside
      that window the source's cast is not specified, so the model leaves it undefined. */
  function Int8Cast(x: real): (r: int)
    requires -129.0 < x < 128.0
    ensures -128 <= r <= 127
    ensures Abs(r as real) <= Abs(x) && Abs(x - r as real) < 1.0
  {
    Trunc(x)
  }

  /** torch.clamp on a scalar. */
  function Clamp(x: real, lo: real, hi: real): (r: real)
    requires lo <= hi
    ensures lo <= r <= hi
    ensures lo <= x <= hi ==> r == x
    ensures x < lo ==> r == lo
    ensures x > hi ==> r == hi
  {
    if x < lo then lo else if x > hi then hi else x
  }

  /** Integer clamp, used to state the round-then-clamp order. */
  function ClampInt(n: int, lo: int, hi: int): (r: int)
    requires lo <= hi
    ensures lo <= r <= hi
    ensures lo <= n <= hi ==> r == n
  {
    if n < lo then lo else if n > hi then hi else n
  }

  /** Clamping to integer bounds and then rounding is the same as rounding and
      then clamping. */
  lemma ClampRoundCommute(x: real, lo: int, hi: int)
    requires lo <= hi
    ensures Round(Clamp(x, lo as real, hi as real)) == ClampInt(Round(x), lo, hi)
  {
    var r := Round(x);
    if x < lo as real {
      RoundNearest(lo as real, lo);
      RoundMonotone(x, lo as real);
    } else if x > hi as real {
      RoundNearest(hi as real, hi);
      RoundMonotone(hi as real, x);
    } else {
      RoundMonotone(lo as real, x);
      RoundMonotone(x, hi as real);
      RoundNearest(lo as real, lo);
      RoundNearest(hi as real, hi);
    }
  }
}
