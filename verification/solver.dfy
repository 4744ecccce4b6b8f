/** The quantization-parameter solver (`update_quantization_param`): the
    asymmetric unsigned scheme of Jacob et al., "Quantization and Training of
    Neural Networks for Efficient Integer-Arithmetic-Only Inference" (CVPR 2018),
    section 3: widen [rmin, rmax] to contain 0, spread it over the codes
    0 .. 2^bits - 1, and nudge the zero point to an integer code. */
module Solver {
  import opened RealArith
  import opened Codec

  /** The pair the solver returns. The zero point stays a real, as in the
      source, where it is a float holding an integer value. */
  datatype QuantParams = QuantParams(scale: real, zeroPoint: real)

  /** `min(rmin, 0)`: the range's lower end, widened to reach 0. */
  function WidenedMin(rmin: real): (lo: real)
    ensures lo <= 0.0 && lo <= rmin && (lo == rmin || lo == 0.0)
  {
    MinR(rmin, 0.0)
  }

  /** `max(rmax, 0)`: the range's upper end, widened to reach 0. */
  function WidenedMax(rmax: real): (hi: real)
    ensures hi >= 0.0 && hi >= rmax && (hi == rmax || hi == 0.0)
  {
    MaxR(rmax, 0.0)
  }

  /** The widened range is [0, 0] exactly when neither bound leaves 0 on its
      side; that is the range whose scale would be a division by zero. */
  predicate DegenerateRange(rmin: real, rmax: real)
  {
    rmin >= 0.0 && rmax <= 0.0
  }

  /** The step between adjacent codes. */
  function Scale(bits: nat, rmin: real, rmax: real): (s: real)
    requires bits >= 1
    requires !DegenerateRange(rmin, rmax)
    ensures s > 0.0
    ensures s * Qmax(bits) as real == WidenedMax(rmax) - WidenedMin(rmin)
  {
    var width := WidenedMax(rmax) - WidenedMin(rmin);
    var codes := Qmax(bits) as real - 0.0;
    QuotientFacts(width, codes);
    width / codes
  }

  /** Division by a positive real undoes multiplication and keeps signs. */
  lemma QuotientFacts(n: real, d: real)
    requires d > 0.0
    ensures (n / d) * d == n
    ensures n > 0.0 ==> n / d > 0.0
    ensures n >= 0.0 ==> n / d >= 0.0
  {
  }

  /** A quotient by a positive step of a value in [0, step * qmax] lies in [0, qmax]. */
  lemma QuotientInRange(n: real, s: real, qmax: real)
    requires s > 0.0
    requires 0.0 <= n <= s * qmax
    ensures 0.0 <= n / s <= qmax
  {
    var y := n / s;
    QuotientFacts(n, s);
    if y > qmax {
      assert (y - qmax) * s > 0.0;
    }
  }

  /** The exact real code of real value 0, before nudging. */
  function InitialZeroPoint(bits: nat, rmin: real, rmax: real): real
    requires bits >= 1
    requires !DegenerateRange(rmin, rmax)
  {
    0.0 - WidenedMin(rmin) / Scale(bits, rmin, rmax)
  }

  /** With exact arithmetic the unnudged zero point already lies in [0, qmax],
      so of the three nudge branches only rounding is ever taken. */
  lemma InitialZeroPointInRange(bits: nat, rmin: real, rmax: real)
    requires bits >= 1
    requires !DegenerateRange(rmin, rmax)
    ensures 0.0 <= InitialZeroPoint(bits, rmin, rmax) <= Qmax(bits) as real
  {
    var lo, hi, s := WidenedMin(rmin), WidenedMax(rmax), Scale(bits, rmin, rmax);
    var qmax := Qmax(bits) as real;
    QuotientInRange(0.0 - lo, s, qmax);
    assert (0.0 - lo) / s == 0.0 - lo / s;
  }

  /** `update_quantization_param`. The source divides by the scale, so a
      degenerate range is excluded; `bits >= 1` is asserted by every caller. */
  function UpdateQuantizationParam(bits: nat, rmin: real, rmax: real): (p: QuantParams)
    requires bits >= 1
    requires !DegenerateRange(rmin, rmax)
    ensures p.scale > 0.0
    ensures p.scale * Qmax(bits) as real == WidenedMax(rmax) - WidenedMin(rmin)
    ensures IsInteger(p.zeroPoint)
    ensures 0.0 <= p.zeroPoint <= Qmax(bits) as real
    ensures -0.5 <= p.zeroPoint - InitialZeroPoint(bits, rmin, rmax) <= 0.5
  {
    InitialZeroPointInRange(bits, rmin, rmax);
    QuantParams(Scale(bits, rmin, rmax), Nudge(InitialZeroPoint(bits, rmin, rmax), Qmax(bits)))
  }

  /** The zero-point nudge: clamp the exact code of 0 to [qmin, qmax] = [0, qmax]
      and otherwise round it, so the zero point is always an integer code. */
  function Nudge(initialZeroPoint: real, qmax: nat): (z: real)
    ensures IsInteger(z)
    ensures 0.0 <= z <= qmax as real
    ensures 0.0 <= initialZeroPoint <= qmax as real ==> -0.5 <= z - initialZeroPoint <= 0.5
  {
    var qmin := 0.0;
    if initialZeroPoint < qmin then qmin
    else if initialZeroPoint > qmax as real then qmax as real
    else
      RoundMonotone(qmin, initialZeroPoint);
      RoundMonotone(initialZeroPoint, qmax as real);
      RoundOfInteger(qmin);
      RoundOfInteger(qmax as real);
      Round(initialZeroPoint) as real
  }

  /** With the solved parameters, real 0 is represented exactly. */
  lemma SolvedZeroIsExact(bits: nat, rmin: real, rmax: real)
    requires bits >= 1
    requires !DegenerateRange(rmin, rmax)
    ensures var p := UpdateQuantizationParam(bits, rmin, rmax);
            FakeQuantize(bits, p.scale, p.zeroPoint, 0.0) == 0.0
  {
    var p := UpdateQuantizationParam(bits, rmin, rmax);
    ZeroIsExact(bits, p.scale, p.zeroPoint);
  }

  /** Every value of the widened range comes back from simulated quantization
      within half a step. Nudging the zero point shifts the grid by less than
      half a code, so a value of the range lies at most half a code outside
      [0, qmax], and clamping puts it on the nearest end code. */
  lemma SolvedRangeWithinHalfStep(bits: nat, rmin: real, rmax: real, x: real)
    requires bits >= 1
    requires !DegenerateRange(rmin, rmax)
    requires WidenedMin(rmin) <= x <= WidenedMax(rmax)
    ensures var p := UpdateQuantizationParam(bits, rmin, rmax);
            Abs(FakeQuantize(bits, p.scale, p.zeroPoint, x) - x) <= p.scale / 2.0
  {
    var p := UpdateQuantizationParam(bits, rmin, rmax);
    CodecWithinHalfStep(bits, p.scale, p.zeroPoint, WidenedMin(rmin), WidenedMax(rmax), x);
  }

  /** SolvedRangeWithinHalfStep for any scale spreading [lo, hi] over the codes
      and any zero point within half a code of the exact code of 0. */
  lemma CodecWithinHalfStep(bits: nat, s: real, zp: real, lo: real, hi: real, x: real)
    requires s > 0.0
    requires s * Qmax(bits) as real == hi - lo
    requires lo <= x <= hi
    requires -0.5 <= zp - (0.0 - lo / s) <= 0.5
    ensures Abs(FakeQuantize(bits, s, zp, x) - x) <= s / 2.0
  {
    var q := Quantize(bits, s, zp, x);
    var y := FakeQuantize(bits, s, zp, x);
    assert y == s * (q - zp);
    HalfStepCore(s, zp, lo, hi, Qmax(bits) as real, x, q, y);
  }

  /** The arithmetic of SolvedRangeWithinHalfStep over plain reals: `s` is the
      scale, `zp` the nudged zero point, `q` the code chosen for `x`. */
  lemma HalfStepCore(s: real, zp: real, lo: real, hi: real, qmax: real, x: real, q: real, y: real)
    requires s > 0.0 && qmax >= 0.0
    requires s * qmax == hi - lo
    requires lo <= x <= hi
    requires -0.5 <= zp - (0.0 - lo / s) <= 0.5
    requires -0.5 <= q - Clamp(Transform(s, zp, x), 0.0, qmax) <= 0.5
    requires Transform(s, zp, x) < 0.0 ==> q == 0.0
    requires Transform(s, zp, x) > qmax ==> q == qmax
    requires y == s * (q - zp)
    ensures Abs(y - x) <= s / 2.0
  {
    var t := Transform(s, zp, x);
    OffsetOfWidenedRange(s, lo, hi, qmax, x);
    assert -0.5 <= t <= qmax + 0.5;
    assert -0.5 <= q - t <= 0.5;
    QuotientFacts(x, s);
    assert s * (q - zp) - x == s * (q - t);
    HalfStep(s, q - t, s * (q - zp) - x);
  }

  /** Dividing the widened range by the scale gives an interval of width qmax. */
  lemma OffsetOfWidenedRange(s: real, lo: real, hi: real, qmax: real, x: real)
    requires s > 0.0
    requires s * qmax == hi - lo
    requires lo <= x <= hi
    ensures lo / s <= x / s <= lo / s + qmax
  {
    var a, b := lo / s, x / s;
    assert a * s == lo && b * s == x;
    assert (b - a) * s == x - lo;
    assert (a + qmax - b) * s == hi - x;
  }
}
