/** The bias-corrected exponential moving average (`update_ema`) with which the
    QAT quantizer tracks the range of a layer's outputs. */
module Ema {
  import opened RealArith

  /** d^n for a natural exponent, the `decay ** step` of the bias correction. */
  function Pow(d: real, n: nat): real
  {
    if n == 0 then 1.0 else d * Pow(d, n - 1)
  }

  /** For a decay strictly between 0 and 1 and at least one step, d^n is too,
      so the bias-correction denominator `1 - d^n` is never zero. */
  lemma {:induction false} PowInUnitInterval(d: real, n: nat)
    requires 0.0 < d < 1.0
    requires n >= 1
    ensures 0.0 < Pow(d, n) < 1.0
  {
    if n > 1 {
      PowInUnitInterval(d, n - 1);
      assert Pow(d, n) == d * Pow(d, n - 1);
    }
  }

  /** Moving a fraction `w` of the way from `a` to `v` stays between them. */
  lemma StepBetween(a: real, v: real, w: real)
    requires 0.0 <= w <= 1.0
    ensures MinR(a, v) <= a + w * (v - a) <= MaxR(a, v)
  {
    var d := v - a;
    var m := w * d;
    assert a + w * (v - a) == a + m;
    if d >= 0.0 {
      MulLe(0.0, d, w);
      MulLe(w, 1.0, d);
      assert 0.0 <= m;
      assert m <= d;
      assert MinR(a, v) == a && MaxR(a, v) == v;
    } else {
      MulLe(d, 0.0, w);
      MulLe(w, 1.0, -d);
      assert m <= 0.0;
      assert d <= m;
      assert MinR(a, v) == v && MaxR(a, v) == a;
    }
  }

  /** The two values `update_ema` returns: the raw accumulator and its bias-corrected estimate. */
  datatype EmaPair = EmaPair(biased: real, unbiased: real)

  /** The accumulator step of `update_ema`: keep a fraction `decay` of the old
      accumulator and add `1 - decay` of the new value. */
  function Accumulate(biased: real, value: real, decay: real): (b: real)
    requires 0.0 < decay < 1.0
    ensures MinR(biased, value) <= b <= MaxR(biased, value)
  {
    StepBetween(biased, value, 1.0 - decay);
    assert biased * decay + (1.0 - decay) * value == biased + (1.0 - decay) * (value - biased);
    biased * decay + (1.0 - decay) * value
  }

  /** `u` is the accumulator `b` corrected for a total weight `w`. */
  ghost predicate IsCorrection(u: real, b: real, w: real)
  {
    u * w == b
  }

  /** One EMA step: fold `value` into the accumulator, then divide by the
      total weight `1 - decay^step` given to all observations so far. */
  function UpdateEma(biased: real, value: real, decay: real, step: nat): (r: EmaPair)
    requires 0.0 < decay < 1.0
    requires step >= 1
    ensures MinR(biased, value) <= r.biased <= MaxR(biased, value)
    ensures 0.0 < 1.0 - Pow(decay, step) < 1.0
    ensures IsCorrection(r.unbiased, r.biased, 1.0 - Pow(decay, step))
  {
    PowInUnitInterval(decay, step);
    var b := Accumulate(biased, value, decay);
    EmaPair(b, b / (1.0 - Pow(decay, step)))
  }

  /** Starting from a zero accumulator, the first step's correction recovers
      the observed value exactly. */
  lemma UpdateEmaFirstStep(value: real, decay: real)
    requires 0.0 < decay < 1.0
    ensures UpdateEma(0.0, value, decay, 1).biased == (1.0 - decay) * value
    ensures UpdateEma(0.0, value, decay, 1).unbiased == value
  {
    assert Pow(decay, 1) == decay * Pow(decay, 0) == decay;
    var w := 1.0 - decay;
    var b := 0.0 * decay + w * value;
    assert b == w * value;
    assert b / w == value;
  }

  /** `b` lies between lo and hi, each scaled by the weight `w`. */
  ghost predicate ScaledBy(b: real, lo: real, hi: real, w: real)
  {
    lo * w <= b <= hi * w
  }

  /** The accumulator after `n` steps of observations inside [lo, hi] lies
      between lo and hi scaled by the total weight `1 - d^n`. */
  ghost predicate WithinScaledBounds(biased: real, lo: real, hi: real, decay: real, n: nat)
  {
    ScaledBy(biased, lo, hi, 1.0 - Pow(decay, n))
  }

  /** `w` is the total weight one step after total weight `v`: the
      accumulator's recurrence applied to the weights themselves. */
  ghost predicate NextWeight(w: real, v: real, decay: real)
  {
    w == decay * v + (1.0 - decay)
  }

  /** The total weight 1 - d^n follows the accumulator's recurrence. */
  lemma WeightStep(decay: real, n: nat)
    requires n >= 1
    ensures NextWeight(1.0 - Pow(decay, n), 1.0 - Pow(decay, n - 1), decay)
  {
    assert Pow(decay, n) == decay * Pow(decay, n - 1);
  }

  /** One step keeps the accumulator within its scaled bounds, and so the
      corrected estimate within [lo, hi]. */
  lemma {:induction false} UpdateEmaKeepsBounds(biased: real, value: real, lo: real, hi: real, decay: real, step: nat)
    requires 0.0 < decay < 1.0
    requires step >= 1
    requires lo <= value <= hi
    requires WithinScaledBounds(biased, lo, hi, decay, step - 1)
    ensures WithinScaledBounds(UpdateEma(biased, value, decay, step).biased, lo, hi, decay, step)
    ensures lo <= UpdateEma(biased, value, decay, step).unbiased <= hi
  {
    WeightStep(decay, step);
    ScaledStep(biased, value, lo, hi, decay, 1.0 - Pow(decay, step - 1),
               UpdateEma(biased, value, decay, step).biased, 1.0 - Pow(decay, step));
    Unscale(UpdateEma(biased, value, decay, step).unbiased, UpdateEma(biased, value, decay, step).biased,
            lo, hi, 1.0 - Pow(decay, step));
  }

  /** The arithmetic of one accumulator step: if the old accumulator is within
      bounds scaled by `v`, the new one is within bounds scaled by the new weight `w`. */
  lemma ScaledStep(biased: real, value: real, lo: real, hi: real, decay: real, v: real, b: real, w: real)
    requires 0.0 < decay < 1.0
    requires lo <= value <= hi
    requires ScaledBy(biased, lo, hi, v)
    requires b == Accumulate(biased, value, decay)
    requires NextWeight(w, v, decay)
    ensures ScaledBy(b, lo, hi, w)
  {
    var e := 1.0 - decay;
    CombineLe(decay, lo * v, biased, e, lo, value);
    CombineLe(decay, biased, hi * v, e, value, hi);
    assert decay * (lo * v) + e * lo == lo * w;
    assert decay * (hi * v) + e * hi == hi * w;
  }

  /** Adding two scaled inequalities with non-negative factors. */
  lemma CombineLe(a: real, x1: real, y1: real, e: real, x2: real, y2: real)
    requires a >= 0.0 && e >= 0.0 && x1 <= y1 && x2 <= y2
    ensures a * x1 + e * x2 <= a * y1 + e * y2
  {
    MulLe(x1, y1, a);
    MulLe(x2, y2, e);
  }

  /** Dividing scaled bounds by a positive weight. */
  lemma Unscale(u: real, b: real, lo: real, hi: real, w: real)
    requires w > 0.0
    requires IsCorrection(u, b, w)
    requires ScaledBy(b, lo, hi, w)
    ensures lo <= u <= hi
  {
  }

  /** The pair `update_ema` yields after observing `values[0]`, ..., `values[n-1]`
      at steps 1, ..., n, starting from the zero accumulator the buffers are
      registered with. */
  function EmaTrack(values: seq<real>, decay: real): EmaPair
    requires |values| >= 1
    requires 0.0 < decay < 1.0
  {
    var prev := if |values| == 1 then 0.0 else EmaTrack(values[..|values| - 1], decay).biased;
    UpdateEma(prev, values[|values| - 1], decay, |values|)
  }

  /** Bias correction makes the tracked estimate an average of what was
      observed: it never leaves the range of the observed values. */
  lemma {:induction false} EmaTrackWithinRange(values: seq<real>, decay: real, lo: real, hi: real)
    requires |values| >= 1
    requires 0.0 < decay < 1.0
    requires forall i :: 0 <= i < |values| ==> lo <= values[i] <= hi
    ensures WithinScaledBounds(EmaTrack(values, decay).biased, lo, hi, decay, |values|)
    ensures lo <= EmaTrack(values, decay).unbiased <= hi
  {
    var n := |values|;
    if n == 1 {
      UpdateEmaKeepsBounds(0.0, values[0], lo, hi, decay, 1);
    } else {
      var prefix := values[..n - 1];
      EmaTrackWithinRange(prefix, decay, lo, hi);
      UpdateEmaKeepsBounds(EmaTrack(prefix, decay).biased, values[n - 1], lo, hi, decay, n);
    }
  }

  /** A constant stream is tracked exactly from the first step on. */
  lemma EmaTrackConstant(values: seq<real>, decay: real, c: real)
    requires |values| >= 1
    requires 0.0 < decay < 1.0
    requires forall i :: 0 <= i < |values| ==> values[i] == c
    ensures EmaTrack(values, decay).unbiased == c
  {
    EmaTrackWithinRange(values, decay, c, c);
  }
}
