/** `DoReFaQuantizer` (Zhou et al., "DoReFa-Net: Training Low Bitwidth
    Convolutional Neural Networks with Low Bitwidth Gradients", 2016): squash
    the weight with tanh, normalise it into [0, 1], snap it to the uniform
    grid of 2^q_bits - 1 steps, and stretch it back onto [-1, 1]. */
module DoReFa {
  import opened RealArith
  import opened Tensor
  import opened Outcome

  /** The number of grid steps over [0, 1], `pow(2, q_bits) - 1`. */
  function Steps(qBits: nat): (s: real)
    requires qBits >= 1
    ensures s >= 1.0
  {
    Qmax(qBits) as real
  }

  /** Division by a positive real undoes multiplication and keeps the order. */
  lemma DivFacts(a: real, b: real, s: real)
    requires s > 0.0
    ensures (a / s) * s == a
    ensures a <= b ==> a / s <= b / s
    ensures (a * s) / s == a
  {
    if a <= b {
      assert (b / s - a / s) * s == b - a;
    }
  }

  /** `q` is a whole number of steps of 1/s, between 0 and s steps. */
  ghost predicate OnUnitGrid(q: real, s: real)
  {
    s > 0.0 && IsInteger(q * s) && 0.0 <= q <= 1.0
  }

  /** `q` is within half a step of 1/s from `x`. */
  ghost predicate WithinHalfStep(q: real, x: real, s: real)
  {
    s > 0.0 && -0.5 / s <= q - x <= 0.5 / s
  }

  /** The rounded code of `y` in [0, s] stays in [0, s] when s is whole. */
  lemma CodeInRange(y: real, s: nat, r: int)
    requires 0.0 <= y <= s as real
    requires -0.5 <= r as real - y <= 0.5
    ensures 0 <= r <= s
  {
  }

  /** A whole number of steps between 0 and s is a point of the grid. */
  lemma GridPoint(r: int, s: nat)
    requires 1 <= s && 0 <= r <= s
    ensures OnUnitGrid(r as real / s as real, s as real)
  {
    var sr := s as real;
    DivFacts(r as real, sr, sr);
    DivFacts(0.0, r as real, sr);
    assert (r as real / sr) * sr == r as real;
    assert IsInteger(r as real);
  }

  /** Dividing a bound of half a code by the positive step count. */
  lemma HalfStepFacts(x: real, s: real, y: real, r: real)
    requires s > 0.0
    requires y == x * s
    requires -0.5 <= r - y <= 0.5
    ensures WithinHalfStep(r / s, x, s)
  {
    DivFacts(x, x, s);
    DivFacts(r - y, 0.5, s);
    DivFacts(-0.5, r - y, s);
    assert (r - y) / s == r / s - y / s;
  }

  /** The arithmetic of `quantize` on one value: `r` is the rounded code of
      `y = x * s`, and `r / s` is the quantized value. */
  lemma UnitGridFacts(x: real, s: nat, y: real, r: int)
    requires s >= 1
    requires 0.0 <= x <= 1.0
    requires y == x * s as real
    requires -0.5 <= r as real - y <= 0.5
    ensures OnUnitGrid(r as real / s as real, s as real)
    ensures WithinHalfStep(r as real / s as real, x, s as real)
  {
    UnitScaled(x, s as real);
    CodeInRange(y, s, r);
    GridPoint(r, s);
    HalfStepFacts(x, s as real, y, r as real);
  }

  /** A value of [0, 1] times a positive factor lies between 0 and the factor. */
  lemma UnitScaled(x: real, s: real)
    requires s > 0.0
    requires 0.0 <= x <= 1.0
    ensures 0.0 <= x * s <= s
  {
    MulLe(0.0, x, s);
    MulLe(x, 1.0, s);
  }

  /** `quantize` on one value of [0, 1]: round to the nearest multiple of
      1/s, with s = 2^q_bits - 1 (ties to the even multiple). */
  function QuantizeUnit(x: real, qBits: nat): (q: real)
    requires qBits >= 1
    requires 0.0 <= x <= 1.0
    ensures OnUnitGrid(q, Steps(qBits))
    ensures WithinHalfStep(q, x, Steps(qBits))
  {
    var s := Steps(qBits);
    var y := x * s;
    UnitGridFacts(x, Qmax(qBits), y, Round(y));
    Round(y) as real / s
  }

  /** A grid point is its own nearest grid point. */
  lemma GridFixed(q: real, qBits: nat)
    requires qBits >= 1
    requires OnUnitGrid(q, Steps(qBits))
    ensures QuantizeUnit(q, qBits) == q
  {
    RoundOfInteger(q * Steps(qBits));
    DivFacts(q, q, Steps(qBits));
  }

  /** Grid points are left where they are, so `quantize` is idempotent. */
  lemma QuantizeUnitIdempotent(x: real, qBits: nat)
    requires qBits >= 1
    requires 0.0 <= x <= 1.0
    ensures QuantizeUnit(QuantizeUnit(x, qBits), qBits) == QuantizeUnit(x, qBits)
  {
    GridFixed(QuantizeUnit(x, qBits), qBits);
  }

  /** With one bit the grid is {0, 1}. */
  lemma OneBitGrid(q: real)
    requires OnUnitGrid(q, Steps(1))
    ensures q == 0.0 || q == 1.0
  {
    assert Steps(1) == 1.0;
    UnitStepGrid(q, Steps(1));
  }

  /** With a single step the grid points are the whole numbers. */
  lemma UnitStepGrid(q: real, s: real)
    requires s == 1.0
    requires IsInteger(q * s)
    ensures IsInteger(q)
  {
    assert q * s == q;
  }

  /** `out / (2 * out.abs().max()) + 0.5` on one value. */
  function NormalizeValue(v: real, m: real): real
    requires m > 0.0
  {
    v / (2.0 * m) + 0.5
  }

  /** A quotient by twice a positive bound of a value within the bound is within a half. */
  lemma HalfRange(v: real, m: real)
    requires m > 0.0
    requires -m <= v <= m
    ensures -0.5 <= v / (2.0 * m) <= 0.5
    ensures v == m ==> v / (2.0 * m) == 0.5
    ensures v == -m ==> v / (2.0 * m) == -0.5
  {
    var d := 2.0 * m;
    var y := v / d;
    assert y * d == v;
    if y > 0.5 {
      assert (y - 0.5) * d > 0.0;
    }
    if y < -0.5 {
      assert (-0.5 - y) * d > 0.0;
    }
  }

  /** A value no larger in magnitude than `m` normalises into [0, 1]; the
      ends are reached exactly by -m and m. */
  lemma NormalizeValueInUnit(v: real, m: real)
    requires m > 0.0
    requires -m <= v <= m
    ensures 0.0 <= NormalizeValue(v, m) <= 1.0
    ensures v == m ==> NormalizeValue(v, m) == 1.0
    ensures v == -m ==> NormalizeValue(v, m) == 0.0
  {
    HalfRange(v, m);
  }

  /** Normalisation is strictly increasing, so it keeps the order of the values. */
  lemma NormalizeValueMonotone(v: real, w: real, m: real)
    requires m > 0.0
    ensures v <= w <==> NormalizeValue(v, m) <= NormalizeValue(w, m)
  {
    var d := 2.0 * m;
    DivFacts(v, w, d);
    DivFacts(w, v, d);
  }

  /** Every value of a tensor normalises into [0, 1]. */
  lemma NormalizeAll(t: seq<real>, m: real)
    requires m > 0.0
    requires forall i :: 0 <= i < |t| ==> Abs(t[i]) <= m
    ensures forall i :: 0 <= i < |t| ==> 0.0 <= NormalizeValue(t[i], m) <= 1.0
  {
    forall i | 0 <= i < |t|
      ensures 0.0 <= NormalizeValue(t[i], m) <= 1.0
    {
      NormalizeValueInUnit(t[i], m);
    }
  }

  /** The normalisation of `quantize_weight` on a tensor: each value scaled by twice
      the largest magnitude and shifted by a half, into [0, 1]. */
  function Normalize(t: seq<real>): (n: seq<real>)
    requires |t| > 0
    requires MaxAbs(t) > 0.0
    ensures |n| == |t|
    ensures forall i :: 0 <= i < |t| ==> n[i] == NormalizeValue(t[i], MaxAbs(t))
    ensures forall i :: 0 <= i < |t| ==> 0.0 <= n[i] <= 1.0
  {
    NormalizeAll(t, MaxAbs(t));
    seq(|t|, i requires 0 <= i < |t| => NormalizeValue(t[i], MaxAbs(t)))
  }

  /** `2 * out - 1`: the grid over [0, 1] stretched onto [-1, 1]. */
  function Stretch(q: real): real
  {
    2.0 * q - 1.0
  }

  /** `v` is a level of the output grid: `v = 2k/s - 1` for a whole number of
      steps k between 0 and s. */
  ghost predicate OnLevels(v: real, s: real)
  {
    exists q :: OnUnitGrid(q, s) && v == Stretch(q)
  }

  /** The pipeline of `quantize_weight` after the tanh, on one value. */
  function QuantizeValue(v: real, m: real, qBits: nat): (o: real)
    requires m > 0.0
    requires -m <= v <= m
    requires qBits >= 1
    ensures -1.0 <= o <= 1.0
    ensures OnLevels(o, Steps(qBits))
  {
    NormalizeValueInUnit(v, m);
    var q := QuantizeUnit(NormalizeValue(v, m), qBits);
    Stretch(q)
  }

  /** The value of a level is its quantized code stretched: 2q - 1. A value
      at the bound maps to 1, at minus the bound to -1. */
  lemma QuantizeValueEnds(m: real, qBits: nat)
    requires m > 0.0
    requires qBits >= 1
    ensures QuantizeValue(m, m, qBits) == 1.0
    ensures QuantizeValue(-m, m, qBits) == -1.0
  {
    NormalizeValueInUnit(m, m);
    NormalizeValueInUnit(-m, m);
    assert 1.0 * Steps(qBits) == Steps(qBits) && 0.0 * Steps(qBits) == 0.0;
    GridFixed(1.0, qBits);
    GridFixed(0.0, qBits);
  }

  /** Quantization keeps the order of the values. */
  lemma QuantizeValueMonotone(v: real, w: real, m: real, qBits: nat)
    requires m > 0.0
    requires -m <= v <= w <= m
    requires qBits >= 1
    ensures QuantizeValue(v, m, qBits) <= QuantizeValue(w, m, qBits)
  {
    NormalizeValueInUnit(v, m);
    NormalizeValueInUnit(w, m);
    NormalizeValueMonotone(v, w, m);
    QuantizeUnitMonotone(NormalizeValue(v, m), NormalizeValue(w, m), qBits);
  }

  /** `quantize` keeps the order of the values. */
  lemma QuantizeUnitMonotone(x: real, y: real, qBits: nat)
    requires qBits >= 1
    requires 0.0 <= x <= y <= 1.0
    ensures QuantizeUnit(x, qBits) <= QuantizeUnit(y, qBits)
  {
    QuantizeUnitValue(x, qBits);
    QuantizeUnitValue(y, qBits);
    RoundScaledMonotone(x, y, Steps(qBits));
  }

  /** The multiple of 1/s nearest to `x`. */
  function GridValue(x: real, s: real): real
    requires s > 0.0
  {
    Round(x * s) as real / s
  }

  /** `quantize` is the nearest multiple of one step. */
  lemma QuantizeUnitValue(x: real, qBits: nat)
    requires qBits >= 1
    requires 0.0 <= x <= 1.0
    ensures QuantizeUnit(x, qBits) == GridValue(x, Steps(qBits))
  {
  }

  /** Snapping to the nearest multiple of 1/s keeps the order of non-negative values. */
  lemma RoundScaledMonotone(x: real, y: real, s: real)
    requires s >= 1.0
    requires 0.0 <= x <= y
    ensures GridValue(x, s) <= GridValue(y, s)
  {
    MulLe(x, y, s);
    RoundDivMonotone(x * s, y * s, s);
  }

  /** Rounding and then dividing by a positive factor keeps an order. */
  lemma RoundDivMonotone(a: real, b: real, s: real)
    requires s > 0.0 && a <= b
    ensures Round(a) as real / s <= Round(b) as real / s
  {
    RoundMonotone(a, b);
    DivFacts(Round(a) as real, Round(b) as real, s);
  }

  /** `o` is within one step of 2/s of the value `e` it approximates on [-1, 1]. */
  ghost predicate WithinStep(o: real, e: real, s: real)
  {
    s > 0.0 && -1.0 / s <= o - e <= 1.0 / s
  }

  /** Each output value is within 1/s of the tanh value divided by the
      largest magnitude: half a grid step of [0, 1], doubled by the stretch. */
  lemma QuantizeValueError(v: real, m: real, qBits: nat)
    requires m > 0.0
    requires -m <= v <= m
    requires qBits >= 1
    ensures WithinStep(QuantizeValue(v, m, qBits), v / m, Steps(qBits))
  {
    NormalizeValueInUnit(v, m);
    StretchNormalized(v, m);
    StretchError(QuantizeUnit(NormalizeValue(v, m), qBits), NormalizeValue(v, m), v / m, Steps(qBits));
  }

  /** Stretching undoes the shift and half of the scaling of the normalisation. */
  lemma StretchNormalized(v: real, m: real)
    requires m > 0.0
    ensures Stretch(NormalizeValue(v, m)) == v / m
  {
    var y := v / (2.0 * m);
    assert y * (2.0 * m) == v;
    assert (2.0 * y) * m == v;
  }

  /** Stretching doubles the distance to the stretched target. */
  lemma StretchError(q: real, n: real, e: real, s: real)
    requires WithinHalfStep(q, n, s)
    requires Stretch(n) == e
    ensures WithinStep(Stretch(q), e, s)
  {
    assert 2.0 * (0.5 / s) == 1.0 / s;
  }

  /** With one bit each value comes out as -1 or 1. */
  lemma QuantizeValueOneBit(v: real, m: real)
    requires m > 0.0
    requires -m <= v <= m
    ensures QuantizeValue(v, m, 1) == -1.0 || QuantizeValue(v, m, 1) == 1.0
  {
    NormalizeValueInUnit(v, m);
    OneBitGrid(QuantizeUnit(NormalizeValue(v, m), 1));
  }

  /** The elementwise tanh. */
  function ApplyTanh(tanh: real -> real, weight: seq<real>): (t: seq<real>)
    ensures |t| == |weight|
    ensures forall i :: 0 <= i < |weight| ==> t[i] == tanh(weight[i])
  {
    seq(|weight|, i requires 0 <= i < |weight| => tanh(weight[i]))
  }

  /** The largest magnitude is 0 exactly when every value is 0. */
  lemma MaxAbsZero(t: seq<real>)
    requires |t| > 0
    ensures MaxAbs(t) == 0.0 <==> forall i :: 0 <= i < |t| ==> t[i] == 0.0
  {
    if MaxAbs(t) == 0.0 {
      forall i | 0 <= i < |t| ensures t[i] == 0.0 {
        assert Abs(t[i]) <= MaxAbs(t);
      }
    }
  }

  /** Normalise, quantize and stretch a tensor of tanh values. */
  function QuantizeTensor(t: seq<real>, qBits: nat): (out: seq<real>)
    requires |t| > 0 && MaxAbs(t) > 0.0
    requires qBits >= 1
    ensures |out| == |t|
    ensures forall i :: 0 <= i < |t| ==> -MaxAbs(t) <= t[i] <= MaxAbs(t)
    ensures forall i :: 0 <= i < |t| ==> out[i] == QuantizeValue(t[i], MaxAbs(t), qBits)
  {
    var m := MaxAbs(t);
    assert forall i :: 0 <= i < |t| ==> -m <= t[i] <= m by {
      forall i | 0 <= i < |t| ensures -m <= t[i] <= m {
        assert Abs(t[i]) <= m;
      }
    }
    seq(|t|, i requires 0 <= i < |t| => QuantizeValue(t[i], m, qBits))
  }

  /** `quantize_weight` with `q_bits` read from the configuration (None when
      the key is absent) and the elementwise tanh given as a function. The
      empty tensor fails at the reduction and the missing key at its lookup;
      an all-zero tanh would divide 0 by 0, and a `q_bits` below 1 gives no
      grid, so the model rejects both. */
  function QuantizeWeight(tanh: real -> real, weight: seq<real>, qBits: Option<int>): (r: Result<seq<real>>)
    ensures |weight| == 0 <==> r == Err(EmptyTensor)
    ensures r == Err(MissingBits) <==> |weight| > 0 && qBits.None?
    ensures r == Err(ZeroRange) <==> |weight| > 0 && qBits.Some? && forall i :: 0 <= i < |weight| ==> tanh(weight[i]) == 0.0
    ensures r == Err(BitsBelowOne) <==>
              |weight| > 0 && qBits.Some? && qBits.get < 1 && exists i :: 0 <= i < |weight| && tanh(weight[i]) != 0.0
    ensures r.Ok? ==> |r.value| == |weight|
    ensures r.Ok? ==> forall i :: 0 <= i < |weight| ==> -1.0 <= r.value[i] <= 1.0 && OnLevels(r.value[i], Steps(qBits.get))
    ensures r.Ok? ==> qBits.get >= 1 && MaxAbs(ApplyTanh(tanh, weight)) > 0.0
                      && r.value == QuantizeTensor(ApplyTanh(tanh, weight), qBits.get)
  {
    if |weight| == 0 then Err(EmptyTensor)
    else if qBits.None? then Err(MissingBits)
    else
      var t := ApplyTanh(tanh, weight);
      MaxAbsZero(t);
      if MaxAbs(t) == 0.0 then Err(ZeroRange)
      else if qBits.get < 1 then Err(BitsBelowOne)
      else Ok(QuantizeTensor(t, qBits.get))
  }

  /** Each output value is within 1/s of its tanh value divided by the
      largest magnitude, s = 2^q_bits - 1. */
  lemma QuantizeTensorError(t: seq<real>, qBits: nat)
    requires |t| > 0 && MaxAbs(t) > 0.0
    requires qBits >= 1
    ensures forall i :: 0 <= i < |t| ==> WithinStep(QuantizeTensor(t, qBits)[i], t[i] / MaxAbs(t), Steps(qBits))
  {
    var out := QuantizeTensor(t, qBits);
    forall i | 0 <= i < |t|
      ensures WithinStep(out[i], t[i] / MaxAbs(t), Steps(qBits))
    {
      QuantizeValueError(t[i], MaxAbs(t), qBits);
    }
  }

  /** The outputs are in the order of the tanh values. */
  lemma QuantizeTensorMonotone(t: seq<real>, qBits: nat)
    requires |t| > 0 && MaxAbs(t) > 0.0
    requires qBits >= 1
    ensures forall i, j :: 0 <= i < |t| && 0 <= j < |t| && t[i] <= t[j] ==>
              QuantizeTensor(t, qBits)[i] <= QuantizeTensor(t, qBits)[j]
  {
    var out := QuantizeTensor(t, qBits);
    forall i, j | 0 <= i < |t| && 0 <= j < |t| && t[i] <= t[j]
      ensures out[i] <= out[j]
    {
      QuantizeValueMonotone(t[i], t[j], MaxAbs(t), qBits);
    }
  }

  /** An element of largest magnitude comes out exactly as -1 or 1. */
  lemma QuantizeTensorPeak(t: seq<real>, qBits: nat)
    requires |t| > 0 && MaxAbs(t) > 0.0
    requires qBits >= 1
    ensures exists k :: 0 <= k < |t| && Abs(t[k]) == MaxAbs(t)
              && (QuantizeTensor(t, qBits)[k] == 1.0 || QuantizeTensor(t, qBits)[k] == -1.0)
  {
    var k :| 0 <= k < |t| && MaxAbs(t) == Abs(t[k]);
    QuantizeValuePeak(t[k], MaxAbs(t), qBits);
    assert QuantizeTensor(t, qBits)[k] == QuantizeValue(t[k], MaxAbs(t), qBits);
  }

  /** A value of largest magnitude comes out exactly as -1 or 1. */
  lemma QuantizeValuePeak(v: real, m: real, qBits: nat)
    requires m > 0.0
    requires Abs(v) == m
    requires qBits >= 1
    ensures -m <= v <= m
    ensures QuantizeValue(v, m, qBits) == 1.0 || QuantizeValue(v, m, qBits) == -1.0
  {
    QuantizeValueEnds(m, qBits);
  }

  /** With one bit every output is -1 or 1. */
  lemma QuantizeTensorOneBit(t: seq<real>)
    requires |t| > 0 && MaxAbs(t) > 0.0
    ensures forall i :: 0 <= i < |t| ==> QuantizeTensor(t, 1)[i] == 1.0 || QuantizeTensor(t, 1)[i] == -1.0
  {
    var out := QuantizeTensor(t, 1);
    forall i | 0 <= i < |t|
      ensures out[i] == 1.0 || out[i] == -1.0
    {
      QuantizeValueOneBit(t[i], MaxAbs(t));
    }
  }

  /** A successful call quantizes each tanh value to within 1/s of its
      normalised value t / max|t|, keeps the order of the tanh values, maps an
      element of largest magnitude exactly to -1 or 1, and with one bit
      yields only -1 and 1. */
  lemma QuantizeWeightFacts(tanh: real -> real, weight: seq<real>, qBits: Option<int>)
    requires QuantizeWeight(tanh, weight, qBits).Ok?
    ensures |weight| > 0 && qBits.Some? && qBits.get >= 1
    ensures var t := ApplyTanh(tanh, weight);
            var out := QuantizeWeight(tanh, weight, qBits).value;
            && MaxAbs(t) > 0.0
            && (forall i :: 0 <= i < |weight| ==> WithinStep(out[i], t[i] / MaxAbs(t), Steps(qBits.get)))
            && (forall i, j :: 0 <= i < |weight| && 0 <= j < |weight| && t[i] <= t[j] ==> out[i] <= out[j])
            && (exists k :: 0 <= k < |weight| && Abs(t[k]) == MaxAbs(t) && (out[k] == 1.0 || out[k] == -1.0))
            && (qBits.get == 1 ==> forall i :: 0 <= i < |weight| ==> out[i] == 1.0 || out[i] == -1.0)
  {
    var t := ApplyTanh(tanh, weight);
    QuantizeTensorError(t, qBits.get);
    QuantizeTensorMonotone(t, qBits.get);
    QuantizeTensorPeak(t, qBits.get);
    if qBits.get == 1 {
      QuantizeTensorOneBit(t);
    }
  }
}
