/** `QAT_Quantizer`: quantization-aware training after Jacob et al. (CVPR 2018).
    The quantizer holds a global step counter. Each layer holds the parameters
    last solved for it and, when its outputs are quantized, the EMA buffers
    that track the range of those outputs. The per-layer hooks take the
    counter, the layer's configuration and state, and a tensor, and return the
    simulated-quantized tensor with the layer's new state. */
module Qat {
  import opened RealArith
  import opened Tensor
  import opened Outcome
  import opened Ema
  import opened Codec
  import opened Solver

  /** The quantization types a layer configuration can name. */
  datatype QuantType = Weight | Input | Output

  /** `quant_bits`: one width shared by every type, a width per type, or no
      such key in the configuration. */
  datatype QuantBits = Uniform(width: int) | PerType(widths: map<QuantType, int>) | Absent

  /** The configuration keys the quantizer reads; `quantStartStep` is None
      when the key is absent. */
  datatype LayerConfig = LayerConfig(quantTypes: seq<QuantType>, quantBits: QuantBits, quantStartStep: Option<int>)

  /** `get_bits_length`: None when a per-type table has no entry for `t`.
      A configuration without `quant_bits` fails at the lookup (a KeyError in
      the source); the model reports it as a missing width too. */
  function GetBitsLength(config: LayerConfig, t: QuantType): Option<int>
  {
    match config.quantBits
    case Uniform(width) => Some(width)
    case PerType(widths) => if t in widths then Some(widths[t]) else None
    case Absent => None
  }

  /** The table that gives every quantization type the same width. */
  function SharedTable(width: int): (m: map<QuantType, int>)
    ensures Weight in m && Input in m && Output in m
    ensures m[Weight] == width && m[Input] == width && m[Output] == width
  {
    map[Weight := width, Input := width, Output := width]
  }

  /** A single integer `quant_bits` means the same as a table giving every
      type that width: the two configurations agree on every lookup. */
  lemma UniformIsSharedTable(config: LayerConfig, width: int)
    requires config.quantBits == Uniform(width)
    ensures forall t: QuantType ::
              GetBitsLength(config, t) == GetBitsLength(config.(quantBits := PerType(SharedTable(width))), t)
              == Some(width)
  {
    forall t: QuantType
      ensures GetBitsLength(config.(quantBits := PerType(SharedTable(width))), t) == Some(width)
    {
      match t
      case Weight =>
      case Input =>
      case Output =>
    }
  }

  /** A table answers exactly for the types it lists, with the width it lists,
      and a configuration without `quant_bits` answers for none. */
  lemma TableLookup(config: LayerConfig, t: QuantType)
    ensures config.quantBits.PerType? ==>
              (GetBitsLength(config, t).Some? <==> t in config.quantBits.widths)
              && (t in config.quantBits.widths ==> GetBitsLength(config, t).get == config.quantBits.widths[t])
    ensures config.quantBits.Absent? ==> GetBitsLength(config, t).None?
  {
  }

  /** A width is configured for `t` and passes the hooks' assertion `bits >= 1`. */
  predicate BitsOk(config: LayerConfig, t: QuantType)
  {
    GetBitsLength(config, t).Some? && GetBitsLength(config, t).get >= 1
  }

  /** `quant_start_step`, 0 when absent. */
  function StartStep(config: LayerConfig): int
  {
    match config.quantStartStep
    case None => 0
    case Some(s) => s
  }

  /** The hooks quantize once the counter has reached the start step. */
  predicate Active(config: LayerConfig, steps: nat)
  {
    StartStep(config) <= steps
  }

  /** The `ema_decay` buffer: registered as 0.99 and never written. */
  const EmaDecay: real := 0.99

  /** The tracked-range buffers. `updates` counts the EMA updates made so far;
      the source keeps no such count, see QuantizeOutputAsWritten. */
  datatype EmaBuffers = EmaBuffers(minBiased: real, min: real, maxBiased: real, max: real, updates: nat)

  /** What a layer holds: the parameters last solved (None until the first
      active call) and the EMA buffers (present only for output quantization). */
  datatype LayerState = LayerState(params: Option<QuantParams>, ema: Option<EmaBuffers>)

  /** The quantizer: the step counter and one state per layer to compress. */
  datatype QatQuantizer = QatQuantizer(steps: nat, layers: seq<LayerState>)

  /** The zero-initialized buffers a layer with output quantization registers. */
  const FreshBuffers: EmaBuffers := EmaBuffers(0.0, 0.0, 0.0, 0.0, 0)

  /** The state `__init__` registers for one layer. */
  function FreshLayer(config: LayerConfig): (s: LayerState)
    ensures s.params.None?
    ensures s.ema.Some? <==> Output in config.quantTypes
    ensures s.ema.Some? ==> s.ema.get == FreshBuffers
  {
    LayerState(None, if Output in config.quantTypes then Some(FreshBuffers) else None)
  }

  /** `__init__`: the counter starts at 1, and each layer starts without
      parameters and with EMA buffers exactly when it quantizes outputs. */
  function Create(configs: seq<LayerConfig>): (q: QatQuantizer)
    ensures q.steps == 1
    ensures |q.layers| == |configs|
    ensures forall i :: 0 <= i < |configs| ==>
              q.layers[i].params.None? && (q.layers[i].ema.Some? <==> Output in configs[i].quantTypes)
    ensures forall i :: 0 <= i < |configs| && q.layers[i].ema.Some? ==> q.layers[i].ema.get == FreshBuffers
  {
    QatQuantizer(1, seq(|configs|, i requires 0 <= i < |configs| => FreshLayer(configs[i])))
  }

  /** `step`: advance the counter. */
  function Step(q: QatQuantizer): QatQuantizer
  {
    q.(steps := q.steps + 1)
  }

  /** `n` calls of `step`. */
  function StepTimes(q: QatQuantizer, n: nat): QatQuantizer
    decreases n
  {
    if n == 0 then q else StepTimes(Step(q), n - 1)
  }

  /** Each `step` adds exactly one to the counter and touches nothing else. */
  lemma {:induction false} StepTimesCounts(q: QatQuantizer, n: nat)
    ensures StepTimes(q, n).steps == q.steps + n
    ensures StepTimes(q, n).layers == q.layers
    decreases n
  {
    if n > 0 {
      StepTimesCounts(Step(q), n - 1);
    }
  }

  /** After construction and any number of steps the counter is n + 1, so never below 1. */
  lemma CounterAfterSteps(configs: seq<LayerConfig>, n: nat)
    ensures StepTimes(Create(configs), n).steps == n + 1
  {
    StepTimesCounts(Create(configs), n);
  }

  /** Activation is one-way: once active, a layer stays active after any steps. */
  lemma ActiveStaysActive(config: LayerConfig, q: QatQuantizer, n: nat)
    requires Active(config, q.steps)
    ensures Active(config, StepTimes(q, n).steps)
  {
    StepTimesCounts(q, n);
  }

  /** `_quantize` then `_dequantize` over a whole tensor. */
  function Simulate(bits: nat, p: QuantParams, t: seq<real>): (out: seq<real>)
    requires p.scale != 0.0
    ensures |out| == |t|
    ensures forall i :: 0 <= i < |t| ==> out[i] == FakeQuantize(bits, p.scale, p.zeroPoint, t[i])
  {
    DequantizeTensor(p.scale, p.zeroPoint, QuantizeTensor(bits, p.scale, p.zeroPoint, t))
  }

  /** Simulating again with the same parameters changes nothing: every
      output value is already a representable level. */
  lemma SimulateIdempotent(bits: nat, p: QuantParams, t: seq<real>)
    requires p.scale != 0.0
    ensures Simulate(bits, p, Simulate(bits, p, t)) == Simulate(bits, p, t)
  {
    var once := Simulate(bits, p, t);
    forall i | 0 <= i < |t|
      ensures Simulate(bits, p, once)[i] == once[i]
    {
      FakeQuantizeIdempotent(bits, p.scale, p.zeroPoint, t[i]);
    }
  }

  /** A non-empty tensor has the degenerate range [0, 0] exactly when all its elements are 0. */
  lemma ZeroRangeIffAllZero(t: seq<real>)
    requires |t| > 0
    ensures DegenerateRange(Min(t), Max(t)) <==> forall i :: 0 <= i < |t| ==> t[i] == 0.0
  {
    if forall i :: 0 <= i < |t| ==> t[i] == 0.0 {
      assert Min(t) in t && Max(t) in t;
    }
  }

  /** `quantize_weight`: solve fresh parameters from the weight's own range. */
  function QuantizeWeight(steps: nat, config: LayerConfig, state: LayerState, weight: seq<real>)
    : (r: Result<(seq<real>, LayerState)>)
    ensures r.Ok? ==> |r.value.0| == |weight| && r.value.1.ema == state.ema
  {
    match GetBitsLength(config, Weight)
    case None => Err(MissingBits)
    case Some(bits) =>
      if bits < 1 then Err(BitsBelowOne)
      else if StartStep(config) > steps then Ok((weight, state))
      else if |weight| == 0 then Err(EmptyTensor)
      else if DegenerateRange(Min(weight), Max(weight)) then Err(ZeroRange)
      else
        var p := UpdateQuantizationParam(bits, Min(weight), Max(weight));
        Ok((Simulate(bits, p, weight), state.(params := Some(p))))
  }

  /** The failures of `quantize_weight`, each with exactly its cause. */
  lemma QuantizeWeightFails(steps: nat, config: LayerConfig, state: LayerState, weight: seq<real>)
    ensures QuantizeWeight(steps, config, state, weight) == Err(MissingBits)
        <==> GetBitsLength(config, Weight).None?
    ensures QuantizeWeight(steps, config, state, weight) == Err(BitsBelowOne)
        <==> GetBitsLength(config, Weight).Some? && GetBitsLength(config, Weight).get < 1
    ensures QuantizeWeight(steps, config, state, weight) == Err(EmptyTensor)
        <==> BitsOk(config, Weight) && Active(config, steps) && |weight| == 0
    ensures QuantizeWeight(steps, config, state, weight) == Err(ZeroRange)
        <==> BitsOk(config, Weight) && Active(config, steps) && |weight| > 0
             && forall i :: 0 <= i < |weight| ==> weight[i] == 0.0
    ensures QuantizeWeight(steps, config, state, weight) != Err(MissingEmaBuffers)
  {
    if BitsOk(config, Weight) && Active(config, steps) && |weight| > 0 {
      ZeroRangeIffAllZero(weight);
    }
  }

  /** Before the start step the weight passes through and the state is untouched. */
  lemma QuantizeWeightGated(steps: nat, config: LayerConfig, state: LayerState, weight: seq<real>)
    requires BitsOk(config, Weight)
    requires !Active(config, steps)
    ensures QuantizeWeight(steps, config, state, weight) == Ok((weight, state))
  {
  }

  /** Parameters `p` are a valid solution for `bits` over the range [lo, hi]:
      a positive scale spreading the widened range over the codes, and an
      integer zero point among the codes within half a code of the exact
      code of real 0. */
  ghost predicate SolvedFor(p: QuantParams, bits: nat, lo: real, hi: real)
  {
    && p.scale > 0.0
    && p.scale * Qmax(bits) as real == WidenedMax(hi) - WidenedMin(lo)
    && IsInteger(p.zeroPoint)
    && 0.0 <= p.zeroPoint <= Qmax(bits) as real
    && -0.5 <= p.zeroPoint - (0.0 - WidenedMin(lo) / p.scale) <= 0.5
  }

  /** The solver's result is a valid solution for the range it was given. */
  lemma SolverSolves(bits: nat, lo: real, hi: real)
    requires bits >= 1
    requires !DegenerateRange(lo, hi)
    ensures SolvedFor(UpdateQuantizationParam(bits, lo, hi), bits, lo, hi)
  {
  }

  /** Every value of `out` is within `step` of the matching value of `t`. */
  ghost predicate AllWithin(out: seq<real>, t: seq<real>, step: real)
  {
    |out| == |t| && forall i :: 0 <= i < |t| ==> Abs(out[i] - t[i]) <= step
  }

  /** Every 0 of `t` comes out as exactly 0. */
  ghost predicate KeepsZeros(out: seq<real>, t: seq<real>)
  {
    |out| == |t| && forall i :: 0 <= i < |t| && t[i] == 0.0 ==> out[i] == 0.0
  }

  /** Simulated quantization of a tensor with parameters solved for a range
      that covers it. */
  lemma SimulateSolvedRange(bits: nat, lo: real, hi: real, t: seq<real>)
    requires bits >= 1
    requires !DegenerateRange(lo, hi)
    requires forall i :: 0 <= i < |t| ==> lo <= t[i] <= hi
    ensures var p := UpdateQuantizationParam(bits, lo, hi);
            AllWithin(Simulate(bits, p, t), t, p.scale / 2.0) && KeepsZeros(Simulate(bits, p, t), t)
  {
    var p := UpdateQuantizationParam(bits, lo, hi);
    var out := Simulate(bits, p, t);
    forall i | 0 <= i < |t|
      ensures Abs(out[i] - t[i]) <= p.scale / 2.0
    {
      SolvedRangeWithinHalfStep(bits, lo, hi, t[i]);
    }
    SolvedZeroIsExact(bits, lo, hi);
  }

  /** Once active, a successful `quantize_weight` stores parameters solved from
      the weight's own min and max, keeps the EMA buffers, and returns values
      that are each within half a scale step of the weight, that map 0 to 0, and
      that are already representable levels. */
  lemma QuantizeWeightActive(steps: nat, config: LayerConfig, state: LayerState, weight: seq<real>)
    requires QuantizeWeight(steps, config, state, weight).Ok?
    requires Active(config, steps)
    ensures BitsOk(config, Weight) && |weight| > 0
    ensures var (out, s) := QuantizeWeight(steps, config, state, weight).value;
            var bits := GetBitsLength(config, Weight).get;
            && s.ema == state.ema
            && s.params.Some?
            && SolvedFor(s.params.get, bits, Min(weight), Max(weight))
            && AllWithin(out, weight, s.params.get.scale / 2.0)
            && KeepsZeros(out, weight)
            && Simulate(bits, s.params.get, out) == out
  {
    var bits := GetBitsLength(config, Weight).get;
    var lo, hi := Min(weight), Max(weight);
    SolverSolves(bits, lo, hi);
    SimulateSolvedRange(bits, lo, hi, weight);
    SimulateIdempotent(bits, UpdateQuantizationParam(bits, lo, hi), weight);
  }

  /** The outcome of an active output call: the simulated tensor, the new
      buffers and the parameters solved from them. */
  datatype Tracked = Tracked(out: seq<real>, buffers: EmaBuffers, params: QuantParams)

  /** The two `update_ema` calls of `quantize_output`: fold the batch's min
      and max into the tracked bounds, bias-corrected with exponent `emaStep`. */
  function TrackBuffers(buf: EmaBuffers, output: seq<real>, emaStep: nat): (b: EmaBuffers)
    requires |output| > 0
    requires emaStep >= 1
    ensures MinR(buf.minBiased, Min(output)) <= b.minBiased <= MaxR(buf.minBiased, Min(output))
    ensures MaxR(buf.maxBiased, Max(output)) >= b.maxBiased >= MinR(buf.maxBiased, Max(output))
    ensures 0.0 < 1.0 - Pow(EmaDecay, emaStep) < 1.0
    ensures IsCorrection(b.min, b.minBiased, 1.0 - Pow(EmaDecay, emaStep))
    ensures IsCorrection(b.max, b.maxBiased, 1.0 - Pow(EmaDecay, emaStep))
    ensures b.updates == buf.updates + 1
  {
    var mn := UpdateEma(buf.minBiased, Min(output), EmaDecay, emaStep);
    var mx := UpdateEma(buf.maxBiased, Max(output), EmaDecay, emaStep);
    EmaBuffers(mn.biased, mn.unbiased, mx.biased, mx.unbiased, buf.updates + 1)
  }

  /** The active part of `quantize_output`: update the tracked bounds, solve
      parameters from the corrected bounds, and simulate. */
  function TrackAndQuantize(bits: nat, buf: EmaBuffers, output: seq<real>, emaStep: nat): (r: Result<Tracked>)
    requires bits >= 1
    requires |output| > 0
    requires emaStep >= 1
    ensures r.Ok? ==> r.value.buffers == TrackBuffers(buf, output, emaStep)
    ensures r.Err? <==> DegenerateRange(TrackBuffers(buf, output, emaStep).min, TrackBuffers(buf, output, emaStep).max)
  {
    var b := TrackBuffers(buf, output, emaStep);
    if DegenerateRange(b.min, b.max) then Err(ZeroRange)
    else
      var p := UpdateQuantizationParam(bits, b.min, b.max);
      Ok(Tracked(Simulate(bits, p, output), b, p))
  }

  /** `quantize_output`, with the bias correction's exponent chosen by
      `countUpdates`: the number of EMA updates including this one (true) or
      the global step counter, as the source does (false). */
  function QuantizeOutputWith(steps: nat, config: LayerConfig, state: LayerState, output: seq<real>, countUpdates: bool)
    : (r: Result<(seq<real>, LayerState)>)
    requires countUpdates || steps >= 1
    ensures r.Ok? ==> |r.value.0| == |output|
  {
    match GetBitsLength(config, Output)
    case None => Err(MissingBits)
    case Some(bits) =>
      if bits < 1 then Err(BitsBelowOne)
      else if StartStep(config) > steps then Ok((output, state))
      else if |output| == 0 then Err(EmptyTensor)
      else if state.ema.None? then Err(MissingEmaBuffers)
      else
        var emaStep := if countUpdates then state.ema.get.updates + 1 else steps;
        match TrackAndQuantize(bits, state.ema.get, output, emaStep)
        case Err(e) => Err(e)
        case Ok(t) => Ok((t.out, LayerState(Some(t.params), Some(t.buffers))))
  }

  /** `quantize_output` as the source writes it: the bias correction uses the
      global step counter, whatever the number of EMA updates made so far. */
  function QuantizeOutputAsWritten(steps: nat, config: LayerConfig, state: LayerState, output: seq<real>)
    : (r: Result<(seq<real>, LayerState)>)
    requires steps >= 1
    ensures r.Ok? ==> |r.value.0| == |output|
    ensures r.Ok? && Active(config, steps) ==>
              |output| > 0 && state.ema.Some? && r.value.1.ema == Some(TrackBuffers(state.ema.get, output, steps))
  {
    QuantizeOutputWith(steps, config, state, output, false)
  }

  /** `quantize_output` with the bias correction the EMA needs: the exponent is
      the number of updates the buffers have received, this one included. */
  function QuantizeOutput(steps: nat, config: LayerConfig, state: LayerState, output: seq<real>)
    : (r: Result<(seq<real>, LayerState)>)
    ensures r.Ok? ==> |r.value.0| == |output|
    ensures r.Ok? && Active(config, steps) ==>
              |output| > 0 && state.ema.Some?
              && r.value.1.ema == Some(TrackBuffers(state.ema.get, output, state.ema.get.updates + 1))
  {
    QuantizeOutputWith(steps, config, state, output, true)
  }

  /** The failures of `quantize_output` that precede the range computation, each
      with exactly its cause, for the source's exponent and the corrected one
      alike. */
  lemma QuantizeOutputFails(steps: nat, config: LayerConfig, state: LayerState, output: seq<real>,
                            countUpdates: bool)
    requires countUpdates || steps >= 1
    ensures QuantizeOutputWith(steps, config, state, output, countUpdates) == Err(MissingBits)
        <==> GetBitsLength(config, Output).None?
    ensures QuantizeOutputWith(steps, config, state, output, countUpdates) == Err(BitsBelowOne)
        <==> GetBitsLength(config, Output).Some? && GetBitsLength(config, Output).get < 1
    ensures QuantizeOutputWith(steps, config, state, output, countUpdates) == Err(EmptyTensor)
        <==> BitsOk(config, Output) && Active(config, steps) && |output| == 0
    ensures QuantizeOutputWith(steps, config, state, output, countUpdates) == Err(MissingEmaBuffers)
        <==> BitsOk(config, Output) && Active(config, steps) && |output| > 0 && state.ema.None?
  {
  }

  /** Before the start step the output passes through and the parameters and
      EMA buffers are untouched. */
  lemma QuantizeOutputGated(steps: nat, config: LayerConfig, state: LayerState, output: seq<real>)
    requires BitsOk(config, Output)
    requires !Active(config, steps)
    ensures QuantizeOutput(steps, config, state, output) == Ok((output, state))
    ensures steps >= 1 ==> QuantizeOutputAsWritten(steps, config, state, output) == Ok((output, state))
  {
  }

  /** The tracked bounds of `buf` are the bias-corrected averages of values in
      [lo, hi]: each accumulator lies within [lo, hi] scaled by the total
      weight of its `updates` observations. */
  ghost predicate TracksWithin(buf: EmaBuffers, lo: real, hi: real)
  {
    && WithinScaledBounds(buf.minBiased, lo, hi, EmaDecay, buf.updates)
    && WithinScaledBounds(buf.maxBiased, lo, hi, EmaDecay, buf.updates)
  }

  /** Freshly registered buffers track any range: no weight has been given yet. */
  lemma FreshBuffersTrack(lo: real, hi: real)
    ensures TracksWithin(FreshBuffers, lo, hi)
  {
    assert Pow(EmaDecay, 0) == 1.0;
  }

  /** One corrected update of buffers that track [lo, hi], with a batch in [lo, hi]. */
  lemma {:induction false} TrackStep(buf: EmaBuffers, output: seq<real>, lo: real, hi: real)
    requires |output| > 0
    requires forall i :: 0 <= i < |output| ==> lo <= output[i] <= hi
    requires TracksWithin(buf, lo, hi)
    ensures var b := TrackBuffers(buf, output, buf.updates + 1);
            TracksWithin(b, lo, hi) && lo <= b.min <= hi && lo <= b.max <= hi
  {
    UpdateEmaKeepsBounds(buf.minBiased, Min(output), lo, hi, EmaDecay, buf.updates + 1);
    UpdateEmaKeepsBounds(buf.maxBiased, Max(output), lo, hi, EmaDecay, buf.updates + 1);
  }

  /** With the bias correction counting EMA updates, the tracked range never
      leaves the range of what was observed: if the buffers track [lo, hi] and
      the batch lies in [lo, hi], the new buffers track [lo, hi] and the new
      tracked min and max lie in [lo, hi]. */
  lemma QuantizeOutputTracksRange(steps: nat, config: LayerConfig, state: LayerState, output: seq<real>,
                                  lo: real, hi: real)
    requires QuantizeOutput(steps, config, state, output).Ok?
    requires Active(config, steps)
    requires state.ema.Some? && TracksWithin(state.ema.get, lo, hi)
    requires forall i :: 0 <= i < |output| ==> lo <= output[i] <= hi
    ensures var s := QuantizeOutput(steps, config, state, output).value.1;
            && s.ema.Some?
            && TracksWithin(s.ema.get, lo, hi)
            && lo <= s.ema.get.min <= hi
            && lo <= s.ema.get.max <= hi
  {
    TrackStep(state.ema.get, output, lo, hi);
  }

  /** With the bias correction counting EMA updates, the first active call on
      fresh buffers tracks exactly the batch's min and max, whatever the step
      counter says. */
  lemma QuantizeOutputFirstCallExact(steps: nat, config: LayerConfig, output: seq<real>)
    requires QuantizeOutput(steps, config, FreshLayer(config), output).Ok?
    requires Active(config, steps)
    ensures var s := QuantizeOutput(steps, config, FreshLayer(config), output).value.1;
            s.ema.Some? && s.ema.get.min == Min(output) && s.ema.get.max == Max(output)
  {
    UpdateEmaFirstStep(Min(output), EmaDecay);
    UpdateEmaFirstStep(Max(output), EmaDecay);
  }

  /** Either variant, active with its buffers present, succeeds exactly when
      the updated tracked range is not degenerate, and then stores the updated
      buffers. */
  lemma QuantizeOutputWithActive(steps: nat, config: LayerConfig, state: LayerState, output: seq<real>,
                                 countUpdates: bool)
    requires countUpdates || steps >= 1
    requires BitsOk(config, Output) && Active(config, steps)
    requires |output| > 0 && state.ema.Some?
    ensures var emaStep := if countUpdates then state.ema.get.updates + 1 else steps;
            var b := TrackBuffers(state.ema.get, output, emaStep);
            var r := QuantizeOutputWith(steps, config, state, output, countUpdates);
            && (r.Ok? <==> !DegenerateRange(b.min, b.max))
            && (r.Ok? ==> r.value.1.ema == Some(b))
  {
  }

  /** A successful active step solves parameters for the updated tracked
      range and simulates the batch with them: zeros stay exact and the result
      is already on the grid. */
  lemma TrackAndQuantizeSolves(bits: nat, buf: EmaBuffers, output: seq<real>, emaStep: nat)
    requires bits >= 1 && |output| > 0 && emaStep >= 1
    requires TrackAndQuantize(bits, buf, output, emaStep).Ok?
    ensures var t := TrackAndQuantize(bits, buf, output, emaStep).value;
            && SolvedFor(t.params, bits, t.buffers.min, t.buffers.max)
            && t.out == Simulate(bits, t.params, output)
            && KeepsZeros(t.out, output)
            && Simulate(bits, t.params, t.out) == t.out
  {
    var t := TrackAndQuantize(bits, buf, output, emaStep).value;
    SolverSolves(bits, t.buffers.min, t.buffers.max);
    SolvedZeroIsExact(bits, t.buffers.min, t.buffers.max);
    SimulateIdempotent(bits, t.params, output);
  }

  /** Once active, a successful `quantize_output`, with either exponent,
      stores the updated buffers and parameters solved for their tracked
      range, and returns the batch simulated with those parameters. */
  lemma QuantizeOutputActive(steps: nat, config: LayerConfig, state: LayerState, output: seq<real>,
                             countUpdates: bool)
    requires countUpdates || steps >= 1
    requires QuantizeOutputWith(steps, config, state, output, countUpdates).Ok?
    requires Active(config, steps)
    ensures BitsOk(config, Output) && |output| > 0 && state.ema.Some?
    ensures var (out, s) := QuantizeOutputWith(steps, config, state, output, countUpdates).value;
            var bits := GetBitsLength(config, Output).get;
            && s.ema.Some? && s.params.Some?
            && SolvedFor(s.params.get, bits, s.ema.get.min, s.ema.get.max)
            && out == Simulate(bits, s.params.get, output)
            && KeepsZeros(out, output)
            && Simulate(bits, s.params.get, out) == out
  {
    var bits := GetBitsLength(config, Output).get;
    var emaStep := if countUpdates then state.ema.get.updates + 1 else steps;
    TrackAndQuantizeSolves(bits, state.ema.get, output, emaStep);
  }

  /** A layer that quantizes its outputs with 8 bits from step 2 on. */
  const LateStart: LayerConfig := LayerConfig([Output], Uniform(8), Some(2))

  /** The tracked bounds after an update are the two corrected estimates. */
  lemma TrackBuffersBounds(buf: EmaBuffers, output: seq<real>, emaStep: nat)
    requires |output| > 0
    requires emaStep >= 1
    ensures TrackBuffers(buf, output, emaStep).min == UpdateEma(buf.minBiased, Min(output), EmaDecay, emaStep).unbiased
    ensures TrackBuffers(buf, output, emaStep).max == UpdateEma(buf.maxBiased, Max(output), EmaDecay, emaStep).unbiased
  {
  }

  /** From a zero accumulator, a first update corrected with exponent 2 scales
      the value by 0.01 / (1 - 0.99^2) = 100/199. */
  lemma SecondStepFromZero(v: real)
    ensures UpdateEma(0.0, v, EmaDecay, 2).unbiased == v * 100.0 / 199.0
  {
    var r := UpdateEma(0.0, v, EmaDecay, 2);
    assert Pow(EmaDecay, 2) == 0.9801 by {
      assert Pow(EmaDecay, 1) == 0.99;
    }
    assert r.biased == 0.01 * v;
    assert r.unbiased * 0.0199 == 0.01 * v;
  }

  /** Fresh buffers updated with a batch at exponent 2 track its max scaled by 100/199. */
  lemma FreshBuffersAtSecondStep(output: seq<real>)
    requires |output| > 0
    ensures TrackBuffers(FreshBuffers, output, 2).max == Max(output) * 100.0 / 199.0
  {
    TrackBuffersBounds(FreshBuffers, output, 2);
    SecondStepFromZero(Max(output));
  }

  /** Fresh buffers updated with a batch at exponent 1 track its min and max exactly. */
  lemma FreshBuffersAtFirstStep(output: seq<real>)
    requires |output| > 0
    ensures TrackBuffers(FreshBuffers, output, 1).min == Min(output)
    ensures TrackBuffers(FreshBuffers, output, 1).max == Max(output)
  {
    TrackBuffersBounds(FreshBuffers, output, 1);
    UpdateEmaFirstStep(Min(output), EmaDecay);
    UpdateEmaFirstStep(Max(output), EmaDecay);
  }

  /** A positive value scaled by 100/199 is positive and smaller. */
  lemma ShrinkFactor(v: real)
    requires v > 0.0
    ensures 0.0 < v * 100.0 / 199.0 < v
  {
  }

  /** As the source writes it, the first active call at step 2 on fresh
      buffers tracks the batch's max scaled by 100/199. */
  lemma AsWrittenAtSecondStep(output: seq<real>)
    requires |output| > 0 && Max(output) > 0.0
    ensures var r := QuantizeOutputAsWritten(2, LateStart, FreshLayer(LateStart), output);
            r.Ok? && r.value.1.ema == Some(TrackBuffers(FreshBuffers, output, 2))
  {
    assert FreshLayer(LateStart).ema == Some(FreshBuffers);
    FreshBuffersAtSecondStep(output);
    ShrinkFactor(Max(output));
    QuantizeOutputWithActive(2, LateStart, FreshLayer(LateStart), output, false);
  }

  /** With the corrected exponent, the same call tracks the batch's range exactly. */
  lemma CorrectedAtSecondStep(output: seq<real>)
    requires |output| > 0 && Max(output) > 0.0
    ensures var r := QuantizeOutput(2, LateStart, FreshLayer(LateStart), output);
            r.Ok? && r.value.1.ema == Some(TrackBuffers(FreshBuffers, output, 1))
  {
    assert FreshLayer(LateStart).ema == Some(FreshBuffers);
    FreshBuffersAtFirstStep(output);
    QuantizeOutputWithActive(2, LateStart, FreshLayer(LateStart), output, true);
  }

  /** The source's bias correction exponent is the global counter, so when the
      first EMA update happens at step 2 (quant_start_step = 2) the tracked max
      of a batch comes out as its max times 0.01 / (1 - 0.99^2) = 100/199,
      about half the only value ever observed (a batch [0, 10] is tracked as
      [0, 1000/199]); counting the updates instead tracks the max itself. */
  lemma AsWrittenShrinksFirstRange(output: seq<real>)
    requires |output| > 0 && Max(output) > 0.0
    ensures var r := QuantizeOutputAsWritten(2, LateStart, FreshLayer(LateStart), output);
            r.Ok? && r.value.1.ema.Some? && r.value.1.ema.get.max == Max(output) * 100.0 / 199.0
            && r.value.1.ema.get.max < Max(output)
    ensures var r := QuantizeOutput(2, LateStart, FreshLayer(LateStart), output);
            r.Ok? && r.value.1.ema.Some? && r.value.1.ema.get.max == Max(output)
  {
    AsWrittenAtSecondStep(output);
    CorrectedAtSecondStep(output);
    FreshBuffersAtSecondStep(output);
    FreshBuffersAtFirstStep(output);
    ShrinkFactor(Max(output));
  }
}
