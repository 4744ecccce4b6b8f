# Built-in quantizers of NNI's PyTorch compression package

This project models the three built-in quantizers of NNI's model-compression
toolkit (`builtin_quantizers.py`) over exact real arithmetic and proves
properties of them.

- **`QAT_Quantizer`** (modules `Qat`, `Solver`, `Codec`, `Ema`) does
  quantization-aware training after Jacob et al., "Quantization and Training
  of Neural Networks for Efficient Integer-Arithmetic-Only Inference" (CVPR
  2018).
  - A global step counter starts at 1 and is advanced by `step`.
  - A layer's hooks quantize once the counter reaches the layer's
    `quant_start_step`.
  - `quantize_weight` solves a scale and an integer zero point from the
    weight's own min and max.
  - `quantize_output` first folds the batch's min and max into
    bias-corrected exponential moving averages (`update_ema`). It then
    solves the parameters from those tracked bounds.
  - In both cases the tensor goes through `_quantize` (shift, clamp, round)
    and back through `_dequantize`.
- **`DoReFaQuantizer`** (module `DoReFa`) follows Zhou et al., "DoReFa-Net"
  (2016). It squashes the weight with tanh, normalises it into [0, 1], snaps
  it to a grid of `2^q_bits - 1` steps, and stretches it back onto [-1, 1].
- **`NaiveQuantizer`** (module `Naive`) keeps one scale per layer. That scale
  only widens, so that the weight's largest magnitude maps to at most code 127.
  The weight is truncated onto the int8 grid of that scale.

The shared modules are:

- `RealArith`: the scalar operations, namely `torch.round` (ties to even),
  truncation, the int8 cast, clamp, and `2^bits - 1`.
- `Tensor`: tensors as flat sequences, with the reductions `torch.min`,
  `torch.max` and `abs().max()`.
- `Outcome`: the `Result` and `Option` types, and the error cases.

The source raises an exception in some cases and silently produces NaN or
infinity in others. The model returns an explicit error in those cases
(`MissingBits`, `BitsBelowOne`, `EmptyTensor`, `ZeroRange`,
`MissingEmaBuffers`):

- A missing `quant_bits` key raises `KeyError` in `get_bits_length`. The model
  writes it as `QuantBits.Absent`, and the hooks return `MissingBits`.
- The contracts of `Qat.QuantizeWeightFails`, `Qat.QuantizeOutputFails`,
  `Qat.QuantizeOutputWithActive`, `Naive.QuantizeWeight` and
  `DoReFa.QuantizeWeight` say when each error happens.
- "## Left out" lists what the model does not keep of the source's state on
  an error path.

Two points about rounding:

- `_quantize` clamps and then rounds. `Codec.QuantizeIsRoundThenClamp` proves
  that this equals rounding first, because the bounds are integers.
- The naive quantizer truncates toward zero (`.type(torch.int8)`). It does not
  round.

## Model

| member | source | states |
|---|---|---|
| RealArith.Qmax | src/sdk/pynni/nni/compression/torch/builtin_quantizers.py:73 | the largest code is one less than 2^bits, and at least 1 when bits >= 1 |
| RealArith.Round | src/sdk/pynni/nni/compression/torch/builtin_quantizers.py:158 | torch.round returns an integer within one half of its argument, and on a tie it returns the even neighbour |
| RealArith.Clamp | src/sdk/pynni/nni/compression/torch/builtin_quantizers.py:157 | torch.clamp returns a value of [lo, hi]: the value itself when it is inside, otherwise the bound it crossed |
| RealArith.RoundNearest | src/sdk/pynni/nni/compression/torch/builtin_quantizers.py:158 | an integer strictly closer than one half is the one torch.round picks |
| RealArith.RoundMonotone | src/sdk/pynni/nni/compression/torch/builtin_quantizers.py:158 | rounding preserves order |
| RealArith.Trunc | src/sdk/pynni/nni/compression/torch/builtin_quantizers.py:22 | the float-to-integer cast truncates toward zero: the result has the sign of its argument, is no larger in magnitude, and is less than 1 away |
| RealArith.Int8Cast | src/sdk/pynni/nni/compression/torch/builtin_quantizers.py:22 | the int8 cast of an in-range value lies in [-128, 127], is no larger in magnitude than its argument, and is less than 1 away from it |
| RealArith.ClampRoundCommute | src/sdk/pynni/nni/compression/torch/builtin_quantizers.py:157-158 | clamping to integer bounds and then rounding equals rounding and then clamping |
| Tensor.Min | src/sdk/pynni/nni/compression/torch/builtin_quantizers.py:188 | torch.min returns an element of the tensor that is no larger than any element |
| Tensor.Max | src/sdk/pynni/nni/compression/torch/builtin_quantizers.py:188 | torch.max returns an element of the tensor that is no smaller than any element |
| Tensor.MaxAbs | src/sdk/pynni/nni/compression/torch/builtin_quantizers.py:18 | abs().max() is the magnitude of some element and bounds every element's magnitude |
| Tensor.ReduceMin | src/sdk/pynni/nni/compression/torch/builtin_quantizers.py:202 | a left-to-right running-minimum scan agrees with the tensor-wide minimum |
| Tensor.ReduceMax | src/sdk/pynni/nni/compression/torch/builtin_quantizers.py:202 | a left-to-right running-maximum scan agrees with the tensor-wide maximum |
| Ema.PowInUnitInterval | src/sdk/pynni/nni/compression/torch/builtin_quantizers.py:45 | for a decay in (0, 1) and step >= 1, decay^step is in (0, 1), so the bias-correction denominator is never zero |
| Ema.Accumulate | src/sdk/pynni/nni/compression/torch/builtin_quantizers.py:44 | the new accumulator lies between the old accumulator and the observed value |
| Ema.UpdateEma | src/sdk/pynni/nni/compression/torch/builtin_quantizers.py:44-46 | the biased value is between the old accumulator and the observation, and the unbiased value times the total weight 1 - decay^step gives back the biased value |
| Ema.UpdateEmaFirstStep | src/sdk/pynni/nni/compression/torch/builtin_quantizers.py:44-45 | from a zero accumulator, the step-1 correction recovers the observed value exactly |
| Ema.UpdateEmaKeepsBounds | src/sdk/pynni/nni/compression/torch/builtin_quantizers.py:44-45 | if the accumulator is within [lo, hi] scaled by its total weight and the value is in [lo, hi], the same holds one step later and the corrected estimate is in [lo, hi] |
| Ema.EmaTrackWithinRange | src/sdk/pynni/nni/compression/torch/builtin_quantizers.py:44-45 | after any stream of observations in [lo, hi] that starts from the zero buffers, the bias-corrected estimate is in [lo, hi] |
| Ema.EmaTrackConstant | src/sdk/pynni/nni/compression/torch/builtin_quantizers.py:44-45 | a constant stream is tracked exactly from the first step on |
| Codec.Quantize | src/sdk/pynni/nni/compression/torch/builtin_quantizers.py:154-159 | the code is an integer in [0, 2^bits - 1], within one half of the clamped exact code |
| Codec.QuantizeTensor | src/sdk/pynni/nni/compression/torch/builtin_quantizers.py:154-159 | element-wise `_quantize` returns one integer code in [0, 2^bits - 1] per element |
| Codec.QuantizeIsRoundThenClamp | src/sdk/pynni/nni/compression/torch/builtin_quantizers.py:154-158 | the code equals the rounded exact code clamped to [0, 2^bits - 1] |
| Codec.DequantizeQuantizeRoundTrip | src/sdk/pynni/nni/compression/torch/builtin_quantizers.py:154-179 | every in-range integer code survives dequantize followed by quantize |
| Codec.ZeroIsExact | src/sdk/pynni/nni/compression/torch/builtin_quantizers.py:154-179 | with an integer in-range zero point, 0 quantizes to the zero point and comes back as exactly 0 |
| Codec.FakeQuantizeIdempotent | src/sdk/pynni/nni/compression/torch/builtin_quantizers.py:154-179 | quantize-then-dequantize applied twice equals applying it once |
| Codec.FakeQuantizeError | src/sdk/pynni/nni/compression/torch/builtin_quantizers.py:154-179 | inside the representable range, quantize-then-dequantize moves a value by at most half a scale step |
| Codec.TransformTensorInverse | src/sdk/pynni/nni/compression/torch/builtin_quantizers.py:154-179 | dequantizing the exact real codes zero_point + x / scale of a tensor gives the tensor back, so `_dequantize` inverts the affine part of `_quantize` |
| Codec.TensorRoundTrip | src/sdk/pynni/nni/compression/torch/builtin_quantizers.py:154-179 | a tensor of in-range integer codes survives dequantize followed by quantize |
| Solver.WidenedMin | src/sdk/pynni/nni/compression/torch/builtin_quantizers.py:68 | the widened lower bound is at most 0 and at most rmin, and is one of the two |
| Solver.WidenedMax | src/sdk/pynni/nni/compression/torch/builtin_quantizers.py:69 | the widened upper bound is at least 0 and at least rmax, and is one of the two |
| Solver.Scale | src/sdk/pynni/nni/compression/torch/builtin_quantizers.py:75 | the scale is positive and spreads the widened range over exactly 2^bits - 1 steps |
| Solver.InitialZeroPointInRange | src/sdk/pynni/nni/compression/torch/builtin_quantizers.py:78 | the unnudged zero point already lies in [0, qmax], so of the nudge branches only rounding is taken |
| Solver.Nudge | src/sdk/pynni/nni/compression/torch/builtin_quantizers.py:81-87 | the nudged zero point is an integer in [0, qmax]; when the initial point is in range it moves by at most one half |
| Solver.UpdateQuantizationParam | src/sdk/pynni/nni/compression/torch/builtin_quantizers.py:48-89 | the scale is positive and spans the widened range, and the zero point is an integer code within one half of the exact code of 0 |
| Solver.SolvedZeroIsExact | src/sdk/pynni/nni/compression/torch/builtin_quantizers.py:65-89 | with the solved parameters, real 0 is represented exactly |
| Solver.SolvedRangeWithinHalfStep | src/sdk/pynni/nni/compression/torch/builtin_quantizers.py:68-89 | every value of the widened range comes back from quantize-then-dequantize within half a scale step |
| Solver.CodecWithinHalfStep | src/sdk/pynni/nni/compression/torch/builtin_quantizers.py:75-87 | the half-step bound holds for any scale that spans the range and any zero point within one half of the exact code of 0 |
| Qat.UniformIsSharedTable | src/sdk/pynni/nni/compression/torch/builtin_quantizers.py:92-96 | an integer `quant_bits` answers every quant type with that width, the same answers as a table that lists the width for all three types |
| Qat.FreshLayer | src/sdk/pynni/nni/compression/torch/builtin_quantizers.py:127-135 | a new layer has no scale or zero point, and has zero EMA buffers exactly when its quant types include `output` |
| Qat.Create | src/sdk/pynni/nni/compression/torch/builtin_quantizers.py:124-135 | the counter starts at 1; every layer starts without parameters, and has zero EMA buffers exactly when it quantizes outputs |
| Qat.StepTimesCounts | src/sdk/pynni/nni/compression/torch/builtin_quantizers.py:214-218 | n calls of `step` add exactly n to the counter and leave every layer's state unchanged |
| Qat.CounterAfterSteps | src/sdk/pynni/nni/compression/torch/builtin_quantizers.py:125 | after construction and n steps the counter is n + 1, so it is never 0 |
| Qat.ActiveStaysActive | src/sdk/pynni/nni/compression/torch/builtin_quantizers.py:186-187 | once a layer's start step is reached, it stays reached after any number of steps |
| Qat.Simulate | src/sdk/pynni/nni/compression/torch/builtin_quantizers.py:190-191 | quantize-then-dequantize of a tensor keeps its length and acts element by element |
| Qat.SimulateIdempotent | src/sdk/pynni/nni/compression/torch/builtin_quantizers.py:190-191 | simulating an already simulated tensor with the same parameters changes nothing |
| Qat.ZeroRangeIffAllZero | src/sdk/pynni/nni/compression/torch/builtin_quantizers.py:188-189 | a non-empty tensor has the range [0, 0], which the solver cannot divide by, exactly when all its elements are 0 |
| Qat.QuantizeWeight | src/sdk/pynni/nni/compression/torch/builtin_quantizers.py:181-192 | a successful call keeps the tensor's length and never touches the EMA buffers |
| Qat.QuantizeWeightFails | src/sdk/pynni/nni/compression/torch/builtin_quantizers.py:181-189 | each failure of `quantize_weight` happens exactly when its cause holds: bits missing, bits below 1, an empty weight once active, or an all-zero weight once active |
| Qat.QuantizeWeightGated | src/sdk/pynni/nni/compression/torch/builtin_quantizers.py:186-187 | before the start step the weight passes through unchanged and the state is untouched |
| Qat.SolverSolves | src/sdk/pynni/nni/compression/torch/builtin_quantizers.py:189 | the solver's result is a valid solution for the range it was given: a positive scale spanning the widened range and an integer zero point among the codes, within half a code of the exact code of real 0 |
| Qat.SimulateSolvedRange | src/sdk/pynni/nni/compression/torch/builtin_quantizers.py:188-191 | a tensor simulated with parameters solved for a range that covers it has every element within half a step, and every 0 stays 0 |
| Qat.QuantizeWeightActive | src/sdk/pynni/nni/compression/torch/builtin_quantizers.py:181-192 | once active, a successful call stores parameters solved from the weight's min and max. Its output is within half a step of the weight, maps 0 to 0 and is already on the grid |
| Qat.TrackBuffers | src/sdk/pynni/nni/compression/torch/builtin_quantizers.py:202-204 | each new biased bound lies between the old biased bound and the batch's min or max; the bias-correction weight 1 - 0.99^step lies in (0, 1); each tracked bound times that weight is its biased bound; one update is counted |
| Qat.TrackAndQuantize | src/sdk/pynni/nni/compression/torch/builtin_quantizers.py:202-207 | the active output path fails exactly when the updated tracked range is [0, 0], and otherwise stores the updated buffers |
| Qat.QuantizeOutputWith | src/sdk/pynni/nni/compression/torch/builtin_quantizers.py:194-208 | a successful call keeps the tensor's length, whichever exponent the bias correction uses |
| Qat.QuantizeOutputAsWritten | src/sdk/pynni/nni/compression/torch/builtin_quantizers.py:194-208 | `quantize_output` with the global step counter as the bias-correction exponent, as the source has it. A successful call keeps the tensor's length, and once active it stores the buffers updated with this batch at that exponent |
| Qat.QuantizeOutput | src/sdk/pynni/nni/compression/torch/builtin_quantizers.py:194-208 | corrected hook (## Findings): `quantize_output` with the number of EMA updates as the exponent. A successful call keeps the tensor's length, and once active it stores the buffers updated with this batch at the next update count |
| Qat.QuantizeOutputFails | src/sdk/pynni/nni/compression/torch/builtin_quantizers.py:194-202 | in both the as-written and the corrected hook, each failure before the range computation happens exactly when its cause holds: bits missing, bits below 1, an empty output once active, or no EMA buffers once active |
| Qat.QuantizeOutputGated | src/sdk/pynni/nni/compression/torch/builtin_quantizers.py:199-200 | before the start step the output passes through and the parameters and buffers are untouched, in both variants |
| Qat.FreshBuffersTrack | src/sdk/pynni/nni/compression/torch/builtin_quantizers.py:132-135 | the zero-initialized buffers are consistent with tracking any range |
| Qat.TrackStep | src/sdk/pynni/nni/compression/torch/builtin_quantizers.py:202-204 | corrected hook (## Findings): one corrected update with a batch in [lo, hi] keeps the buffers tracking [lo, hi], and the new tracked min and max lie in [lo, hi] |
| Qat.QuantizeOutputTracksRange | src/sdk/pynni/nni/compression/torch/builtin_quantizers.py:202-205 | corrected hook (## Findings): with buffers that track [lo, hi] and a batch in [lo, hi], the tracked min and max after the call stay in [lo, hi] |
| Qat.QuantizeOutputFirstCallExact | src/sdk/pynni/nni/compression/torch/builtin_quantizers.py:202-204 | corrected hook (## Findings): the first active call on fresh buffers tracks exactly the batch's min and max, whatever the step counter is |
| Qat.QuantizeOutputWithActive | src/sdk/pynni/nni/compression/torch/builtin_quantizers.py:202-205 | once active with buffers present, either variant succeeds exactly when the updated tracked range is not [0, 0], and then stores those buffers |
| Qat.TrackAndQuantizeSolves | src/sdk/pynni/nni/compression/torch/builtin_quantizers.py:205-207 | the stored parameters solve the updated tracked range (zero point within half a code of the exact code of real 0), and the batch is simulated with them: zeros stay exact and the result is already on the grid |
| Qat.QuantizeOutputActive | src/sdk/pynni/nni/compression/torch/builtin_quantizers.py:194-208 | in both the as-written and the corrected hook, once active, a successful call stores parameters solved for the new tracked range (zero point within half a code of the exact code of real 0) and returns the batch simulated with them, zeros exact and on the grid |
| Qat.SecondStepFromZero | src/sdk/pynni/nni/compression/torch/builtin_quantizers.py:44-45 | from a zero accumulator, a first update corrected with exponent 2 scales the value by 100/199 |
| Qat.FreshBuffersAtSecondStep | src/sdk/pynni/nni/compression/torch/builtin_quantizers.py:203-204 | fresh buffers updated at exponent 2 track the batch's max times 100/199 |
| Qat.FreshBuffersAtFirstStep | src/sdk/pynni/nni/compression/torch/builtin_quantizers.py:203-204 | fresh buffers updated at exponent 1 track the batch's min and max exactly |
| Qat.AsWrittenShrinksFirstRange | src/sdk/pynni/nni/compression/torch/builtin_quantizers.py:203-204 | with quant_start_step = 2 the source's first tracked max is the batch's max times 100/199, below the max; the corrected hook tracks the max itself |
| Naive.CallScale | src/sdk/pynni/nni/compression/torch/builtin_quantizers.py:18-19 | the scale a call uses is the larger of the stored scale (0 if none) and max\|w\|/127 |
| Naive.FitsUnder | src/sdk/pynni/nni/compression/torch/builtin_quantizers.py:18-22 | a value no larger in magnitude than m fits any scale of at least m/127, so its quotient cannot overflow int8 |
| Naive.AllFit | src/sdk/pynni/nni/compression/torch/builtin_quantizers.py:18-22 | every element of the weight fits the call's scale |
| Naive.Code | src/sdk/pynni/nni/compression/torch/builtin_quantizers.py:22 | the int8 code of a fitting value is in [-127, 127] and truncates w/scale toward zero |
| Naive.Codes | src/sdk/pynni/nni/compression/torch/builtin_quantizers.py:22 | every code of the weight is an int8 in [-127, 127] that truncates w / scale toward zero |
| Naive.QuantizeWeight | src/sdk/pynni/nni/compression/torch/builtin_quantizers.py:17-22 | only an empty weight fails. On success the length is kept and only this layer's stored scale is set, to the call's scale; a zero call scale gives an all-zero output |
| Naive.ZeroScaleKeepsWeight | src/sdk/pynni/nni/compression/torch/builtin_quantizers.py:17-22 | the call scale is 0 only for an all-zero weight; that weight comes back unchanged and the stored scale becomes 0 |
| Naive.QuantizeWeightWidens | src/sdk/pynni/nni/compression/torch/builtin_quantizers.py:19-20 | a call never shrinks the layer's stored scale, makes it cover the weight at code 127, and leaves other layers' scales unchanged |
| Naive.CodeError | src/sdk/pynni/nni/compression/torch/builtin_quantizers.py:22 | one element truncated onto the grid is no larger in magnitude, has the same sign, and is less than one step away |
| Naive.GridError | src/sdk/pynni/nni/compression/torch/builtin_quantizers.py:22 | the element-wise truncation error bound, for a whole tensor |
| Naive.QuantizeWeightOnGrid | src/sdk/pynni/nni/compression/torch/builtin_quantizers.py:17-22 | with a positive call scale, every output element is an int8 code in [-127, 127] times the new scale, toward zero from the weight element and less than one step from it |
| Naive.CodeOfGridPoint | src/sdk/pynni/nni/compression/torch/builtin_quantizers.py:22 | a grid point of at most 127 steps truncates to its own multiplier |
| Naive.CodesOfGrid | src/sdk/pynni/nni/compression/torch/builtin_quantizers.py:22 | the codes of a tensor already on the grid are its multipliers (the rescale-then-code round trip) |
| Naive.QuantizeWeightIdempotent | src/sdk/pynni/nni/compression/torch/builtin_quantizers.py:17-22 | quantizing the output again on the same layer changes neither the output nor the stored scales |
| Naive.FirstCallKeepsPeak | src/sdk/pynni/nni/compression/torch/builtin_quantizers.py:18-22 | on a layer with no stored scale, a nonzero weight gets scale max\|w\|/127 and an element of largest magnitude comes back unchanged |
| Naive.PeakCode | src/sdk/pynni/nni/compression/torch/builtin_quantizers.py:22 | an element of magnitude 127 steps maps to code ±127 and back exactly |
| Naive.RunWidens | src/sdk/pynni/nni/compression/torch/builtin_quantizers.py:19-20 | over any successful sequence of calls, no stored scale disappears or shrinks |
| DoReFa.Steps | src/sdk/pynni/nni/compression/torch/builtin_quantizers.py:241 | the grid has 2^q_bits - 1 >= 1 steps |
| DoReFa.QuantizeUnit | src/sdk/pynni/nni/compression/torch/builtin_quantizers.py:240-243 | `quantize` on a value of [0, 1] returns a grid point of [0, 1] within half a step of it |
| DoReFa.GridFixed | src/sdk/pynni/nni/compression/torch/builtin_quantizers.py:242 | a grid point is its own nearest grid point |
| DoReFa.QuantizeUnitIdempotent | src/sdk/pynni/nni/compression/torch/builtin_quantizers.py:240-243 | `quantize` is idempotent |
| DoReFa.QuantizeUnitMonotone | src/sdk/pynni/nni/compression/torch/builtin_quantizers.py:242 | `quantize` preserves order |
| DoReFa.OneBitGrid | src/sdk/pynni/nni/compression/torch/builtin_quantizers.py:241-242 | with one bit the grid is {0, 1} |
| DoReFa.NormalizeValueInUnit | src/sdk/pynni/nni/compression/torch/builtin_quantizers.py:235 | a value within the largest magnitude normalises into [0, 1], with the extremes mapped to 0 and 1 |
| DoReFa.NormalizeValueMonotone | src/sdk/pynni/nni/compression/torch/builtin_quantizers.py:235 | normalisation preserves and reflects order |
| DoReFa.Normalize | src/sdk/pynni/nni/compression/torch/builtin_quantizers.py:235 | every normalised value of a nonzero tensor lies in [0, 1] |
| DoReFa.QuantizeTensor | src/sdk/pynni/nni/compression/torch/builtin_quantizers.py:235-237 | every element lies within the tensor's largest magnitude, and each output is that element normalised, quantized and stretched with it |
| DoReFa.QuantizeValue | src/sdk/pynni/nni/compression/torch/builtin_quantizers.py:235-237 | normalise-quantize-stretch returns a level 2k/s - 1 of [-1, 1] |
| DoReFa.StretchNormalized | src/sdk/pynni/nni/compression/torch/builtin_quantizers.py:235-237 | stretching a normalised value gives the value divided by the largest magnitude |
| DoReFa.QuantizeValueEnds | src/sdk/pynni/nni/compression/torch/builtin_quantizers.py:235-237 | the largest magnitude maps to exactly 1, and its negation to exactly -1 |
| DoReFa.QuantizeValueMonotone | src/sdk/pynni/nni/compression/torch/builtin_quantizers.py:235-237 | the per-value pipeline preserves order |
| DoReFa.QuantizeValueError | src/sdk/pynni/nni/compression/torch/builtin_quantizers.py:235-237 | each output is within 1/s of the tanh value divided by the largest magnitude, where s = 2^q_bits - 1 |
| DoReFa.QuantizeValueOneBit | src/sdk/pynni/nni/compression/torch/builtin_quantizers.py:235-242 | with one bit each output is -1 or 1 |
| DoReFa.MaxAbsZero | src/sdk/pynni/nni/compression/torch/builtin_quantizers.py:235 | the largest magnitude is 0 exactly when every value is 0, which is the case the normalisation cannot divide by |
| DoReFa.QuantizeWeight | src/sdk/pynni/nni/compression/torch/builtin_quantizers.py:233-238 | each error happens exactly when its cause holds. On success the length is kept, and every output is a grid level in [-1, 1] |
| DoReFa.QuantizeTensorError | src/sdk/pynni/nni/compression/torch/builtin_quantizers.py:235-237 | every output of a tensor is within 1/s of its normalised tanh value |
| DoReFa.QuantizeTensorMonotone | src/sdk/pynni/nni/compression/torch/builtin_quantizers.py:235-237 | outputs are ordered like the tanh values |
| DoReFa.QuantizeTensorPeak | src/sdk/pynni/nni/compression/torch/builtin_quantizers.py:235-237 | an element of largest magnitude comes out exactly as -1 or 1 |
| DoReFa.QuantizeTensorOneBit | src/sdk/pynni/nni/compression/torch/builtin_quantizers.py:235-242 | with one bit every output is -1 or 1 |
| DoReFa.QuantizeWeightFacts | src/sdk/pynni/nni/compression/torch/builtin_quantizers.py:233-243 | a successful call has every output within 1/s of the normalised tanh value. It keeps their order, maps a peak exactly to ±1, and with one bit yields only ±1 |

## Left out

- The `Quantizer` base class, layer detection, `register_buffer` and hook dispatch: `compressor.py` is not part of this model. Per-layer state is passed in and returned explicitly.
- Tensor shapes and dtypes: every quantizer here acts element-wise or through whole-tensor reductions, so tensors are flat sequences of reals.
- Floating-point rounding: all arithmetic is exact. Properties such as "0 is represented exactly" hold for real arithmetic, not necessarily bit-for-bit in float32.
- `tanh`: the DoReFa model takes it as a function parameter. No property of tanh is used.
- `fold_bn`, which is an empty stub, logging, and gradients, which the training loop computes through the simulated values.
- Input quantization: `QAT_Quantizer` defines no input hook, so the `input` quant type only takes part in the bits lookup.
- Division by zero: the source divides by zero and yields NaN or infinity for an all-zero weight or tracked range (QAT solver) or an all-zero tanh (DoReFa normalisation). The model returns `ZeroRange` instead.
- Qat.QuantizeOutputWith: on a tracked range of [0, 0] the source has already updated the EMA buffers (lines 203-204) and stored a zero scale and a NaN zero point (line 205; the scale from line 75, the NaN from line 78, kept by the rounding on line 87) before it produces NaN. The model's `ZeroRange` error carries no layer state, so those writes are not modelled.
- Qat.QuantizeWeight: on an all-zero weight the source stores a zero scale and a NaN zero point on the layer (line 189; the scale from line 75, the NaN from line 78, kept by the rounding on line 87) before it produces NaN. The model's `ZeroRange` error carries no layer state, so that write is not modelled.
- Naive.QuantizeWeight: with a zero scale the source computes 0 / 0 and casts the NaN to int8. The model takes the code as 0, so the output is all zeros; any int8 code times the zero scale gives the same.
- DoReFa.QuantizeWeight: the source does not check `q_bits`. With q_bits = 0 the grid has 0 steps and every output is NaN; with q_bits = -1 the scale is -0.5 and every output is -1. The model rejects any value below 1 as `BitsBelowOne`, checked after the `ZeroRange` case.
- RealArith.Int8Cast: defined only where truncation fits in int8, since the source's out-of-range cast is not specified. The naive quantizer proves it never leaves that window.
- Qat.EmaBuffers: the `updates` field counts EMA updates. It exists only in the model, to state the corrected bias correction; the source keeps no such count.
- Tensor.ReduceMin, Tensor.ReduceMax: `torch.min` and `torch.max` are batched kernels. The model gives the sequential scan they must agree with.
- The `op` attributes `scale` and `zero_point` start as `None`. The model's `LayerState.params` starts as `None` and is `Some` after the first active call.

## Findings

| source | as written | input that shows it | evidently intended | confidence | as-written member | corrected member |
|---|---|---|---|---|---|---|
| src/sdk/pynni/nni/compression/torch/builtin_quantizers.py:203-204 | `quantize_output` bias-corrects the EMA with `decay ** self.steps`, the global step counter, although the buffers have received fewer updates whenever quant_start_step > 1 | quant_start_step = 2, first active call at step 2 on fresh buffers, batch with max M > 0: tracked max = 0.01·M / (1 − 0.99²) = M·100/199 ≈ 0.5·M | the exponent is the number of EMA updates made so far, so that the first update recovers the batch's range and every estimate stays inside the observed range | not executed | Qat.AsWrittenShrinksFirstRange | Qat.QuantizeOutputFirstCallExact |
