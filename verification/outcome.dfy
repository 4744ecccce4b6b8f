/** How a quantizer call can fail, and the optional values of the
    configuration. The source signals the failures with Python exceptions (an
    `assert`, a TypeError, a KeyError for a missing `quant_bits` or `q_bits`
    key, an AttributeError for a layer without the EMA buffers, torch's error
    on reducing an empty tensor) or, for an all-zero range, by silently
    dividing by zero. */
module Outcome {

  datatype QuantError =
    | MissingBits        // no bit width is configured for this quantization type
    | BitsBelowOne       // "quant bits length should be at least 1"
    | EmptyTensor        // min/max of an empty tensor
    | ZeroRange          // the range to quantize is [0, 0]: the source divides by zero
    | MissingEmaBuffers  // output quantization on a layer registered without EMA buffers

  datatype Result<+T> = Ok(value: T) | Err(error: QuantError)

  datatype Option<+T> = None | Some(get: T)
}
