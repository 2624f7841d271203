/** Streams of samples that are silent before they start and after they end. */
module Streams {
  /** Sample `i` of a stream. */
  function At(xs: seq<real>, i: int): real {
    if 0 <= i < |xs| then xs[i] else 0.0
  }
}
