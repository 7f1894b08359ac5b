module Samples {
  /** A 16-bit audio sample. */
  type Sample = x: int | -32768 <= x < 32768
}
