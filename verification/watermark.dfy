/** The watermark recorded by an attempt that idled without measuring the log (contracts/no_watermark.py). */
module Watermarks {

  const NO_WATERMARK: int := -1
}
