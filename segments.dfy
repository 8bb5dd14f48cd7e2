/** The two buffer primitives of the audio library that the composition
    rules depend on: a silent buffer and overlaying one buffer onto another.
    Time is measured on a grid of one sample per millisecond, so a buffer's
    length is its duration in milliseconds. */
module Segments {
  import opened Numeric

  function NonNegative(x: int): nat { if x > 0 then x else 0 }

  /** `AudioSegment.silent(duration)`: a non-positive duration gives an empty buffer. */
  function Silent(durationMs: int): (r: seq<Sample>)
    ensures |r| == NonNegative(durationMs)
    ensures forall i :: 0 <= i < |r| ==> r[i] == 0
  {
    seq(NonNegative(durationMs), i => 0)
  }

  /** `base.overlay(top, position)`: `top` is added sample by sample from
      `position` on, with 16-bit saturation; the result keeps the length of
      `base`, so whatever of `top` runs past its end is dropped. */
  function Overlay(base: seq<Sample>, top: seq<Sample>, position: nat): (r: seq<Sample>)
    ensures |r| == |base|
  {
    seq(|base|, i requires 0 <= i < |base| =>
      if position <= i < position + |top| then Saturate(base[i] as int + top[i - position]) else base[i])
  }
}
