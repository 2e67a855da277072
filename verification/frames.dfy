/**
 Interleaved frames: a frame holds one sample per channel, so frame `k`
 of a buffer starts at sample `k * channels`.
 */
module Frames {
  /** The number of samples in `frames` frames of `channels` channels, one frame after another. */
  function Span(frames: nat, channels: nat): nat {
    if frames == 0 then 0 else channels + Span(frames - 1, channels)
  }

  /** It is the product of the two counts. */
  lemma {:induction false} SpanIsProduct(frames: nat, channels: nat)
    ensures Span(frames, channels) == frames * channels
  {
    if frames > 0 {
      SpanIsProduct(frames - 1, channels);
    }
  }

  /** The samples of consecutive frames add up. */
  lemma {:induction false} SpanAdd(a: nat, b: nat, channels: nat)
    ensures Span(a + b, channels) == Span(a, channels) + Span(b, channels)
    decreases b
  {
    if b > 0 {
      SpanAdd(a, b - 1, channels);
    }
  }

  /** More frames span more samples. */
  lemma SpanMonotone(a: nat, b: nat, channels: nat)
    requires a <= b
    ensures Span(a, channels) <= Span(b, channels)
  {
    SpanAdd(a, b - a, channels);
  }

  /** Every frame up to the number of whole frames in `count` samples starts inside them. */
  lemma SpanWithin(frame: nat, count: nat, channels: nat)
    requires channels > 0 && frame <= count / channels
    ensures Span(frame, channels) <= Span(count / channels, channels) <= count
    ensures count - Span(count / channels, channels) == count % channels < channels
  {
    SpanMonotone(frame, count / channels, channels);
    SpanIsProduct(count / channels, channels);
  }
}
