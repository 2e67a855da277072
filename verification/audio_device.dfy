/**
 The unchecked frame cursor of an audio device.

 Like the player's cursor it hands out `frames` interleaved frames from
 an offset counted in frames, but it neither checks the buffer's end nor
 reports whether anything remains: the caller must stay inside the
 buffer, which is this model's precondition, and the offset grows by
 `frames` on every call.
 */
module AudioDevice {
  import opened Bytes
  import opened Frames
  import AudioPlayer

  datatype Device = Device(channels: u16, samples: seq<u32>, offset: nat)

  /** The outcome of one call: the device afterwards and the block handed out. */
  datatype Pull = Pull(next: Device, result: seq<u32>)

  /** A new device: no samples yet and the cursor at frame 0. */
  function New(channels: u16): (d: Device)
    ensures d.channels == channels && d.samples == [] && d.offset == 0
  {
    Device(channels, [], 0)
  }

  /** Start playing a buffer: it replaces the samples, and the cursor stays where it was. */
  function Play(d: Device, samples: seq<u32>): (e: Device)
    ensures e.samples == samples && e.channels == d.channels && e.offset == d.offset
  {
    d.(samples := samples)
  }

  /** Consecutive slices join up. */
  lemma SliceSplit(s: seq<u32>, a: nat, b: nat, c: nat)
    requires a <= b <= c <= |s|
    ensures s[a..c] == s[a..b] + s[b..c]
  {
  }

  /** Hand out the `frames` frames at the cursor and move past them. */
  function GetData(d: Device, frames: u32): (r: Pull)
    requires Span(d.offset + frames, d.channels) <= |d.samples|
    ensures Span(d.offset, d.channels) + Span(frames, d.channels) == Span(d.offset + frames, d.channels)
    ensures r.result == d.samples[Span(d.offset, d.channels)..Span(d.offset + frames, d.channels)]
    ensures |r.result| == Span(frames, d.channels)
    ensures r.next.offset == d.offset + frames
    ensures r.next.samples == d.samples && r.next.channels == d.channels
  {
    SpanAdd(d.offset, frames, d.channels);
    Pull(d.(offset := d.offset + frames), d.samples[Span(d.offset, d.channels)..Span(d.offset + frames, d.channels)])
  }

  /**
   Two calls in a row hand out adjacent blocks: together they are the
   `first + second` frames from the cursor, and the cursor ends past all
   of them.
   */
  lemma ConsecutiveCalls(d: Device, first: u32, second: u32)
    requires Span(d.offset + first + second, d.channels) <= |d.samples|
    ensures Span(d.offset + first, d.channels) <= |d.samples|
    ensures var one := GetData(d, first);
      var two := GetData(one.next, second);
      && one.result + two.result == d.samples[Span(d.offset, d.channels)..Span(d.offset + first + second, d.channels)]
      && two.next == d.(offset := d.offset + first + second)
  {
    SpanMonotone(d.offset + first, d.offset + first + second, d.channels);
    SpanMonotone(d.offset, d.offset + first, d.channels);
    SliceSplit(d.samples, Span(d.offset, d.channels), Span(d.offset + first, d.channels), Span(d.offset + first + second, d.channels));
  }

  /**
   Playing a new buffer does not rewind: the next call reads the new
   buffer from the frame where the old one stopped.
   */
  lemma PlayResumesAtOffset(d: Device, samples: seq<u32>, frames: u32)
    requires Span(d.offset + frames, d.channels) <= |samples|
    ensures GetData(Play(d, samples), frames).result == samples[Span(d.offset, d.channels)..Span(d.offset + frames, d.channels)]
  {
  }

  /**
   While the checked cursor reports more data, the unchecked one hands out
   the same block and moves to the same frame.
   */
  lemma AgreesWithPlayer(d: Device, frames: u32)
    requires AudioPlayer.Valid(AudioPlayer.Player(d.channels, d.samples, d.offset))
    requires AudioPlayer.GetData(AudioPlayer.Player(d.channels, d.samples, d.offset), frames).more
    ensures Span(d.offset + frames, d.channels) <= |d.samples|
    ensures var f := AudioPlayer.GetData(AudioPlayer.Player(d.channels, d.samples, d.offset), frames);
      var r := GetData(d, frames);
      r.result == f.result && r.next.offset == f.next.offset
  {
    SpanWithin(d.offset + frames, |d.samples|, d.channels);
  }
}
