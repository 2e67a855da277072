/**
 The bounds-checked frame cursor of an audio player.

 The player holds an interleaved sample buffer (frame-major,
 channel-minor) and an offset counted in frames. Each time the audio
 backend wants more data it asks for `frames` frames and gets back the
 next block together with a flag that says whether anything remains after
 it. The last block carries whatever is left, including a trailing
 partial frame when the buffer length is not a multiple of the channel
 count, and leaves the cursor at the buffer's end.

 The cursor is modelled as an immutable value: each call yields the next
 value and the block handed out.
 */
module AudioPlayer {
  import opened Bytes
  import opened Frames

  datatype Player = Player(channels: u16, samples: seq<u32>, offset: nat)

  /** The outcome of one call: the player afterwards, the block handed out, and the has-more flag. */
  datatype Fetch = Fetch(next: Player, result: seq<u32>, more: bool)

  /** A new player: no samples yet and the cursor at frame 0. */
  function New(channels: u16): (p: Player)
    ensures p.channels == channels && p.samples == [] && p.offset == 0
    ensures channels > 0 ==> Valid(p)
  {
    Player(channels, [], 0)
  }

  /** The number of whole frames in the buffer. */
  function BufferFrames(p: Player): nat
    requires p.channels > 0
  {
    |p.samples| / p.channels
  }

  /** What a call needs: at least one channel (the frame count divides by it) and the cursor inside the buffer. */
  predicate Valid(p: Player) {
    p.channels > 0 && p.offset <= BufferFrames(p)
  }

  /** The samples from the cursor to the end of the buffer. */
  function Pending(p: Player): (s: seq<u32>)
    requires Valid(p)
    ensures Span(p.offset, p.channels) <= |p.samples|
    ensures s == p.samples[Span(p.offset, p.channels)..]
  {
    SpanWithin(p.offset, |p.samples|, p.channels);
    p.samples[Span(p.offset, p.channels)..]
  }

  /**
   Hand out the next block. When more than `frames` whole frames remain,
   the block is the next `frames` frames and the cursor moves past them;
   otherwise the block is everything from the cursor to the end of the
   buffer and the cursor moves to the last whole frame boundary.
   */
  function GetData(p: Player, frames: u32): (f: Fetch)
    requires Valid(p)
    ensures f.more <==> BufferFrames(p) - p.offset > frames
    ensures f.next.channels == p.channels && f.next.samples == p.samples && Valid(f.next)
    ensures f.more ==> |f.result| == Span(frames, p.channels) && f.next.offset == p.offset + frames
    ensures f.more ==> Pending(p) == f.result + Pending(f.next)
    ensures !f.more ==> f.result == Pending(p) && f.next.offset == BufferFrames(p)
  {
    var bufferFrames := BufferFrames(p);
    var remaining := bufferFrames - p.offset;
    var start := Span(p.offset, p.channels);
    SpanWithin(p.offset, |p.samples|, p.channels);
    if remaining > frames then
      var stop := Span(p.offset + frames, p.channels);
      SpanWithin(p.offset + frames, |p.samples|, p.channels);
      SpanAdd(p.offset, frames, p.channels);
      assert p.samples[start..] == p.samples[start..stop] + p.samples[stop..];
      Fetch(p.(offset := p.offset + frames), p.samples[start..stop], true)
    else
      Fetch(p.(offset := bufferFrames), p.samples[start..], false)
  }

  /** The blocks of a sequence of calls, concatenated. */
  function Joined(calls: seq<Fetch>): seq<u32> {
    if |calls| == 0 then [] else calls[0].result + Joined(calls[1..])
  }

  /**
   Call `GetData` until it first reports that nothing more remains: every
   call but the last says there is more, the last says there is not and
   leaves the cursor at the last whole frame boundary.
   */
  function Drain(p: Player, frames: u32): (calls: seq<Fetch>)
    requires Valid(p) && frames > 0
    ensures |calls| >= 1 && calls[0] == GetData(p, frames)
    ensures forall i | 0 <= i < |calls| - 1 :: calls[i].more
    ensures var last := calls[|calls| - 1].next;
      !calls[|calls| - 1].more && last.offset == BufferFrames(p) && last.samples == p.samples && last.channels == p.channels
    decreases BufferFrames(p) - p.offset
  {
    var f := GetData(p, frames);
    if !f.more then [f]
    else [f] + Drain(f.next, frames)
  }

  /** Each call of the drain is made on the player the previous call left. */
  lemma {:induction false} DrainChains(p: Player, frames: u32, i: nat)
    requires Valid(p) && frames > 0 && i + 1 < |Drain(p, frames)|
    ensures Valid(Drain(p, frames)[i].next)
    ensures Drain(p, frames)[i + 1] == GetData(Drain(p, frames)[i].next, frames)
    decreases BufferFrames(p) - p.offset
  {
    var f := GetData(p, frames);
    var rest := Drain(f.next, frames);
    assert Drain(p, frames) == [f] + rest;
    if i > 0 {
      DrainChains(f.next, frames, i - 1);
    }
  }

  /** The drained blocks put together are exactly the samples from the cursor on. */
  lemma {:induction false} DrainJoined(p: Player, frames: u32)
    requires Valid(p) && frames > 0
    ensures Joined(Drain(p, frames)) == Pending(p)
    decreases BufferFrames(p) - p.offset
  {
    var f := GetData(p, frames);
    if f.more {
      var rest := Drain(f.next, frames);
      assert Drain(p, frames) == [f] + rest;
      assert ([f] + rest)[1..] == rest;
      DrainJoined(f.next, frames);
    }
  }

  /** The number of calls of `frames` frames that `remaining` frames take: one, plus one for every call that leaves more. */
  function Calls(remaining: nat, frames: nat): (n: nat)
    requires frames > 0
    ensures n >= 1
    decreases remaining
  {
    if remaining <= frames then 1 else 1 + Calls(remaining - frames, frames)
  }

  /** The call count is the remaining frames divided by `frames`, rounded up, and at least one. */
  lemma {:induction false} CallsBounds(remaining: nat, frames: nat)
    requires frames > 0
    ensures var n := Calls(remaining, frames);
      (n - 1) * frames < remaining <= n * frames || (remaining == 0 && n == 1)
    decreases remaining
  {
    if remaining > frames {
      var m := Calls(remaining - frames, frames);
      CallsBounds(remaining - frames, frames);
      assert (m + 1) * frames == m * frames + frames;
    }
  }

  /** The drain makes that many calls. */
  lemma {:induction false} DrainCalls(p: Player, frames: u32)
    requires Valid(p) && frames > 0
    ensures |Drain(p, frames)| == Calls(BufferFrames(p) - p.offset, frames)
    decreases BufferFrames(p) - p.offset
  {
    var f := GetData(p, frames);
    if f.more {
      var rest := Drain(f.next, frames);
      assert Drain(p, frames) == [f] + rest;
      DrainCalls(f.next, frames);
    }
  }

  /**
   Each call but the last hands out `frames` frames, so the number of
   calls is the remaining frame count divided by `frames`, rounded up, and
   at least one.
   */
  lemma DrainCount(p: Player, frames: u32)
    requires Valid(p) && frames > 0
    ensures var n, remaining := |Drain(p, frames)|, BufferFrames(p) - p.offset;
      (n - 1) * frames < remaining <= n * frames || (remaining == 0 && n == 1)
  {
    DrainCalls(p, frames);
    CallsBounds(BufferFrames(p) - p.offset, frames);
  }

  /**
   At the end of the buffer every further call changes nothing and hands
   out the trailing partial frame again: the block is empty exactly when
   the buffer length is a multiple of the channel count.
   */
  lemma AtEndRepeats(p: Player, frames: u32)
    requires Valid(p) && p.offset == BufferFrames(p)
    ensures GetData(p, frames) == Fetch(p, p.samples[Span(BufferFrames(p), p.channels)..], false)
    ensures |GetData(p, frames).result| == |p.samples| % p.channels < p.channels
  {
    SpanWithin(p.offset, |p.samples|, p.channels);
  }

  /** From a fresh cursor the drained blocks put together are the whole buffer. */
  lemma DrainFromStart(p: Player, frames: u32)
    requires p.channels > 0 && p.offset == 0 && frames > 0
    ensures Joined(Drain(p, frames)) == p.samples
  {
    DrainJoined(p, frames);
    assert Span(0, p.channels) == 0;
  }

  /** Start playing a buffer: it replaces the samples, and the cursor stays where it was. */
  function Play(p: Player, samples: seq<u32>): (q: Player)
    ensures q.samples == samples && q.channels == p.channels && q.offset == p.offset
  {
    p.(samples := samples)
  }

  /**
   Playing keeps the cursor usable exactly when the new buffer still has
   at least `offset` whole frames; a shorter buffer leaves the cursor past
   its end, where the unsigned remaining-frame count would wrap.
   */
  lemma PlayValid(p: Player, samples: seq<u32>)
    requires p.channels > 0
    ensures Valid(Play(p, samples)) <==> p.offset <= |samples| / p.channels
  {
  }

  /**
   Playing the same buffer again after draining it does not start over:
   the next call hands out at most the trailing partial frame and reports
   that nothing more remains.
   */
  lemma ReplayAfterDrain(p: Player, frames: u32)
    requires Valid(p) && frames > 0
    ensures var calls := Drain(p, frames);
      var f := GetData(Play(calls[|calls| - 1].next, p.samples), frames);
      !f.more && |f.result| < p.channels
  {
    var calls := Drain(p, frames);
    var last := calls[|calls| - 1].next;
    assert Play(last, p.samples) == last;
    AtEndRepeats(last, frames);
  }

  /** Two frames of stereo, handed out one frame at a time, then an empty final call. */
  lemma ReferenceStereo()
    ensures var p := Play(New(2), [1, 2, 3, 4]);
      && GetData(p, 1) == Fetch(p.(offset := 1), [1, 2], true)
      && GetData(p.(offset := 1), 1) == Fetch(p.(offset := 2), [3, 4], false)
      && GetData(p.(offset := 2), 1) == Fetch(p.(offset := 2), [], false)
  {
    var p := Play(New(2), [1, 2, 3, 4]);
    assert p.samples[0..2] == [1, 2];
    assert p.samples[2..] == [3, 4];
    assert p.samples[4..] == [];
  }
}
