/**
 The stream decoder of a RIFF/WAVE file.

 It checks the "RIFF" code, reads the declared length, checks the "WAVE"
 form type and then walks the chunks until the cursor reaches the declared
 length. A `fmt ` chunk sets the format tag, channel count, sample rate and
 bit depth; a `data` chunk sets the frame count and converts the samples;
 any other chunk is skipped. The input is a byte sequence: a read that runs
 past its end is a `Truncated` error.

 `toFloat` stands for the host's float arithmetic: the IEEE-754 single (as
 a bit pattern) that the decoder's division stores for a PCM word. Its
 exact real value is `Samples.Normalized`.
 */
module Decoder {
  import opened Bytes
  import opened Samples
  import opened Riff
  import opened WavData

  /**
   The decoder's running state: the Wav under construction and the two
   locals the `fmt ` chunk sets (both 0 until one is read).
   */
  datatype State = State(formatTag: u16, bitsPerSample: u16, wav: Wav)

  const Initial: State := State(0, 0, Empty)

  /** What processing one chunk yields: how far the body was advanced over, and the new state. */
  datatype Step = Step(advance: nat, state: State)

  /** Only a `fmt ` chunk changes the tag, and it admits PCM and IEEE float alone. */
  predicate KnownTag(st: State) {
    st.formatTag == 0 || st.formatTag == WAVE_FORMAT_PCM || st.formatTag == WAVE_FORMAT_IEEE_FLOAT
  }

  /**
   The channel count as read from its two bytes. The bytes are not masked:
   a low byte of 0x80 or more is sign-extended as a `char`, which fills the
   high byte of the count with ones.
   */
  function ChannelsAsRead(lo: byte, hi: byte): (c: u16)
    ensures lo < 0x80 ==> c == lo as int + 0x100 * hi as int
    ensures lo >= 0x80 ==> c / 0x100 == 0xFF && c % 0x100 == lo
  {
    if lo >= 0x80 then 0xFF00 + lo else lo as int + 0x100 * hi as int
  }

  /** The channel count written as two little-endian bytes reads back unchanged exactly when its low byte is below 0x80 or its high byte is 0xFF. */
  lemma ChannelsRoundTrip(c: u16)
    ensures var b := LeBytes(c, 2);
      ChannelsAsRead(b[0], b[1]) == c <==> c % 0x100 < 0x80 || c / 0x100 == 0xFF
  {
    var b := LeBytes(c, 2);
    assert b[1..] == LeBytes(c / 0x100, 1);
    assert b[0] == c % 0x100;
    assert b[1] == c / 0x100 % 0x100;
  }

  /** The 32-bit word the decoder stores for one sample word of a supported format. */
  function SampleValue(formatTag: u16, bits: u16, word: seq<byte>, toFloat: Pcm -> u32): u32
    requires Supported(formatTag, bits) && |word| == bits / 8
  {
    if formatTag == WAVE_FORMAT_IEEE_FLOAT then U32At(word, 0)
    else toFloat(Pcm(bits, RawPcm(bits, word)))
  }

  /** Word `i` of a run of `count = total / width` words lies inside the run. */
  lemma WordInside(i: nat, width: nat, total: nat)
    requires width > 0 && i < total / width
    ensures (i + 1) * width <= total
  {
    var count := total / width;
    assert count * width <= total;
    assert (i + 1) * width <= count * width by {
      assert i + 1 <= count;
    }
  }

  /** Sample word `i` of a data chunk body, `width` bytes wide. */
  function WordAt(data: seq<byte>, width: nat, i: nat): (w: seq<byte>)
    requires width > 0 && i < |data| / width
    ensures i * width + width <= |data|
    ensures w == data[i * width..i * width + width]
  {
    WordInside(i, width, |data|);
    assert (i + 1) * width == i * width + width;
    data[i * width..i * width + width]
  }

  /** How many of `count` samples make whole frames of `channels`: the ones the decoder converts. */
  function Filled(count: nat, channels: nat): (n: nat)
    requires channels > 0
    ensures n <= count < n + channels
    ensures n % channels == 0
  {
    assert count == count / channels * channels + count % channels;
    DivUnique(count / channels * channels, channels, count / channels, 0);
    count / channels * channels
  }

  /** A positive multiple of a positive number is at least that number. */
  lemma MulAtLeast(k: int, c: int)
    requires k >= 1 && c > 0
    ensures k * c >= c
  {
    assert k * c == (k - 1) * c + c;
  }

  /** Quotient and remainder are the unique ones. */
  lemma DivUnique(n: int, c: int, q: int, r: int)
    requires c > 0 && 0 <= r < c && n == q * c + r
    ensures n / c == q && n % c == r
  {
    var q', r' := n / c, n % c;
    assert n == q' * c + r';
    if q' < q {
      MulAtLeast(q - q', c);
    } else if q' > q {
      MulAtLeast(q' - q, c);
    }
  }

  /** A whole number of frames fills exactly its samples. */
  lemma FilledFrames(frames: nat, channels: nat)
    requires channels > 0
    ensures (frames * channels) / channels == frames
    ensures Filled(frames * channels, channels) == frames * channels
  {
    DivUnique(frames * channels, channels, frames, 0);
  }

  /** Entry `i` of a `data` chunk's samples: converted inside whole frames, else the old entry or +0.0. */
  function DataSample(formatTag: u16, bits: u16, channels: u16, data: seq<byte>, previous: seq<u32>, toFloat: Pcm -> u32, i: nat): (v: u32)
    requires Supported(formatTag, bits) && channels >= 1 && i < |data| / (bits / 8)
    ensures i < Filled(|data| / (bits / 8), channels) ==> v == SampleValue(formatTag, bits, WordAt(data, bits / 8, i), toFloat)
    ensures i >= Filled(|data| / (bits / 8), channels) ==> v == if i < |previous| then previous[i] else 0
  {
    if i < Filled(|data| / (bits / 8), channels) then SampleValue(formatTag, bits, WordAt(data, bits / 8, i), toFloat)
    else if i < |previous| then previous[i]
    else 0
  }

  /**
   The samples after a `data` chunk: the buffer is resized to
   `|data| / width` words; the first `frames * channels` of them are
   converted, and the rest keep what the buffer held before at that index,
   or +0.0 where it was shorter.
   */
  function ConvertData(formatTag: u16, bits: u16, channels: u16, data: seq<byte>, previous: seq<u32>, toFloat: Pcm -> u32): (s: seq<u32>)
    requires Supported(formatTag, bits) && channels >= 1
    ensures |s| == |data| / (bits / 8)
    ensures forall i | 0 <= i < |s| :: s[i] == DataSample(formatTag, bits, channels, data, previous, toFloat, i)
  {
    var count := |data| / (bits / 8);
    seq(count, i requires 0 <= i < count => DataSample(formatTag, bits, channels, data, previous, toFloat, i))
  }

  /** A sample of a frame before the last one lies inside the frames. */
  lemma FrameIndexInside(frame: nat, channel: nat, frames: nat, channels: nat)
    requires frame < frames && channel < channels
    ensures frame * channels + channel < frames * channels
  {
    assert frames * channels == (frame + 1) * channels + (frames - frame - 1) * channels;
  }

  /**
   The conversion as the source's nested loops write it: for every whole
   frame and every channel in it, sample `frame * channels + channel` is the
   word at that index of the chunk, converted.
   */
  lemma ConvertDataLoops(formatTag: u16, bits: u16, channels: u16, data: seq<byte>, previous: seq<u32>, toFloat: Pcm -> u32,
                         frame: nat, channel: nat)
    requires Supported(formatTag, bits) && channels >= 1
    requires frame < (|data| / (bits / 8)) / channels && channel < channels
    ensures var s, i := ConvertData(formatTag, bits, channels, data, previous, toFloat), frame * channels + channel;
      && i < (|data| / (bits / 8)) / channels * channels <= |s|
      && s[i] == SampleValue(formatTag, bits, WordAt(data, bits / 8, i), toFloat)
  {
    FrameIndexInside(frame, channel, (|data| / (bits / 8)) / channels, channels);
  }

  /**
   The resize before the loops: past the whole frames, up to the new size,
   an entry keeps what the buffer held at that index, or is +0.0 where the
   buffer was shorter.
   */
  lemma ConvertDataResized(formatTag: u16, bits: u16, channels: u16, data: seq<byte>, previous: seq<u32>, toFloat: Pcm -> u32, i: nat)
    requires Supported(formatTag, bits) && channels >= 1
    requires (|data| / (bits / 8)) / channels * channels <= i < |data| / (bits / 8)
    ensures var s := ConvertData(formatTag, bits, channels, data, previous, toFloat);
      i < |s| && s[i] == if i < |previous| then previous[i] else 0
  {
  }

  /** The `fmt ` chunk whose body starts at `body`: tag, channels, rate, two skipped fields, bit depth; the cursor advances 16 bytes whatever the declared size. */
  function FmtChunk(input: seq<byte>, body: nat, st: State): (r: Result<Step>)
    ensures r.Ok? <==>
      body + 16 <= |input| && (U16At(input, body) == WAVE_FORMAT_PCM || U16At(input, body) == WAVE_FORMAT_IEEE_FLOAT)
    ensures r.Ok? ==> r.value.advance == 16
    ensures r.Ok? ==> r.value.state.formatTag == U16At(input, body)
    ensures r.Ok? ==> r.value.state.formatTag == WAVE_FORMAT_PCM || r.value.state.formatTag == WAVE_FORMAT_IEEE_FLOAT
    ensures r.Ok? ==> r.value.state.wav.channels == ChannelsAsRead(input[body + 2], input[body + 3])
    ensures r.Ok? ==> r.value.state.wav.sampleRate == U32At(input, body + 4)
    ensures r.Ok? ==> r.value.state.bitsPerSample == U16At(input, body + 14)
    ensures r.Ok? ==> r.value.state.wav.frames == st.wav.frames && r.value.state.wav.samples == st.wav.samples
    ensures r == Err(UnsupportedFormat) <==>
      body + 2 <= |input| && U16At(input, body) != WAVE_FORMAT_PCM && U16At(input, body) != WAVE_FORMAT_IEEE_FLOAT
    ensures r.Err? ==> r.error == UnsupportedFormat || r.error == Truncated
  {
    if |input| < body + 2 then Err(Truncated)
    else
      var formatTag := U16At(input, body);
      if formatTag != WAVE_FORMAT_PCM && formatTag != WAVE_FORMAT_IEEE_FLOAT then Err(UnsupportedFormat)
      else if |input| < body + 16 then Err(Truncated)
      else
        var channels := ChannelsAsRead(input[body + 2], input[body + 3]);
        var sampleRate := U32At(input, body + 4);
        var bits := U16At(input, body + 14);
        Ok(Step(16, State(formatTag, bits, st.wav.(channels := channels, sampleRate := sampleRate))))
  }

  /**
   The `data` chunk of `size` bytes whose body starts at `body`. It needs a
   preceding `fmt ` chunk with a whole-byte depth and at least one channel
   (the source divides by both), and a supported tag and depth.
   */
  function DataChunk(input: seq<byte>, body: nat, size: u32, st: State, toFloat: Pcm -> u32): (r: Result<Step>)
    ensures r.Ok? <==>
      && body + size <= |input| && st.formatTag != 0 && st.bitsPerSample >= 8
      && st.wav.channels >= 1 && Supported(st.formatTag, st.bitsPerSample)
    ensures r == Err(Truncated) <==> |input| < body + size
    ensures r == Err(MissingFormat) <==> body + size <= |input| && st.formatTag == 0
    ensures r == Err(UnsupportedBitDepth) <==>
      && body + size <= |input| && st.formatTag != 0
      && (st.bitsPerSample < 8 || (st.wav.channels >= 1 && !Supported(st.formatTag, st.bitsPerSample)))
    ensures r == Err(InvalidChannelCount) <==>
      body + size <= |input| && st.formatTag != 0 && st.bitsPerSample >= 8 && st.wav.channels == 0
    ensures r.Ok? ==> r.value.advance == size
    ensures r.Ok? ==> var w := r.value.state.wav;
      && |w.samples| == size / (st.bitsPerSample / 8)
      && w.frames == |w.samples| / st.wav.channels
      && w.samples == ConvertData(st.formatTag, st.bitsPerSample, st.wav.channels, input[body..body + size], st.wav.samples, toFloat)
    ensures r.Ok? ==> var s := r.value.state;
      && s.formatTag == st.formatTag && s.bitsPerSample == st.bitsPerSample
      && s.wav.channels == st.wav.channels && s.wav.sampleRate == st.wav.sampleRate
    ensures r.Err? ==> r.error in {Truncated, MissingFormat, UnsupportedBitDepth, InvalidChannelCount}
  {
    if |input| < body + size then Err(Truncated)
    else if st.formatTag == 0 then Err(MissingFormat)
    else if st.bitsPerSample / 8 == 0 then Err(UnsupportedBitDepth)
    else if st.wav.channels == 0 then Err(InvalidChannelCount)
    else if !Supported(st.formatTag, st.bitsPerSample) then Err(UnsupportedBitDepth)
    else
      var count := size / (st.bitsPerSample / 8);
      var frames := count / st.wav.channels;
      var samples := ConvertData(st.formatTag, st.bitsPerSample, st.wav.channels, input[body..body + size], st.wav.samples, toFloat);
      Ok(Step(size, st.(wav := st.wav.(frames := frames, samples := samples))))
  }

  /** The chunk whose header is at absolute position `pos`: dispatch on its code. */
  function Chunk(input: seq<byte>, pos: nat, st: State, toFloat: Pcm -> u32): (r: Result<Step>)
    requires pos + CHUNK_HEADER_SIZE <= |input|
    ensures input[pos..pos + 4] != FMT_ID && input[pos..pos + 4] != DATA_ID ==>
      r == Ok(Step(U32At(input, pos + 4), st))
    ensures input[pos..pos + 4] == FMT_ID ==> r == FmtChunk(input, pos + 8, st)
    ensures input[pos..pos + 4] == DATA_ID ==> r == DataChunk(input, pos + 8, U32At(input, pos + 4), st, toFloat)
  {
    var id := input[pos..pos + 4];
    var size := U32At(input, pos + 4);
    if id == FMT_ID then FmtChunk(input, pos + 8, st)
    else if id == DATA_ID then DataChunk(input, pos + 8, size, st, toFloat)
    else Ok(Step(size, st))
  }

  /**
   The chunk walk from cursor `offset` until it reaches the declared
   `length`. The cursor strictly increases, so the walk ends.
   */
  function Walk(input: seq<byte>, length: u32, offset: nat, st: State, toFloat: Pcm -> u32): (r: Result<State>)
    ensures offset >= length ==> r == Ok(st)
    ensures KnownTag(st) && r.Ok? ==> KnownTag(r.value)
    ensures r.Err? ==> r.error in {UnsupportedFormat, UnsupportedBitDepth, MissingFormat, InvalidChannelCount, Truncated}
    decreases length - offset
  {
    if offset >= length then Ok(st)
    else
      var pos := Position(offset);
      if |input| < pos + CHUNK_HEADER_SIZE then Err(Truncated)
      else
        var step :- Chunk(input, pos, st, toFloat);
        Walk(input, length, NextOffset(offset, step.advance), step.state, toFloat)
  }

  /** Decode a whole file. */
  function Decode(input: seq<byte>, toFloat: Pcm -> u32): (r: Result<Wav>)
    ensures |input| < 4 ==> r == Err(Truncated)
    ensures r == Err(NotRiff) <==> |input| >= 4 && input[..4] != RIFF_ID
    ensures r == Err(NotWave) <==> |input| >= 12 && input[..4] == RIFF_ID && input[8..12] != WAVE_ID
    ensures r.Ok? ==> |input| >= 12 && input[..4] == RIFF_ID && input[8..12] == WAVE_ID
    ensures |input| >= 12 && input[..4] == RIFF_ID && input[8..12] == WAVE_ID && U32At(input, 4) <= FIRST_CHUNK ==>
      r == Ok(Empty)
  {
    if |input| < 4 then Err(Truncated)
    else if input[..4] != RIFF_ID then Err(NotRiff)
    else if |input| < 12 then Err(Truncated)
    else if input[8..12] != WAVE_ID then Err(NotWave)
    else
      var st :- Walk(input, U32At(input, 4), FIRST_CHUNK, Initial, toFloat);
      Ok(st.wav)
  }

  /** `longer` holds the bytes of `input` from position `from` on, `k` positions later. */
  predicate ShiftedFrom(longer: seq<byte>, input: seq<byte>, from: nat, k: nat) {
    |longer| == |input| + k && from <= |input| && longer[from + k..] == input[from..]
  }

  /** A slice of the shifted part is the same in both streams. */
  lemma SliceShifted(longer: seq<byte>, input: seq<byte>, from: nat, k: nat, a: nat, b: nat)
    requires ShiftedFrom(longer, input, from, k) && from <= a <= b <= |input|
    ensures longer[a + k..b + k] == input[a..b]
  {
    var moved, kept, tail := longer[a + k..b + k], input[a..b], input[from..];
    forall j | 0 <= j < b - a
      ensures moved[j] == kept[j]
    {
      assert moved[j] == longer[from + k..][a - from + j];
      assert kept[j] == tail[a - from + j];
    }
  }

  /** A `fmt ` chunk reads only its own body, so it decodes the same wherever it sits. */
  lemma FmtChunkShifted(longer: seq<byte>, input: seq<byte>, from: nat, k: nat, body: nat, st: State)
    requires ShiftedFrom(longer, input, from, k) && from <= body
    ensures FmtChunk(longer, body + k, st) == FmtChunk(input, body, st)
  {
  }

  /** A `data` chunk reads only its own body, so it decodes the same wherever it sits. */
  lemma DataChunkShifted(longer: seq<byte>, input: seq<byte>, from: nat, k: nat, body: nat, size: u32, st: State, toFloat: Pcm -> u32)
    requires ShiftedFrom(longer, input, from, k) && from <= body
    ensures DataChunk(longer, body + k, size, st, toFloat) == DataChunk(input, body, size, st, toFloat)
  {
    if body + size <= |input| {
      SliceShifted(longer, input, from, k, body, body + size);
    }
  }

  /** A chunk header reads the same code and size wherever it sits. */
  lemma HeaderShifted(longer: seq<byte>, input: seq<byte>, from: nat, k: nat, pos: nat)
    requires ShiftedFrom(longer, input, from, k) && from <= pos && pos + CHUNK_HEADER_SIZE <= |input|
    ensures longer[pos + k..pos + k + 4] == input[pos..pos + 4]
    ensures U32At(longer, pos + k + 4) == U32At(input, pos + 4)
  {
    SliceShifted(longer, input, from, k, pos, pos + 4);
    SliceShifted(longer, input, from, k, pos + 4, pos + CHUNK_HEADER_SIZE);
    var moved, kept := longer[pos + k + 4..pos + k + 8], input[pos + 4..pos + 8];
    assert longer[pos + k + 4] == moved[0] == kept[0] == input[pos + 4];
    assert longer[pos + k + 5] == moved[1] == kept[1] == input[pos + 5];
    assert longer[pos + k + 6] == moved[2] == kept[2] == input[pos + 6];
    assert longer[pos + k + 7] == moved[3] == kept[3] == input[pos + 7];
  }

  /** Any chunk decodes the same wherever it sits. */
  lemma ChunkShifted(longer: seq<byte>, input: seq<byte>, from: nat, k: nat, pos: nat, st: State, toFloat: Pcm -> u32)
    requires ShiftedFrom(longer, input, from, k) && from <= pos && pos + CHUNK_HEADER_SIZE <= |input|
    ensures Chunk(longer, pos + k, st, toFloat) == Chunk(input, pos, st, toFloat)
  {
    HeaderShifted(longer, input, from, k, pos);
    var id := input[pos..pos + 4];
    if id == FMT_ID {
      FmtChunkShifted(longer, input, from, k, pos + 8, st);
    } else if id == DATA_ID {
      DataChunkShifted(longer, input, from, k, pos + 8, U32At(input, pos + 4), st, toFloat);
    }
  }

  /** A walk that has not reached its declared length stops with `Truncated` where no chunk header fits. */
  lemma WalkTruncated(input: seq<byte>, length: u32, offset: nat, st: State, toFloat: Pcm -> u32)
    requires offset < length && |input| < Position(offset) + CHUNK_HEADER_SIZE
    ensures Walk(input, length, offset, st, toFloat) == Err(Truncated)
  {
  }

  /** A chunk that fails stops the walk with its error. */
  lemma WalkStopsAtError(input: seq<byte>, length: u32, offset: nat, st: State, toFloat: Pcm -> u32, e: WavError)
    requires offset < length && Position(offset) + CHUNK_HEADER_SIZE <= |input|
    requires Chunk(input, Position(offset), st, toFloat) == Err(e)
    ensures Walk(input, length, offset, st, toFloat) == Err(e)
  {
  }

  /** One step of the walk: after a chunk read successfully, the walk goes on past it with the new state. */
  lemma WalkStep(input: seq<byte>, length: u32, offset: nat, st: State, toFloat: Pcm -> u32, step: Step, next: nat, w: Result<State>)
    requires offset < length && Position(offset) + CHUNK_HEADER_SIZE <= |input|
    requires Chunk(input, Position(offset), st, toFloat) == Ok(step) && next == NextOffset(offset, step.advance)
    requires Walk(input, length, next, step.state, toFloat) == w
    ensures Walk(input, length, offset, st, toFloat) == w
  {
  }

  /** Every chunk at or after `from` reads the same in `longer`, `k` bytes later. */
  ghost predicate ChunksShifted(longer: seq<byte>, input: seq<byte>, from: nat, k: nat, toFloat: Pcm -> u32) {
    && |longer| == |input| + k
    && forall pos: nat, st: State | from <= pos && pos + CHUNK_HEADER_SIZE <= |input| ::
         Chunk(longer, pos + k, st, toFloat) == Chunk(input, pos, st, toFloat)
  }

  /** A stream moved `k` bytes later moves every chunk with it. */
  lemma ShiftedChunks(longer: seq<byte>, input: seq<byte>, from: nat, k: nat, toFloat: Pcm -> u32)
    requires ShiftedFrom(longer, input, from, k)
    ensures ChunksShifted(longer, input, from, k, toFloat)
  {
    forall pos: nat, st: State | from <= pos && pos + CHUNK_HEADER_SIZE <= |input|
      ensures Chunk(longer, pos + k, st, toFloat) == Chunk(input, pos, st, toFloat)
    {
      ChunkShifted(longer, input, from, k, pos, st, toFloat);
    }
  }

  /** The chunk at `pos` read through ChunksShifted, at the moved position `longerPos`. */
  lemma ChunkAtShifted(longer: seq<byte>, input: seq<byte>, from: nat, k: nat, toFloat: Pcm -> u32,
                       pos: nat, longerPos: nat, st: State)
    requires ChunksShifted(longer, input, from, k, toFloat)
    requires from <= pos && pos + CHUNK_HEADER_SIZE <= |input| && longerPos == pos + k
    ensures longerPos + CHUNK_HEADER_SIZE <= |longer|
    ensures Chunk(longer, longerPos, st, toFloat) == Chunk(input, pos, st, toFloat)
  {
  }

  /**
   The walk over a stream moved `k` bytes later, an even number, with the
   declared length and the cursor moved with it, is the walk over the
   original: the cursor's padding depends only on its parity.
   */
  lemma {:induction false} WalkShifted(longer: seq<byte>, input: seq<byte>, from: nat, k: nat,
                                       longerLength: u32, length: u32, longerOffset: nat, offset: nat,
                                       st: State, toFloat: Pcm -> u32)
    requires ChunksShifted(longer, input, from, k, toFloat) && from <= Position(offset) && k % 2 == 0
    requires longerLength == length + k && longerOffset == offset + k
    ensures Walk(longer, longerLength, longerOffset, st, toFloat) == Walk(input, length, offset, st, toFloat)
    decreases length - offset
  {
    if offset >= length {
    } else if |input| < Position(offset) + CHUNK_HEADER_SIZE {
      WalkTruncated(input, length, offset, st, toFloat);
      WalkTruncated(longer, longerLength, longerOffset, st, toFloat);
    } else {
      var r := Chunk(input, Position(offset), st, toFloat);
      ChunkAtShifted(longer, input, from, k, toFloat, Position(offset), Position(longerOffset), st);
      if r.Ok? {
        var next, longerNext := NextOffset(offset, r.value.advance), NextOffset(longerOffset, r.value.advance);
        NextOffsetShift(offset, k, r.value.advance);
        assert from <= Position(next) && longerNext == next + k;
        WalkShifted(longer, input, from, k, longerLength, length, longerNext, next, r.value.state, toFloat);
        var w := Walk(input, length, next, r.value.state, toFloat);
        WalkStep(input, length, offset, st, toFloat, r.value, next, w);
        WalkStep(longer, longerLength, longerOffset, st, toFloat, r.value, longerNext, w);
      } else {
        WalkStopsAtError(input, length, offset, st, toFloat, r.error);
        WalkStopsAtError(longer, longerLength, longerOffset, st, toFloat, r.error);
      }
    }
  }

  /** Inserting `chunk` at position `p` moves everything from `p` on by its length. */
  lemma InsertedShifts(input: seq<byte>, p: nat, chunk: seq<byte>)
    requires p <= |input|
    ensures ShiftedFrom(input[..p] + chunk + input[p..], input, p, |chunk|)
  {
    var longer := input[..p] + chunk + input[p..];
    assert longer[p + |chunk|..] == input[p..];
  }

  /** An inserted chunk with an unknown code is read as a skip of its declared size. */
  lemma InsertedChunkSkipped(input: seq<byte>, p: nat, chunk: seq<byte>, st: State, toFloat: Pcm -> u32)
    requires p <= |input|
    requires |chunk| >= CHUNK_HEADER_SIZE && chunk[..4] != FMT_ID && chunk[..4] != DATA_ID
    ensures p + CHUNK_HEADER_SIZE <= |input[..p] + chunk + input[p..]|
    ensures Chunk(input[..p] + chunk + input[p..], p, st, toFloat) == Ok(Step(U32At(chunk, 4), st))
  {
    var longer := input[..p] + chunk + input[p..];
    assert longer[p..p + 4] == chunk[..4];
    assert forall j | 4 <= j < 8 :: longer[p + j] == chunk[j];
  }

  /**
   When the chunk at the cursor of `longer` is a skip of `k` bytes and
   everything after it is `input` moved `k` bytes later, the walk of
   `longer` is the walk of `input`.
   */
  lemma SkipChunkAt(longer: seq<byte>, input: seq<byte>, k: nat, longerLength: u32, length: u32, offset: nat,
                    st: State, toFloat: Pcm -> u32, size: u32)
    requires ShiftedFrom(longer, input, Position(offset), k) && k % 2 == 0
    requires longerLength == length + k && offset < longerLength
    requires Position(offset) + CHUNK_HEADER_SIZE <= |longer|
    requires Chunk(longer, Position(offset), st, toFloat) == Ok(Step(size, st)) && NextOffset(offset, size) == offset + k
    ensures Walk(longer, longerLength, offset, st, toFloat) == Walk(input, length, offset, st, toFloat)
  {
    var after := offset + k;
    var w := Walk(input, length, offset, st, toFloat);
    ShiftedChunks(longer, input, Position(offset), k, toFloat);
    WalkShifted(longer, input, Position(offset), k, longerLength, length, after, offset, st, toFloat);
    WalkStep(longer, longerLength, offset, st, toFloat, Step(size, st), after, w);
  }

  /**
   An unknown chunk inserted at an even cursor, with the declared length
   grown by its padded size, changes nothing: the walk skips it and then
   decodes the rest exactly as it would have without it.
   */
  /** SkipUnknownChunk with the longer stream and its declared length named. */
  lemma SkipInsertedChunk(input: seq<byte>, length: u32, offset: nat, st: State, toFloat: Pcm -> u32,
                          chunk: seq<byte>, longer: seq<byte>, longerLength: u32)
    requires offset % 2 == 0 && Position(offset) <= |input|
    requires |chunk| >= CHUNK_HEADER_SIZE && chunk[..4] != FMT_ID && chunk[..4] != DATA_ID
    requires |chunk| == NextOffset(0, U32At(chunk, 4))
    requires longer == input[..Position(offset)] + chunk + input[Position(offset)..]
    requires longerLength == length + |chunk|
    ensures Walk(longer, longerLength, offset, st, toFloat) == Walk(input, length, offset, st, toFloat)
  {
    if offset < longerLength {
      var p := Position(offset);
      InsertedShifts(input, p, chunk);
      InsertedChunkSkipped(input, p, chunk, st, toFloat);
      NextOffsetFrom(offset, U32At(chunk, 4));
      SkipChunkAt(longer, input, |chunk|, longerLength, length, offset, st, toFloat, U32At(chunk, 4));
    }
  }

  /**
   * An unknown chunk inserted at an even cursor, with the declared length
   * grown by its padded size, is skipped and leaves the walk's result unchanged.
   */
  lemma SkipUnknownChunk(input: seq<byte>, length: u32, offset: nat, st: State, toFloat: Pcm -> u32, chunk: seq<byte>)
    requires offset % 2 == 0 && Position(offset) <= |input|
    requires |chunk| >= CHUNK_HEADER_SIZE && chunk[..4] != FMT_ID && chunk[..4] != DATA_ID
    requires |chunk| == NextOffset(0, U32At(chunk, 4))
    requires length + |chunk| < U32_LIMIT
    ensures var p := Position(offset);
      Walk(input[..p] + chunk + input[p..], length + |chunk|, offset, st, toFloat) == Walk(input, length, offset, st, toFloat)
  {
    var p := Position(offset);
    SkipInsertedChunk(input, length, offset, st, toFloat, chunk, input[..p] + chunk + input[p..], length + |chunk|);
  }
}
