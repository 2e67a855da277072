/**
 The encoder: it always writes three chunks, a RIFF header with the
 "WAVE" form type, a 16-byte `fmt ` chunk for 32-bit IEEE float (format
 tag 3), and a `data` chunk holding each sample's 32-bit pattern. All
 integers are little-endian, each written as the low bytes of the value.
 */
module Encoder {
  import opened Bytes
  import opened Samples
  import opened Riff
  import opened WavData
  import opened Decoder

  const SAMPLE_SIZE: nat := 4
  const FMT_CHUNK_SIZE: nat := 16
  const FLOAT_BITS: nat := 32

  /** Everything before the sample words: RIFF header, `fmt ` chunk, `data` header. */
  const HEADER_SIZE: nat := 44

  /**
   What the encoder needs to stay inside its buffers: it writes
   `frames * channels` words into a buffer of `|samples|` words, whose byte
   size must fit the 32-bit size field.
   */
  predicate Encodable(w: Wav) {
    w.frames * w.channels <= |w.samples| && SAMPLE_SIZE * |w.samples| < U32_LIMIT
  }

  /** The size of the `data` chunk body. */
  function DataSize(w: Wav): u32
    requires Encodable(w)
  {
    SAMPLE_SIZE * |w.samples|
  }

  /** The RIFF length the encoder declares: 4 + 4 + 16 + 4 + data size, one chunk header short of the bytes that follow. */
  function DeclaredLengthAsWritten(w: Wav): u32
    requires Encodable(w)
  {
    (4 + 4 + FMT_CHUNK_SIZE + 4 + DataSize(w)) % U32_LIMIT
  }

  /** The RIFF length of the three chunks: the form type, both chunk headers and both bodies. */
  function DeclaredLength(w: Wav): nat
    requires Encodable(w)
  {
    4 + CHUNK_HEADER_SIZE + FMT_CHUNK_SIZE + CHUNK_HEADER_SIZE + DataSize(w)
  }

  /**
   The words the encoder writes: the buffer starts as `|samples|` zero
   words and the frame loop fills the first `frames * channels` of them.
   */
  function WrittenWords(w: Wav): (ws: seq<u32>)
    requires Encodable(w)
    ensures |ws| == |w.samples|
    ensures |w.samples| == w.frames * w.channels ==> ws == w.samples
    ensures forall i | 0 <= i < w.frames * w.channels :: ws[i] == w.samples[i]
    ensures forall i | w.frames * w.channels <= i < |ws| :: ws[i] == 0
  {
    seq(|w.samples|, i requires 0 <= i < |w.samples| => if i < w.frames * w.channels then w.samples[i] else 0)
  }

  /** The value as a reader of what the encoder writes sees it: a trailing partial frame is zeroed. */
  function WrittenValue(w: Wav): Wav
    requires Encodable(w)
  {
    w.(samples := WrittenWords(w))
  }

  /** The words as consecutive 4-byte little-endian groups. */
  function Words(ws: seq<u32>): (b: seq<byte>)
    ensures |b| == SAMPLE_SIZE * |ws|
  {
    if |ws| == 0 then [] else LeBytes(ws[0], 4) + Words(ws[1..])
  }

  /** Group `i` of the bytes is word `i`. */
  lemma {:induction false} WordsAt(ws: seq<u32>, i: nat)
    requires i < |ws|
    ensures 4 * i + 4 <= |Words(ws)| && Words(ws)[4 * i..4 * i + 4] == LeBytes(ws[i], 4)
  {
    if i > 0 {
      WordsAt(ws[1..], i - 1);
      assert Words(ws) == LeBytes(ws[0], 4) + Words(ws[1..]);
      assert Words(ws)[4 * i..4 * i + 4] == Words(ws[1..])[4 * (i - 1)..4 * (i - 1) + 4];
    }
  }

  /** The `fmt ` body: tag, channels, rate, byte rate, block align, bit depth, each truncated to its field width. */
  function FmtBody(w: Wav): (b: seq<byte>)
    ensures |b| == FMT_CHUNK_SIZE
  {
    var byteRate := (SAMPLE_SIZE * w.channels * w.sampleRate) % U32_LIMIT;
    var blockAlign := (SAMPLE_SIZE * w.channels) % U16_LIMIT;
    LeBytes(WAVE_FORMAT_IEEE_FLOAT, 2) + LeBytes(w.channels, 2) + LeBytes(w.sampleRate, 4)
      + LeBytes(byteRate, 4) + LeBytes(blockAlign, 2) + LeBytes(FLOAT_BITS, 2)
  }

  /** The fields of the `fmt ` body as a reader sees them. */
  lemma FmtBodyFields(w: Wav)
    ensures var b := FmtBody(w);
      && U16At(b, 0) == WAVE_FORMAT_IEEE_FLOAT
      && b[2..4] == LeBytes(w.channels, 2)
      && U32At(b, 4) == w.sampleRate
      && U32At(b, 8) == (SAMPLE_SIZE * w.channels * w.sampleRate) % U32_LIMIT
      && U16At(b, 12) == (SAMPLE_SIZE * w.channels) % U16_LIMIT
      && U16At(b, 14) == FLOAT_BITS
  {
    var b := FmtBody(w);
    U16RoundTrip(WAVE_FORMAT_IEEE_FLOAT, b, 0);
    U32RoundTrip(w.sampleRate, b, 4);
    U32RoundTrip((SAMPLE_SIZE * w.channels * w.sampleRate) % U32_LIMIT, b, 8);
    U16RoundTrip((SAMPLE_SIZE * w.channels) % U16_LIMIT, b, 12);
    U16RoundTrip(FLOAT_BITS, b, 14);
  }

  /** The RIFF header: code, declared length, form type. */
  function RiffHeader(riffLength: u32): (b: seq<byte>)
    ensures |b| == 12
  {
    RIFF_ID + LeBytes(riffLength, 4) + WAVE_ID
  }

  /** The `fmt ` chunk: code, size 16, body. */
  function FmtChunkBytes(w: Wav): (b: seq<byte>)
    ensures |b| == CHUNK_HEADER_SIZE + FMT_CHUNK_SIZE
  {
    FMT_ID + LeBytes(FMT_CHUNK_SIZE, 4) + FmtBody(w)
  }

  /** The `data` chunk: code, size, sample words. */
  function DataChunkBytes(w: Wav): (b: seq<byte>)
    requires Encodable(w)
    ensures |b| == CHUNK_HEADER_SIZE + DataSize(w)
  {
    DATA_ID + LeBytes(DataSize(w), 4) + Words(WrittenWords(w))
  }

  /** The whole file for a given declared RIFF length. */
  function Encode(w: Wav, riffLength: u32): (b: seq<byte>)
    requires Encodable(w)
    ensures |b| == HEADER_SIZE + DataSize(w) == CHUNK_HEADER_SIZE + DeclaredLength(w)
  {
    RiffHeader(riffLength) + FmtChunkBytes(w) + DataChunkBytes(w)
  }

  /** The code and size of a chunk header written for `id` and `size` read back as written. */
  lemma HeaderFields(id: seq<byte>, size: u32, rest: seq<byte>)
    requires |id| == 4
    ensures var b := id + LeBytes(size, 4) + rest;
      b[..4] == id && U32At(b, 4) == size && b[8..] == rest
  {
    var b := id + LeBytes(size, 4) + rest;
    assert b[4..8] == LeBytes(size, 4);
    U32RoundTrip(size, b, 4);
  }

  /** Where each piece of the file sits, and what a reader gets back from it. */
  lemma EncodeLayout(w: Wav, riffLength: u32)
    requires Encodable(w)
    ensures var b := Encode(w, riffLength);
      && b[..4] == RIFF_ID && U32At(b, 4) == riffLength && b[8..12] == WAVE_ID
      && b[12..16] == FMT_ID && U32At(b, 16) == FMT_CHUNK_SIZE
      && b[20..36] == FmtBody(w)
      && b[36..40] == DATA_ID && U32At(b, 40) == DataSize(w)
      && b[HEADER_SIZE..] == Words(WrittenWords(w))
  {
    var b := Encode(w, riffLength);
    var h, f, d := RiffHeader(riffLength), FmtChunkBytes(w), DataChunkBytes(w);
    HeaderFields(RIFF_ID, riffLength, WAVE_ID);
    HeaderFields(FMT_ID, FMT_CHUNK_SIZE, FmtBody(w));
    HeaderFields(DATA_ID, DataSize(w), Words(WrittenWords(w)));
    assert b[..12] == h && b[12..36] == f && b[36..] == d;
    assert b[12..36][..4] == b[12..16];
    assert b[12..36][8..] == b[20..36];
    assert b[36..][..4] == b[36..40];
    assert b[36..][8..] == b[HEADER_SIZE..];
  }

  /** The file the encoder writes, with its declared length as written. */
  function Save(w: Wav): (b: seq<byte>)
    requires Encodable(w)
    ensures |b| == HEADER_SIZE + DataSize(w)
  {
    Encode(w, DeclaredLengthAsWritten(w))
  }

  /** The file with the RIFF length the container format prescribes. */
  function SaveCorrected(w: Wav): (b: seq<byte>)
    requires Encodable(w) && DeclaredLength(w) < U32_LIMIT
    ensures |b| == HEADER_SIZE + DataSize(w)
  {
    Encode(w, DeclaredLength(w))
  }

  /** The length `save` declares covers 8 bytes fewer than follow the length field. */
  lemma SaveDeclaresEightShort(w: Wav)
    requires Encodable(w) && DeclaredLength(w) < U32_LIMIT
    ensures U32At(Save(w), 4) + 8 == |Save(w)| - 8
  {
    EncodeLayout(w, DeclaredLengthAsWritten(w));
  }

  /** The corrected length is exactly the number of bytes after the length field. */
  lemma SaveCorrectedDeclaresRest(w: Wav)
    requires Encodable(w) && DeclaredLength(w) < U32_LIMIT
    ensures U32At(SaveCorrected(w), 4) == |SaveCorrected(w)| - 8
  {
    EncodeLayout(w, DeclaredLength(w));
  }

  /**
   The decoded `data` chunk of an encoded file holds the written words,
   when the frame count is the one the decoder derives: the words of the
   whole frames come back, and a trailing partial frame, written as zeros,
   reads back as zeros.
   */
  lemma DecodedWrittenWords(w: Wav, b: seq<byte>, toFloat: Pcm -> u32)
    requires Encodable(w) && w.channels >= 1 && w.frames == |w.samples| / w.channels
    requires b == Words(WrittenWords(w))
    ensures ConvertData(WAVE_FORMAT_IEEE_FLOAT, 32, w.channels, b, [], toFloat) == WrittenWords(w)
  {
    var s, ws := ConvertData(WAVE_FORMAT_IEEE_FLOAT, 32, w.channels, b, [], toFloat), WrittenWords(w);
    assert |s| == |ws|;
    assert Filled(|s|, w.channels) == w.frames * w.channels;
    forall i | 0 <= i < |s|
      ensures s[i] == ws[i]
    {
      if i < w.frames * w.channels {
        WordsAt(ws, i);
        LeValueOfBytes(ws[i], 4);
        assert WordAt(b, 4, i) == LeBytes(ws[i], 4);
        assert WordAt(b, 4, i)[0..4] == WordAt(b, 4, i);
      }
    }
  }

  /** The decoded `data` chunk of an encoded file of whole frames holds its samples. */
  lemma DecodedWords(w: Wav, b: seq<byte>, toFloat: Pcm -> u32)
    requires Encodable(w) && w.channels >= 1 && |w.samples| == w.frames * w.channels
    requires b == Words(w.samples)
    ensures ConvertData(WAVE_FORMAT_IEEE_FLOAT, 32, w.channels, b, [], toFloat) == w.samples
  {
    FilledFrames(w.frames, w.channels);
    DecodedWrittenWords(w, b, toFloat);
  }

  /** The decoder state after the `fmt ` chunk of an encoded file. */
  function FmtState(w: Wav): State {
    var c := LeBytes(w.channels, 2);
    State(WAVE_FORMAT_IEEE_FLOAT, FLOAT_BITS, Wav(ChannelsAsRead(c[0], c[1]), w.sampleRate, 0, []))
  }

  /** The first chunk of an encoded file is its `fmt ` chunk, read field by field. */
  lemma EncodedFmtStep(w: Wav, riffLength: u32, toFloat: Pcm -> u32)
    requires Encodable(w)
    ensures Chunk(Encode(w, riffLength), 12, Initial, toFloat) == Ok(Step(FMT_CHUNK_SIZE, FmtState(w)))
  {
    var b := Encode(w, riffLength);
    EncodeLayout(w, riffLength);
    FmtBodyFields(w);
    var fmt := b[20..36];
    assert U16At(b, 20) == U16At(fmt, 0) && U32At(b, 24) == U32At(fmt, 4) && U16At(b, 34) == U16At(fmt, 14);
    assert b[22] == fmt[2] && b[23] == fmt[3];
  }

  /**
   The second chunk is the `data` chunk; after a faithful `fmt ` it
   restores the frame count the decoder derives and the written words.
   */
  lemma EncodedWrittenDataStep(w: Wav, riffLength: u32, toFloat: Pcm -> u32)
    requires Encodable(w) && w.channels >= 1 && w.frames == |w.samples| / w.channels
    requires FmtState(w).wav.channels == w.channels
    ensures Chunk(Encode(w, riffLength), 36, FmtState(w), toFloat) == Ok(Step(DataSize(w), FmtState(w).(wav := WrittenValue(w))))
  {
    var b := Encode(w, riffLength);
    var size := DataSize(w);
    EncodeLayout(w, riffLength);
    assert b[44..44 + size] == Words(WrittenWords(w));
    DecodedWrittenWords(w, b[44..44 + size], toFloat);
  }

  /** The second chunk is the `data` chunk; after a faithful `fmt ` it restores frames and samples. */
  lemma EncodedDataStep(w: Wav, riffLength: u32, toFloat: Pcm -> u32)
    requires Encodable(w) && w.channels >= 1 && |w.samples| == w.frames * w.channels
    requires FmtState(w).wav.channels == w.channels
    ensures Chunk(Encode(w, riffLength), 36, FmtState(w), toFloat) == Ok(Step(DataSize(w), FmtState(w).(wav := w)))
  {
    FilledFrames(w.frames, w.channels);
    assert WrittenValue(w) == w;
    EncodedWrittenDataStep(w, riffLength, toFloat);
  }

  /** The walk of an encoded file from its first chunk goes on at cursor 28, after the `fmt ` chunk. */
  lemma WalkPastFmt(w: Wav, riffLength: u32, toFloat: Pcm -> u32)
    requires Encodable(w) && FIRST_CHUNK < riffLength
    ensures Walk(Encode(w, riffLength), riffLength, FIRST_CHUNK, Initial, toFloat)
         == Walk(Encode(w, riffLength), riffLength, 28, FmtState(w), toFloat)
  {
    EncodedFmtStep(w, riffLength, toFloat);
    assert NextOffset(FIRST_CHUNK, FMT_CHUNK_SIZE) == 28;
  }

  /**
   From cursor 28 the walk restores the written value, reading the `data`
   chunk when the declared length reaches it.
   */
  lemma WalkFromFmtWritten(w: Wav, riffLength: u32, toFloat: Pcm -> u32)
    requires Encodable(w) && w.channels >= 1 && w.frames == |w.samples| / w.channels
    requires FmtState(w).wav.channels == w.channels
    requires riffLength <= DeclaredLength(w)
    requires DataSize(w) > 0 ==> 28 < riffLength
    ensures Walk(Encode(w, riffLength), riffLength, 28, FmtState(w), toFloat) == Ok(FmtState(w).(wav := WrittenValue(w)))
  {
    var b := Encode(w, riffLength);
    var st1 := FmtState(w);
    if riffLength <= 28 {
      assert |w.samples| == 0 && w.frames == 0;
      assert st1.wav == WrittenValue(w);
    } else {
      EncodedWrittenDataStep(w, riffLength, toFloat);
      var st2 := st1.(wav := WrittenValue(w));
      assert NextOffset(28, DataSize(w)) == 36 + DataSize(w);
      assert Walk(b, riffLength, 36 + DataSize(w), st2, toFloat) == Ok(st2);
    }
  }

  /** From cursor 28 the walk restores the whole Wav, reading the `data` chunk when the declared length reaches it. */
  lemma WalkFromFmt(w: Wav, riffLength: u32, toFloat: Pcm -> u32)
    requires Encodable(w) && w.channels >= 1 && |w.samples| == w.frames * w.channels
    requires FmtState(w).wav.channels == w.channels
    requires riffLength <= DeclaredLength(w)
    requires DataSize(w) > 0 ==> 28 < riffLength
    ensures Walk(Encode(w, riffLength), riffLength, 28, FmtState(w), toFloat) == Ok(FmtState(w).(wav := w))
  {
    FilledFrames(w.frames, w.channels);
    assert WrittenValue(w) == w;
    WalkFromFmtWritten(w, riffLength, toFloat);
  }

  /**
   Decoding an encoded Wav gives it back, for any declared length from just
   past the first chunk header up to the true length that still reaches the
   `data` chunk when there are samples. The channel count must survive the
   decoder's unmasked read.
   */
  lemma DecodeEncoded(w: Wav, riffLength: u32, toFloat: Pcm -> u32)
    requires Encodable(w) && w.channels >= 1 && |w.samples| == w.frames * w.channels
    requires w.channels % 0x100 < 0x80
    requires FIRST_CHUNK < riffLength <= DeclaredLength(w)
    requires DataSize(w) > 0 ==> 28 < riffLength
    ensures Decode(Encode(w, riffLength), toFloat) == Ok(w)
  {
    FilledFrames(w.frames, w.channels);
    assert WrittenValue(w) == w;
    DecodeEncodedWritten(w, riffLength, toFloat);
  }

  /**
   Decoding an encoded Wav whose frame count is the one the decoder derives,
   `|samples| / channels`, gives back the written value: the same channels,
   rate, frames and sample count, with a trailing partial frame zeroed.
   */
  lemma DecodeEncodedWritten(w: Wav, riffLength: u32, toFloat: Pcm -> u32)
    requires Encodable(w) && w.channels >= 1 && w.frames == |w.samples| / w.channels
    requires w.channels % 0x100 < 0x80
    requires FIRST_CHUNK < riffLength <= DeclaredLength(w)
    requires DataSize(w) > 0 ==> 28 < riffLength
    ensures Decode(Encode(w, riffLength), toFloat) == Ok(WrittenValue(w))
  {
    EncodeLayout(w, riffLength);
    ChannelsRoundTrip(w.channels);
    WalkPastFmt(w, riffLength, toFloat);
    WalkFromFmtWritten(w, riffLength, toFloat);
  }

  /**
   What `save` writes decodes back to the same channels, rate, frames and
   sample words, despite the short RIFF length: with samples the `data`
   header still starts below it, and with none there is nothing to read.
   */
  lemma SaveRoundTrip(w: Wav, toFloat: Pcm -> u32)
    requires Valid(w) && Encodable(w) && DeclaredLength(w) < U32_LIMIT
    requires w.channels % 0x100 < 0x80
    ensures Decode(Save(w), toFloat) == Ok(w)
  {
    var riffLength := DeclaredLengthAsWritten(w);
    assert riffLength == 28 + DataSize(w);
    assert |w.samples| == w.frames * w.channels;
    DecodeEncoded(w, riffLength, toFloat);
  }

  /**
   A value with a trailing partial frame, as the decoder produces when the
   sample count is not a multiple of the channel count, comes back from
   what `save` writes with the same frames and sample count: the whole
   frames unchanged and the partial frame zeroed.
   */
  lemma SaveZeroesPartialFrame(w: Wav, toFloat: Pcm -> u32)
    requires Encodable(w) && DeclaredLength(w) < U32_LIMIT
    requires w.channels >= 1 && w.frames == |w.samples| / w.channels
    requires w.channels % 0x100 < 0x80
    ensures Decode(Save(w), toFloat) == Ok(w.(samples := WrittenWords(w)))
  {
    var riffLength := DeclaredLengthAsWritten(w);
    assert riffLength == 28 + DataSize(w);
    DecodeEncodedWritten(w, riffLength, toFloat);
  }

  /** Stereo with three words: one whole frame, and the third word is lost. */
  lemma SavePartialFrameExample(toFloat: Pcm -> u32)
    ensures Decode(Save(Wav(2, 48000, 1, [7, 8, 9])), toFloat) == Ok(Wav(2, 48000, 1, [7, 8, 0]))
  {
    var w := Wav(2, 48000, 1, [7, 8, 9]);
    SaveZeroesPartialFrame(w, toFloat);
    assert WrittenWords(w) == [7, 8, 0];
  }

  /**
   Once the data size reaches 2^32 - 28 the length `save` writes wraps
   below 28, the end of the `fmt ` chunk, so the saved file decodes with
   no frames and no samples, however many it holds.
   */
  lemma SaveWrappedLengthDropsSamples(w: Wav, toFloat: Pcm -> u32)
    requires Encodable(w) && DataSize(w) >= U32_LIMIT - 28
    ensures var r := Decode(Save(w), toFloat);
      r.Ok? && r.value.frames == 0 && r.value.samples == []
  {
    var riffLength := DeclaredLengthAsWritten(w);
    assert riffLength < 28;
    EncodeLayout(w, riffLength);
    if FIRST_CHUNK < riffLength {
      WalkPastFmt(w, riffLength, toFloat);
    }
  }

  /** The file with the corrected length decodes back the same way. */
  lemma SaveCorrectedRoundTrip(w: Wav, toFloat: Pcm -> u32)
    requires Valid(w) && Encodable(w) && DeclaredLength(w) < U32_LIMIT
    requires w.channels % 0x100 < 0x80
    ensures Decode(SaveCorrected(w), toFloat) == Ok(w)
  {
    assert |w.samples| == w.frames * w.channels;
    DecodeEncoded(w, DeclaredLength(w), toFloat);
  }

  /** Whatever follows the `fmt ` chunk of an encoded file, the channel count it set stays. */
  lemma WalkFromFmtKeepsChannels(w: Wav, riffLength: u32, toFloat: Pcm -> u32)
    requires Encodable(w) && riffLength <= DeclaredLength(w)
    ensures var r := Walk(Encode(w, riffLength), riffLength, 28, FmtState(w), toFloat);
      r.Ok? ==> r.value.wav.channels == FmtState(w).wav.channels
  {
    var b := Encode(w, riffLength);
    var st1 := FmtState(w);
    EncodeLayout(w, riffLength);
    if riffLength > 28 {
      var r2 := Chunk(b, 36, st1, toFloat);
      if r2.Ok? {
        assert r2.value.state.wav.channels == st1.wav.channels;
        assert r2.value.advance == DataSize(w);
        assert NextOffset(28, r2.value.advance) >= riffLength;
      }
    }
  }

  /**
   A channel count whose low byte is 0x80 or more (and whose high byte is
   not 0xFF) does not survive: whatever the decoder returns carries a
   different count.
   */
  lemma SaveLosesHighChannelCount(w: Wav, toFloat: Pcm -> u32)
    requires Encodable(w) && DeclaredLength(w) < U32_LIMIT
    requires w.channels % 0x100 >= 0x80 && w.channels / 0x100 != 0xFF
    ensures var r := Decode(Save(w), toFloat);
      r.Ok? ==> r.value.channels == 0xFF00 + w.channels % 0x100 != w.channels
  {
    var riffLength := DeclaredLengthAsWritten(w);
    assert riffLength == 28 + DataSize(w);
    EncodeLayout(w, riffLength);
    var c := LeBytes(w.channels, 2);
    assert c[0] == w.channels % 0x100;
    assert FmtState(w).wav.channels == 0xFF00 + w.channels % 0x100;
    WalkPastFmt(w, riffLength, toFloat);
    WalkFromFmtKeepsChannels(w, riffLength, toFloat);
  }
}
