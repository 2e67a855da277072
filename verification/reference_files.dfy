/**
 The decoder applied to the three recordings of the codec's own tests
 (two channels at 48000 Hz, three frames: full scale, negative full scale,
 silence) and to a file whose chunk size overflows the 32-bit cursor.
 */
module ReferenceFiles {
  import opened Bytes
  import opened Samples
  import opened Riff
  import opened WavData
  import opened Decoder

  /** 16-bit PCM: "fmt " (tag 1, 2 channels, 48000 Hz, 16 bits) then 12 data bytes. */
  const PCM16: seq<byte> := 
    [0x52, 0x49, 0x46, 0x46, 0x30, 0x00, 0x00, 0x00, 0x57, 0x41, 0x56, 0x45] +
    [0x66, 0x6D, 0x74, 0x20, 0x10, 0x00, 0x00, 0x00, 0x01, 0x00, 0x02, 0x00] +
    [0x80, 0xBB, 0x00, 0x00, 0x00, 0xEE, 0x02, 0x00, 0x04, 0x00, 0x10, 0x00] +
    [0x64, 0x61, 0x74, 0x61, 0x0C, 0x00, 0x00, 0x00] +
    [0xFF, 0x7F, 0xFF, 0x7F, 0x01, 0x80, 0x01, 0x80, 0x00, 0x00, 0x00, 0x00]

  /** 24-bit PCM: the same samples three bytes each. */
  const PCM24: seq<byte> := 
    [0x52, 0x49, 0x46, 0x46, 0x36, 0x00, 0x00, 0x00, 0x57, 0x41, 0x56, 0x45] +
    [0x66, 0x6D, 0x74, 0x20, 0x10, 0x00, 0x00, 0x00, 0x01, 0x00, 0x02, 0x00] +
    [0x80, 0xBB, 0x00, 0x00, 0x00, 0x65, 0x04, 0x00, 0x06, 0x00, 0x18, 0x00] +
    [0x64, 0x61, 0x74, 0x61, 0x12, 0x00, 0x00, 0x00] +
    [0xFF, 0xFF, 0x7F, 0xFF, 0xFF, 0x7F, 0x01, 0x00, 0x80, 0x01, 0x00, 0x80] +
    [0x00, 0x00, 0x00, 0x00, 0x00, 0x00]

  /** 32-bit float with a "fact" and a "PEAK" chunk between "fmt " and "data". */
  const FLOAT32: seq<byte> := 
    [0x52, 0x49, 0x46, 0x46, 0x68, 0x00, 0x00, 0x00, 0x57, 0x41, 0x56, 0x45] +
    [0x66, 0x6D, 0x74, 0x20, 0x10, 0x00, 0x00, 0x00, 0x03, 0x00, 0x02, 0x00] +
    [0x80, 0xBB, 0x00, 0x00, 0x00, 0xDC, 0x05, 0x00, 0x08, 0x00, 0x20, 0x00] +
    [0x66, 0x61, 0x63, 0x74, 0x04, 0x00, 0x00, 0x00, 0x03, 0x00, 0x00, 0x00] +
    [0x50, 0x45, 0x41, 0x4B, 0x18, 0x00, 0x00, 0x00, 0x01, 0x00, 0x00, 0x00] +
    [0xC2, 0x5C, 0x8E, 0x5F, 0x00, 0x00, 0x80, 0x3F, 0x00, 0x00, 0x00, 0x00] +
    [0x00, 0x00, 0x80, 0x3F, 0x00, 0x00, 0x00, 0x00] +
    [0x64, 0x61, 0x74, 0x61, 0x18, 0x00, 0x00, 0x00] +
    [0x00, 0x00, 0x80, 0x3F, 0x00, 0x00, 0x80, 0x3F, 0x00, 0x00, 0x80, 0xBF] +
    [0x00, 0x00, 0x80, 0xBF, 0x00, 0x00, 0x00, 0x00, 0x00, 0x00, 0x00, 0x00]

  /** A RIFF length of 0xFFFFFFFF and one unknown chunk declaring 0xFFFFFFF8 bytes. */
  const OVERFLOWING: seq<byte> := 
    [0x52, 0x49, 0x46, 0x46, 0xFF, 0xFF, 0xFF, 0xFF, 0x57, 0x41, 0x56, 0x45] +
    [0x4A, 0x55, 0x4E, 0x4B, 0xF8, 0xFF, 0xFF, 0xFF]

  /** The state after the `fmt ` chunk of the reference files. */
  function AfterFmt(formatTag: u16, bits: u16): State {
    State(formatTag, bits, Wav(2, 48000, 0, []))
  }

  lemma Pcm16Samples(data: seq<byte>, toFloat: Pcm -> u32)
    requires data == [0xFF, 0x7F, 0xFF, 0x7F, 0x01, 0x80, 0x01, 0x80, 0x00, 0x00, 0x00, 0x00]
    ensures ConvertData(1, 16, 2, data, [], toFloat) == [
      toFloat(Pcm(16, 32767)), toFloat(Pcm(16, 32767)),
      toFloat(Pcm(16, -32767)), toFloat(Pcm(16, -32767)),
      toFloat(Pcm(16, 0)), toFloat(Pcm(16, 0))]
  {
    var s := ConvertData(1, 16, 2, data, [], toFloat);
    assert Filled(|s|, 2) == 6;
    assert data[0..2] == [0xFF, 0x7F] && data[2..4] == [0xFF, 0x7F];
    assert data[4..6] == [0x01, 0x80] && data[6..8] == [0x01, 0x80];
    assert data[8..10] == [0x00, 0x00] && data[10..12] == [0x00, 0x00];
    ReferenceWords16();
  }

  lemma Pcm24Samples(data: seq<byte>, toFloat: Pcm -> u32)
    requires data == [0xFF, 0xFF, 0x7F, 0xFF, 0xFF, 0x7F, 0x01, 0x00, 0x80, 0x01, 0x00, 0x80] + [0x00, 0x00, 0x00, 0x00, 0x00, 0x00]
    ensures ConvertData(1, 24, 2, data, [], toFloat) == [
      toFloat(Pcm(24, 8388607)), toFloat(Pcm(24, 8388607)),
      toFloat(Pcm(24, -8388607)), toFloat(Pcm(24, -8388607)),
      toFloat(Pcm(24, 0)), toFloat(Pcm(24, 0))]
  {
    var s := ConvertData(1, 24, 2, data, [], toFloat);
    assert Filled(|s|, 2) == 6;
    assert data[0..3] == [0xFF, 0xFF, 0x7F] && data[3..6] == [0xFF, 0xFF, 0x7F];
    assert data[6..9] == [0x01, 0x00, 0x80] && data[9..12] == [0x01, 0x00, 0x80];
    assert data[12..15] == [0x00, 0x00, 0x00] && data[15..18] == [0x00, 0x00, 0x00];
    ReferenceWords24();
  }

  lemma Float32Samples(data: seq<byte>, toFloat: Pcm -> u32)
    requires data == [0x00, 0x00, 0x80, 0x3F, 0x00, 0x00, 0x80, 0x3F, 0x00, 0x00, 0x80, 0xBF] +
      [0x00, 0x00, 0x80, 0xBF, 0x00, 0x00, 0x00, 0x00, 0x00, 0x00, 0x00, 0x00]
    ensures ConvertData(3, 32, 2, data, [], toFloat) == [0x3F80_0000, 0x3F80_0000, 0xBF80_0000, 0xBF80_0000, 0, 0]
  {
    var s := ConvertData(3, 32, 2, data, [], toFloat);
    assert Filled(|s|, 2) == 6;
    assert data[0..4] == [0x00, 0x00, 0x80, 0x3F] && data[4..8] == [0x00, 0x00, 0x80, 0x3F];
    assert data[8..12] == [0x00, 0x00, 0x80, 0xBF] && data[12..16] == [0x00, 0x00, 0x80, 0xBF];
    assert data[16..20] == [0x00, 0x00, 0x00, 0x00] && data[20..24] == [0x00, 0x00, 0x00, 0x00];
  }

  /** The header and "fmt " chunk of the 16-bit file. */
  lemma Pcm16Header(toFloat: Pcm -> u32)
    ensures U32At(PCM16, 4) == 48 && PCM16[..4] == RIFF_ID && PCM16[8..12] == WAVE_ID
    ensures Chunk(PCM16, 12, Initial, toFloat) == Ok(Step(16, AfterFmt(1, 16)))
  {
    assert PCM16[12..16] == FMT_ID;
  }

  /** The "data" chunk of the 16-bit file: three frames. */
  lemma Pcm16Data(toFloat: Pcm -> u32)
    ensures Chunk(PCM16, 36, AfterFmt(1, 16), toFloat) == Ok(Step(12, State(1, 16, Wav(2, 48000, 3, [
      toFloat(Pcm(16, 32767)), toFloat(Pcm(16, 32767)),
      toFloat(Pcm(16, -32767)), toFloat(Pcm(16, -32767)),
      toFloat(Pcm(16, 0)), toFloat(Pcm(16, 0))]))))
  {
    var input := PCM16;
    assert input[36..40] == DATA_ID && U32At(input, 40) == 12;
    Pcm16Samples(input[44..56], toFloat);
  }

  lemma DecodePcm16(toFloat: Pcm -> u32)
    ensures Decode(PCM16, toFloat) == Ok(Wav(2, 48000, 3, [
      toFloat(Pcm(16, 32767)), toFloat(Pcm(16, 32767)),
      toFloat(Pcm(16, -32767)), toFloat(Pcm(16, -32767)),
      toFloat(Pcm(16, 0)), toFloat(Pcm(16, 0))]))
  {
    var input := PCM16;
    var st1 := AfterFmt(1, 16);
    var st2 := State(1, 16, Wav(2, 48000, 3, [
      toFloat(Pcm(16, 32767)), toFloat(Pcm(16, 32767)),
      toFloat(Pcm(16, -32767)), toFloat(Pcm(16, -32767)),
      toFloat(Pcm(16, 0)), toFloat(Pcm(16, 0))]));
    Pcm16Header(toFloat);
    Pcm16Data(toFloat);
    assert NextOffset(4, 16) == 28 && NextOffset(28, 12) == 48;
    assert Walk(input, 48, 48, st2, toFloat) == Ok(st2);
    assert Walk(input, 48, 28, st1, toFloat) == Ok(st2);
    assert Walk(input, 48, 4, Initial, toFloat) == Ok(st2);
  }

  /** The header and "fmt " chunk of the 24-bit file. */
  lemma Pcm24Header(toFloat: Pcm -> u32)
    ensures U32At(PCM24, 4) == 54 && PCM24[..4] == RIFF_ID && PCM24[8..12] == WAVE_ID
    ensures Chunk(PCM24, 12, Initial, toFloat) == Ok(Step(16, AfterFmt(1, 24)))
  {
    assert PCM24[12..16] == FMT_ID;
  }

  /** The "data" chunk of the 24-bit file: three frames. */
  lemma Pcm24Data(toFloat: Pcm -> u32)
    ensures Chunk(PCM24, 36, AfterFmt(1, 24), toFloat) == Ok(Step(18, State(1, 24, Wav(2, 48000, 3, [
      toFloat(Pcm(24, 8388607)), toFloat(Pcm(24, 8388607)),
      toFloat(Pcm(24, -8388607)), toFloat(Pcm(24, -8388607)),
      toFloat(Pcm(24, 0)), toFloat(Pcm(24, 0))]))))
  {
    var input := PCM24;
    assert input[36..40] == DATA_ID && U32At(input, 40) == 18;
    Pcm24Samples(input[44..62], toFloat);
  }

  lemma DecodePcm24(toFloat: Pcm -> u32)
    ensures Decode(PCM24, toFloat) == Ok(Wav(2, 48000, 3, [
      toFloat(Pcm(24, 8388607)), toFloat(Pcm(24, 8388607)),
      toFloat(Pcm(24, -8388607)), toFloat(Pcm(24, -8388607)),
      toFloat(Pcm(24, 0)), toFloat(Pcm(24, 0))]))
  {
    var input := PCM24;
    var st1 := AfterFmt(1, 24);
    var st2 := State(1, 24, Wav(2, 48000, 3, [
      toFloat(Pcm(24, 8388607)), toFloat(Pcm(24, 8388607)),
      toFloat(Pcm(24, -8388607)), toFloat(Pcm(24, -8388607)),
      toFloat(Pcm(24, 0)), toFloat(Pcm(24, 0))]));
    Pcm24Header(toFloat);
    Pcm24Data(toFloat);
    assert NextOffset(4, 16) == 28 && NextOffset(28, 18) == 54;
    assert Walk(input, 54, 54, st2, toFloat) == Ok(st2);
    assert Walk(input, 54, 28, st1, toFloat) == Ok(st2);
    assert Walk(input, 54, 4, Initial, toFloat) == Ok(st2);
  }

  /** The header and "fmt " chunk of the float file. */
  lemma Float32Header(toFloat: Pcm -> u32)
    ensures U32At(FLOAT32, 4) == 104 && |FLOAT32| == 112
    ensures FLOAT32[..4] == RIFF_ID && FLOAT32[8..12] == WAVE_ID
    ensures Chunk(FLOAT32, 12, Initial, toFloat) == Ok(Step(16, AfterFmt(3, 32)))
  {
    assert FLOAT32[12..16] == FMT_ID;
  }

  /** The "fact" and "PEAK" chunks of the float file are skipped by their sizes. */
  lemma Float32Skipped(toFloat: Pcm -> u32)
    ensures Chunk(FLOAT32, 36, AfterFmt(3, 32), toFloat) == Ok(Step(4, AfterFmt(3, 32)))
    ensures Chunk(FLOAT32, 48, AfterFmt(3, 32), toFloat) == Ok(Step(24, AfterFmt(3, 32)))
  {
    var input := FLOAT32;
    assert input[36] == 0x66 && input[37] == 0x61;
    assert input[36..40][1] != FMT_ID[1] && input[36..40][0] != DATA_ID[0];
    assert input[48] == 0x50;
    assert input[48..52][0] != FMT_ID[0] && input[48..52][0] != DATA_ID[0];
  }

  lemma Float32DataChunk(toFloat: Pcm -> u32)
    ensures Chunk(FLOAT32, 80, AfterFmt(3, 32), toFloat) ==
      Ok(Step(24, State(3, 32, Wav(2, 48000, 3, [0x3F80_0000, 0x3F80_0000, 0xBF80_0000, 0xBF80_0000, 0, 0]))))
  {
    var input := FLOAT32;
    assert input[80..84] == DATA_ID && U32At(input, 84) == 24;
    Float32Samples(input[88..112], toFloat);
  }

  /** The float file decodes to the literal words of 1.0, -1.0 and +0.0; the two metadata chunks change nothing. */
  lemma DecodeFloat32(toFloat: Pcm -> u32)
    ensures Decode(FLOAT32, toFloat) == Ok(Wav(2, 48000, 3, [
      0x3F80_0000, 0x3F80_0000, 0xBF80_0000, 0xBF80_0000, 0, 0]))
  {
    var input := FLOAT32;
    var st1 := AfterFmt(3, 32);
    var st2 := State(3, 32, Wav(2, 48000, 3, [0x3F80_0000, 0x3F80_0000, 0xBF80_0000, 0xBF80_0000, 0, 0]));
    Float32Header(toFloat);
    Float32Skipped(toFloat);
    Float32DataChunk(toFloat);
    assert NextOffset(4, 16) == 28 && NextOffset(28, 4) == 40;
    assert NextOffset(40, 24) == 72 && NextOffset(72, 24) == 104;
    assert Walk(input, 104, 104, st2, toFloat) == Ok(st2);
    assert Walk(input, 104, 72, st1, toFloat) == Ok(st2);
    assert Walk(input, 104, 40, st1, toFloat) == Ok(st2);
    assert Walk(input, 104, 28, st1, toFloat) == Ok(st2);
    assert Walk(input, 104, 4, Initial, toFloat) == Ok(st2);
  }

  /**
   With the 32-bit mask the cursor returns to offset 4 after the unknown
   chunk, below the declared length and with the state unchanged, so the
   same chunk is read again forever. With the unbounded cursor the walk
   leaves the declared length behind and ends.
   */
  lemma OverflowingChunkSize(toFloat: Pcm -> u32)
    ensures U32At(OVERFLOWING, 4) == 0xFFFF_FFFF
    ensures Chunk(OVERFLOWING, Position(FIRST_CHUNK), Initial, toFloat) == Ok(Step(0xFFFF_FFF8, Initial))
    ensures MaskedNextOffset(FIRST_CHUNK, 0xFFFF_FFF8) == FIRST_CHUNK
    ensures Decode(OVERFLOWING, toFloat) == Ok(Empty)
  {
    var input := OVERFLOWING;
    assert input[..4] == RIFF_ID && input[8..12] == WAVE_ID;
    assert input[12] == 0x4A;
    assert input[12..16][0] != FMT_ID[0] && input[12..16][0] != DATA_ID[0];
    assert U32At(input, 16) == 0xFFFF_FFF8;
    MaskedCursorStalls(FIRST_CHUNK);
    var next := NextOffset(FIRST_CHUNK, 0xFFFF_FFF8);
    assert next >= 0xFFFF_FFFF;
    assert Walk(input, 0xFFFF_FFFF, next, Initial, toFloat) == Ok(Initial);
    assert Walk(input, 0xFFFF_FFFF, FIRST_CHUNK, Initial, toFloat) == Ok(Initial);
  }
}
