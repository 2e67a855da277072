/**
 The RIFF container: four-character codes and the chunk cursor.

 The reader keeps an offset measured from the byte after the 4-byte RIFF
 length field (so the form type "WAVE" occupies offsets 0..3 and the first
 chunk starts at offset 4). Each chunk is an 8-byte header (code and
 little-endian size) followed by its body; bodies are padded to an even
 length, the pad byte not being counted in the size (section 2 of the
 Multimedia Programming Interface and Data Specifications 1.0).
 */
module Riff {
  import opened Bytes

  const RIFF_ID: seq<byte> := [0x52, 0x49, 0x46, 0x46]  // "RIFF"
  const WAVE_ID: seq<byte> := [0x57, 0x41, 0x56, 0x45]  // "WAVE"
  const FMT_ID: seq<byte> := [0x66, 0x6D, 0x74, 0x20]   // "fmt "
  const DATA_ID: seq<byte> := [0x64, 0x61, 0x74, 0x61]  // "data"

  /** Size of a chunk header: the code and the 32-bit size. */
  const CHUNK_HEADER_SIZE: nat := 8

  /** Offset of the first chunk: just after the form type. */
  const FIRST_CHUNK: nat := 4

  /** Absolute stream position of cursor offset `offset` (after the 4-byte code and the 4-byte length). */
  function Position(offset: nat): nat {
    offset + 8
  }

  /**
   The cursor after a chunk whose header starts at `offset` and whose body
   the reader advanced over by `advance` bytes: past the header and the
   body, then up to the next even offset. This is the unbounded reading of
   `(offset + 1) & ~1`.
   */
  function NextOffset(offset: nat, advance: nat): (r: nat)
    ensures r % 2 == 0
    ensures offset + CHUNK_HEADER_SIZE + advance <= r <= offset + CHUNK_HEADER_SIZE + advance + 1
    ensures r == offset + CHUNK_HEADER_SIZE + advance <==> (offset + advance) % 2 == 0
    ensures r > offset
  {
    var end := offset + CHUNK_HEADER_SIZE + advance;
    (end + 1) / 2 * 2
  }

  /** Moving a chunk by an even number of bytes moves the cursor after it by as many. */
  lemma NextOffsetShift(offset: nat, k: nat, advance: nat)
    requires k % 2 == 0
    ensures NextOffset(offset + k, advance) == NextOffset(offset, advance) + k
  {
    var end := offset + CHUNK_HEADER_SIZE + advance;
    assert (end + k + 1) / 2 == (end + 1) / 2 + k / 2;
  }

  /** From an even offset the cursor moves by the chunk's padded size, the cursor after it at offset 0. */
  lemma NextOffsetFrom(offset: nat, advance: nat)
    requires offset % 2 == 0
    ensures NextOffset(offset, advance) == offset + NextOffset(0, advance)
  {
    NextOffsetShift(0, offset, advance);
  }

  /**
   The cursor update exactly as the decoder computes it: the padded offset
   is a 64-bit value but the mask `0xFFFFFFFE` is a 32-bit constant, so
   the and-operation also clears every bit from bit 32 upward.
   */
  function MaskedNextOffset(offset: nat, advance: nat): (r: nat)
    ensures r < U32_LIMIT && r % 2 == 0
  {
    var end := offset + CHUNK_HEADER_SIZE + advance;
    (end + 1) % U32_LIMIT / 2 * 2
  }

  /** Below 4 GiB the mask changes nothing. */
  lemma MaskedAgreesBelowLimit(offset: nat, advance: nat)
    requires offset + CHUNK_HEADER_SIZE + advance + 1 < U32_LIMIT
    ensures MaskedNextOffset(offset, advance) == NextOffset(offset, advance)
  {
  }

  /**
   Above it the mask can send the cursor back to where it was: from any
   even offset, a chunk declaring 0xFFFFFFF8 bytes leads to the same offset
   again, so the chunk is read over and over.
   */
  lemma MaskedCursorStalls(offset: nat)
    requires offset % 2 == 0 && offset < U32_LIMIT - 8
    ensures MaskedNextOffset(offset, 0xFFFF_FFF8) == offset
    ensures NextOffset(offset, 0xFFFF_FFF8) == offset + U32_LIMIT
  {
    var end := offset + CHUNK_HEADER_SIZE + 0xFFFF_FFF8;
    assert end + 1 == offset + 1 + U32_LIMIT;
    assert (end + 1) % U32_LIMIT == offset + 1;
  }
}
