# pcmplayer: WAVE codec and frame cursors

A Dafny model of the core of pcmplayer, a small program that loads a RIFF/WAVE
file and plays it through a platform audio backend. Three things are modelled:

- the `Wav` value class (`src/Wav.hpp`), made up of:
  - the validating value constructor;
  - the stream decoder, which reads "RIFF", the declared length, "WAVE" and then the
    `fmt ` and `data` chunks, skipping every other chunk and padding to even offsets;
  - the `save` encoder, which always writes 32-bit IEEE float;
- the bounds-checked frame cursor `getData`/`play` of the audio player
  (`src/AudioPlayer.cpp`). `src/AudioPlayer.hpp` repeats the same definitions inline,
  and both are modelled by one definition;
- the unchecked frame cursor of the audio device (`src/AudioDevice.cpp`).

Modules:

- `Bytes`: little-endian fields.
- `Samples`: PCM words and their exact normalised values.
- `Riff`: chunk codes and the chunk cursor.
- `WavData`: the value, the constructor and the errors.
- `Decoder`.
- `Encoder`.
- `ReferenceFiles`: the recordings used by the codec's tests.
- `Frames`: interleaved frame arithmetic.
- `AudioPlayer`.
- `AudioDevice`.

How the model represents things:

- Everything is a pure function over immutable values. A cursor call returns the
  next cursor together with the block it hands out.
- Samples are 32-bit IEEE-754 singles, held as their bit patterns (`u32`).
- Float samples are copied through unchanged.
- A PCM sample word is decoded to its integer exactly (`Samples.RawPcm`). Its
  normalised real value is `Samples.Normalized`. The single-precision float the host
  rounds it to is the decoder's parameter `toFloat`.
- The input stream is a byte sequence. A read past its end is the error `Truncated`,
  where the source goes on with whatever its buffers hold (see "## Left out"). A skip
  past the end is not checked.

The code departs from the RIFF container format of the Microsoft/IBM *Multimedia
Programming Interface and Data Specifications 1.0* (chapter 2 for chunks, the
waveform section of chapter 3 for the WAVE form) in three places, and the model
follows the code in each:

- That format requires a WAVE form to hold a `fmt ` and a `data` chunk. The code
  returns whatever it has read once the declared length is reached, and so does
  `Decoder.Decode`. For example, a file whose declared length ends before any chunk
  decodes to the empty value.
- Every chunk there carries its size, and a reader moves past a chunk by that size.
  The code advances past a `fmt ` chunk by exactly 16 bytes whatever size it
  declares (`Decoder.FmtChunk`).
- `wChannels` is an unsigned 16-bit WORD there. The code reads the channel bytes
  without masking them. With a signed `char`, a low byte of 0x80 or more
  sign-extends into the high byte. The model reproduces this
  (`Decoder.ChannelsAsRead`).

The model corrects the code in two places, each recorded under "## Findings"
with the code as written modelled beside it; its other departures from the code
are listed under "## Left out":

- The decoder's cursor is the unbounded `Riff.NextOffset`; the source masks it to
  32 bits (`Riff.MaskedNextOffset`).
- The constructor `WavData.Make` compares the sample count with the exact product
  of channels and frames; the source computes that product in 32 bits
  (`WavData.MakeAsWritten`).

## Model

| member | source | states |
|---|---|---|
| Bytes.LeValueOfBytes | src/Wav.hpp:288-292 | a value written as its low `n` bytes, least significant first, reads back as the value when it fits in `n` bytes |
| Bytes.LeBytesOfValue | src/Wav.hpp:76-79 | the bytes a field was read from are exactly the bytes written back for the value read, so the field encoding is one-to-one |
| Bytes.U16At | src/Wav.hpp:90-91 | a 16-bit field is its low byte plus 256 times its high byte |
| Bytes.U32At | src/Wav.hpp:107-110 | a 32-bit field is its four bytes weighted 1, 2^8, 2^16, 2^24 |
| Bytes.U16RoundTrip | src/Wav.hpp:301-303 | a 16-bit field written by the encoder reads back as the written value |
| Bytes.U32RoundTrip | src/Wav.hpp:307-311 | a 32-bit field written by the encoder reads back as the written value |
| Samples.RawPcm | src/Wav.hpp:153-226 | the integer in a PCM word lies in the range of its depth: unsigned at 8 bits; above 8 bits it is negative exactly when the top byte has bit 7 set |
| Samples.RawOfPcmWord | src/Wav.hpp:179-221 | the two's-complement word stored for an integer in range decodes back to that integer |
| Samples.PcmWordOfRaw | src/Wav.hpp:179-221 | every word is the one stored for the integer it decodes to, so no two words decode alike |
| Samples.Divisor | src/Wav.hpp:165-222 | the scale divisors 255, 32767, 8388607 and 2147483647 are one less than the top of each depth's range |
| Samples.NormalizedRange | src/Wav.hpp:165-222 | normalised PCM lies in [-1, 1], except the most negative word of a depth above 8 bits, which falls one step below -1 |
| Samples.ScaledRange | src/Wav.hpp:181 | dividing a value in [-(d+1), d] by d stays within [-1 - 1/d, 1] and falls below -1 only at -(d+1) |
| Samples.ReferenceWords16 | test/WavTest.cpp:66-71 | the 16-bit test words FF7F, 0180 and 0000 are 32767, -32767 and 0, normalised to 1, -1 and 0 |
| Samples.ReferenceWords24 | test/WavTest.cpp:87-92 | the 24-bit test words are 8388607, -8388607 and 0, normalised to 1, -1 and 0 |
| Samples.ReferenceWords8 | src/Wav.hpp:164-165 | the 8-bit words 0 and 255 normalise to -1 and 1 |
| Riff.NextOffset | src/Wav.hpp:261-263 | the corrected cursor, without the source's 32-bit mask: after a chunk it is even and lies past the header and body, padded by at most one byte (exactly when the end is odd), so it strictly increases |
| Riff.NextOffsetShift | src/Wav.hpp:261-263 | moving a chunk by an even number of bytes moves the cursor after it by the same number, since the padding depends only on parity |
| Riff.MaskedNextOffset | src/Wav.hpp:262 | the cursor exactly as computed, with the 32-bit mask applied to a 64-bit offset, is even and below 2^32 |
| Riff.MaskedAgreesBelowLimit | src/Wav.hpp:262 | below 2^32 the mask changes nothing |
| Riff.MaskedCursorStalls | src/Wav.hpp:262 | from any even offset, a chunk declaring 0xFFFFFFF8 bytes brings the masked cursor back to the same offset, whereas the unbounded one moves 2^32 ahead |
| WavData.Make | src/Wav.hpp:20-29 | the corrected constructor, comparing with the exact product of channels and frames: it accepts exactly at least one channel, a non-zero rate and samples filling the frames, and keeps the fields; `InvalidChannelCount`, `InvalidSampleRate` and `InvalidSampleCount` each hold if and only if the checks before it pass and its own fails |
| WavData.MakeValid | src/Wav.hpp:20-29 | every valid value is accepted back unchanged |
| WavData.EmptyIsNotConstructible | src/Wav.hpp:18-24 | the default value (no channels) is not one the constructor accepts |
| WavData.MakeAsWritten | src/Wav.hpp:27 | the sample-count check as written compares with the product of channels and frames reduced mod 2^32 |
| WavData.MakeAsWrittenAgrees | src/Wav.hpp:27 | when the product fits in 32 bits the written check and the exact one agree |
| WavData.MakeAsWrittenAcceptsEmptyBuffer | src/Wav.hpp:27 | two channels of 2^31 frames with no samples pass the written check but not the exact one |
| WavData.ReferenceConstruction | test/WavTest.cpp:13-20 | the tests' constructions, two channels at 44100 Hz with one frame and (in the encoding test) two channels at 48000 Hz with three frames, both succeed and keep their fields |
| WavData.ConstructionErrors | src/Wav.hpp:23-28 | no channels is `InvalidChannelCount` even with a zero rate and no samples; a zero rate is `InvalidSampleRate`; two samples for two stereo frames is `InvalidSampleCount` |
| Decoder.ChannelsAsRead | src/Wav.hpp:100-101 | a low byte below 0x80 gives the little-endian count; a higher one gives 0xFF in the high byte |
| Decoder.ChannelsRoundTrip | src/Wav.hpp:100-101 | a written channel count reads back unchanged if and only if its low byte is below 0x80 or its high byte is 0xFF |
| Decoder.Filled | src/Wav.hpp:147-148 | the samples the frame loops convert are the largest multiple of the channel count within the sample count: a multiple of it, at most the count, and less than one frame short of it |
| Decoder.ConvertDataLoops | src/Wav.hpp:151-247 | for every frame below the sample count over the channels and every channel below the channel count, sample `frame * channels + channel` lies in the buffer and is word `frame * channels + channel` of the chunk, converted by the tag and depth |
| Decoder.ConvertDataResized | src/Wav.hpp:147-149 | the buffer is resized to the chunk size over the word width; from the end of the whole frames to that size an entry keeps the value the buffer held before at that index, or is +0.0 where the buffer was shorter |
| Decoder.FmtChunk | src/Wav.hpp:81-138 | a `fmt ` chunk is read if and only if its 16-byte body is present and its tag is 1 or 3; it then sets tag, channels, rate and bit depth from their offsets and advances 16 bytes; a tag other than 1 or 3 is `UnsupportedFormat` (if and only if), and nothing else changes |
| Decoder.DataChunk | src/Wav.hpp:139-254 | a `data` chunk succeeds if and only if its body is present and a supported tag, depth and channel count were set; it is `Truncated` if and only if the body is cut short, and otherwise `MissingFormat` if and only if no tag was set, `UnsupportedBitDepth` if and only if the depth is below 8 bits or, with channels set, not supported for the tag, and `InvalidChannelCount` if and only if the tag and a whole-byte depth were set without channels; on success it then sets frames to the sample count over the channels and the samples to the converted body, and advances the declared size |
| Decoder.Chunk | src/Wav.hpp:81-259 | a chunk's code selects `fmt `, `data`, or skipping the declared size with the state unchanged |
| Decoder.Walk | src/Wav.hpp:64-264 | the walk, with the corrected cursor, stops once the cursor reaches the declared length, only ever sets a known format tag, and fails only with a codec error |
| Decoder.ChunkShifted | src/Wav.hpp:66-259 | a chunk reads only its own header and body, so it decodes to the same result wherever it sits in the stream |
| Decoder.WalkShifted | src/Wav.hpp:64-264 | moving the rest of the stream by an even number of bytes, with the declared length and the cursor moved by as many, leaves the walk's result unchanged |
| Decoder.SkipUnknownChunk | src/Wav.hpp:255-263 | inserting, at an even cursor, a chunk with an unrecognised code whose length is its header plus its size padded to even, and growing the declared length by as much while it stays below 2^32, leaves the walk's result unchanged: the chunk is skipped and nothing else moves |
| Decoder.Decode | src/Wav.hpp:31-265 | `NotRiff` if and only if the first four bytes are not "RIFF"; `NotWave` if and only if "RIFF" is followed by a form type other than "WAVE"; a "RIFF"…"WAVE" header with a declared length of at most 4 decodes successfully to the empty value |
| Encoder.WrittenWords | src/Wav.hpp:410-426 | the encoder's buffer holds `|samples|` words: each sample inside the frames unchanged, and zeros past them |
| Encoder.WordsAt | src/Wav.hpp:421-423 | word `i` sits at bytes 4i to 4i+4, little-endian |
| Encoder.FmtBodyFields | src/Wav.hpp:273-322 | the `fmt ` body reads back as tag 3, the channel bytes, the rate, the byte rate and block align truncated to their widths, and 32 bits |
| Encoder.Encode | src/Wav.hpp:431-448 | the file is 44 bytes of header plus four bytes per sample, which is 8 more than the length of the three chunks |
| Encoder.EncodeLayout | src/Wav.hpp:431-448 | every code, size and body sits where a reader finds it: RIFF, length, WAVE, `fmt ` 16, body, `data`, size, words |
| Encoder.Save | src/Wav.hpp:267-449 | `save` writes 44 header bytes and four bytes per sample |
| Encoder.SaveDeclaresEightShort | src/Wav.hpp:282-286 | the RIFF length `save` writes is 8 less than the number of bytes after the length field |
| Encoder.SaveCorrectedDeclaresRest | src/Wav.hpp:282-286 | with both chunk headers counted, the RIFF length is exactly the number of bytes after the length field |
| Encoder.DecodedWords | src/Wav.hpp:231-247 | decoding the written float words as 32-bit IEEE float gives back the samples |
| Encoder.DecodedWrittenWords | src/Wav.hpp:147-149 | when the frame count is the sample count over the channels, decoding the written float words gives back the encoder's buffer: the whole frames' samples, and zeros for a trailing partial frame |
| Encoder.EncodedFmtStep | src/Wav.hpp:435-443 | the decoder reads an encoded `fmt ` chunk back as tag 3, 32 bits, the rate and the channel bytes |
| Encoder.EncodedDataStep | src/Wav.hpp:445-448 | the decoder reads an encoded `data` chunk back as the frames and samples |
| Encoder.EncodedWrittenDataStep | src/Wav.hpp:445-448 | for a frame count equal to the sample count over the channels, the decoder reads an encoded `data` chunk back as that frame count and the written words |
| Encoder.DecodeEncoded | src/Wav.hpp:267-449 | decoding an encoded valid value gives it back, for any declared length up to the true one that still reaches the `data` chunk when there are samples, provided the channel count survives the unmasked read |
| Encoder.DecodeEncodedWritten | src/Wav.hpp:267-449 | decoding an encoded value whose frame count is the sample count over the channels gives back its channels, rate, frames and sample count, the whole frames' samples unchanged and a trailing partial frame zeroed, when the channel count's low byte is below 0x80 |
| Encoder.SaveRoundTrip | src/Wav.hpp:267-449 | despite the short length, what `save` writes for a valid value decodes back to it, when the channel count's low byte is below 0x80 and the data size is below 2^32 - 36 |
| Encoder.SaveWrappedLengthDropsSamples | src/Wav.hpp:282-286 | once the data size reaches 2^32 - 28 the length `save` writes wraps below the end of the `fmt ` chunk, and the saved file decodes with no frames and no samples |
| Encoder.SaveZeroesPartialFrame | src/Wav.hpp:410-426 | a value the decoder can produce, with the frame count the sample count over the channels, comes back from what `save` writes with the same frames and sample count, the whole frames unchanged and a trailing partial frame zeroed, when the channel count's low byte is below 0x80 and the data size is below 2^32 - 36 |
| Encoder.SavePartialFrameExample | src/Wav.hpp:410-426 | a stereo value of one frame holding the words 7, 8, 9 comes back from `save` as 7, 8, 0 |
| Encoder.SaveCorrectedRoundTrip | src/Wav.hpp:282-286 | the file with the corrected length decodes back to the value as well, under the same two conditions: the channel count's low byte below 0x80 and the data size below 2^32 - 36 |
| Encoder.SaveLosesHighChannelCount | src/Wav.hpp:304-306 | a channel count whose low byte is 0x80 or more (and whose high byte is not 0xFF) never comes back from what `save` writes |
| ReferenceFiles.DecodePcm16 | test/WavTest.cpp:53-72 | the 16-bit test file decodes to 2 channels, 48000 Hz, 3 frames: full scale, negative full scale, silence |
| ReferenceFiles.DecodePcm24 | test/WavTest.cpp:74-93 | the 24-bit test file decodes to the same three frames |
| ReferenceFiles.DecodeFloat32 | test/WavTest.cpp:95-114 | the float test file decodes to the words of 1.0, -1.0 and +0.0; its `fact` and `PEAK` chunks are skipped |
| ReferenceFiles.OverflowingChunkSize | src/Wav.hpp:261-263 | a chunk declaring 0xFFFFFFF8 bytes sends the masked cursor back to offset 4 with the state unchanged, while the unbounded walk ends with the empty value |
| AudioPlayer.New | src/AudioPlayer.hpp:79 | a new player has no samples and the cursor at frame 0 |
| AudioPlayer.GetData | src/AudioPlayer.cpp:24-52 | more is reported if and only if more than `frames` whole frames remain; then the block is `frames` frames long and followed by what remains; otherwise it is everything from the cursor and the cursor moves to the last whole frame |
| AudioPlayer.Drain | src/AudioPlayer.cpp:24-52 | calling until no more is reported ends at the buffer's last whole frame after calls that all reported more |
| AudioPlayer.DrainChains | src/AudioPlayer.cpp:24-52 | each call of the drain starts from the cursor the previous call left |
| AudioPlayer.DrainJoined | src/AudioPlayer.hpp:40-68 | the drained blocks joined are exactly the samples from the cursor on, nothing lost or repeated |
| AudioPlayer.CallsBounds | src/AudioPlayer.cpp:32 | the number of calls is the remaining frames over `frames`, rounded up, and at least one |
| AudioPlayer.DrainCalls | src/AudioPlayer.cpp:32-40 | the drain makes exactly that many calls |
| AudioPlayer.DrainCount | src/AudioPlayer.cpp:24-52 | the drain count is bounded between the remaining frames over `frames` and one more |
| AudioPlayer.AtEndRepeats | src/AudioPlayer.cpp:42-51 | at the end every call changes nothing and hands out the trailing partial frame again, which is empty exactly when the length is a multiple of the channel count |
| AudioPlayer.DrainFromStart | src/AudioPlayer.cpp:24-52 | from a fresh cursor the drained blocks joined are the whole buffer |
| AudioPlayer.Play | src/AudioPlayer.cpp:18-22 | playing replaces the samples and keeps the cursor |
| AudioPlayer.PlayValid | src/AudioPlayer.cpp:18-30 | after `play` the cursor is usable if and only if the new buffer still has `offset` whole frames |
| AudioPlayer.ReplayAfterDrain | src/AudioPlayer.cpp:18-22 | playing the same buffer after draining it does not rewind: the next call reports no more and hands out less than a frame |
| AudioPlayer.ReferenceStereo | src/AudioPlayer.cpp:24-52 | two stereo frames fetched one at a time: [1, 2] with more, [3, 4] without, then an empty block |
| AudioDevice.New | src/AudioDevice.hpp:39 | a new device has no samples and the cursor at frame 0 |
| AudioDevice.Play | src/AudioDevice.cpp:18-22 | playing replaces the samples and keeps the cursor |
| AudioDevice.PlayResumesAtOffset | src/AudioDevice.cpp:18-22 | after `play` the next call reads the new buffer from the frame where the old one stopped |
| AudioDevice.GetData | src/AudioDevice.cpp:24-34 | a call hands out the `frames` frames at the cursor and moves past them |
| AudioDevice.ConsecutiveCalls | src/AudioDevice.cpp:24-34 | two calls in a row hand out adjacent blocks that together are the frames from the cursor, and the cursor ends past both |
| AudioDevice.AgreesWithPlayer | src/AudioDevice.cpp:24-34 | while the checked cursor reports more, the unchecked one hands out the same block and moves to the same frame |

## Left out

- The platform audio backends (CoreAudio, WASAPI, ALSA and others), threads, device enumeration and `main` are not part of this model.
- Float arithmetic is left out. PCM-to-float rounding is the decoder's parameter `toFloat`, with its exact real value given by `Samples.Normalized`. Float samples are bit patterns, on the assumption of a little-endian host for `memcpy`.
- I/O is left out: the stream is a byte sequence. The source does not check its reads. A short read of the RIFF header, a chunk header or a `fmt ` field leaves the rest of that local `char` array uninitialised, and the code goes on with indeterminate bytes; the model reports `Truncated` there instead. Skipping an unknown chunk past the end is not checked, as in the source; a walk that goes on from there fails at the next header.
- Decoder.DataChunk: a `data` body cut short is the error `Truncated`. In the source the chunk buffer (src/Wav.hpp:144) is a zero-filled vector of the declared size, so the missing bytes decode as zero words and, when the declared length ends there, the constructor returns normally. The model does not promise that result.
- Decoder.Walk: advances with the corrected cursor `Riff.NextOffset`, not the masked one of src/Wav.hpp:262. For a chunk size that carries the cursor past 2^32 the source's masked cursor wraps, can come back to the offset it started from, and then loops forever (`Riff.MaskedCursorStalls`, `ReferenceFiles.OverflowingChunkSize`), while the model's walk always ends.
- Integer division by zero in the decoder is undefined behaviour in the source. The model maps each case to an error:
  - a `data` chunk before any `fmt ` chunk (bit depth 0) is `MissingFormat`;
  - a depth below 8 bits is `UnsupportedBitDepth`;
  - a zero channel count is `InvalidChannelCount`.
- The `fmt ` chunk's extension-size branch (src/Wav.hpp:124-137) is unreachable: its condition was already excluded at line 93. It is not modelled.
- The PCM branches of `save` (src/Wav.hpp:332-409) are dead code, because the format tag there is the constant 3. They are not modelled.
- Encoder.SaveRoundTrip: stated for a declared length `DeclaredLength(w)` below 2^32, that is a data size below 2^32 - 36. From 2^32 - 28 on the written length wraps and the file decodes with no samples (`Encoder.SaveWrappedLengthDropsSamples`); the sizes in between are not covered by a lemma. A value with a trailing partial frame is covered by `Encoder.SaveZeroesPartialFrame`; a value whose frame count is below its sample count over the channels decodes with the larger frame count, and no lemma states that case.
- Encoder.Encodable: the model requires `frames * channels <= |samples|` and a data size below 2^32. Outside those bounds the source writes past its buffer or truncates the size, which is undefined or lossy.
- AudioPlayer.Valid: the model requires at least one channel and the cursor within the buffer. The source divides by the channel count, and its unsigned remaining-frame count wraps once the cursor is past the end (for example after `play` with a shorter buffer).
- AudioDevice.GetData: the model requires the block to lie inside the buffer. The source does not check this and reads out of bounds otherwise.
- The `reserve` calls, the getters and the backend fields `driver`, `bufferSize`, `sampleRate` and `sampleFormat` do not affect the modelled values, so they are left out.
- The decoder reads `char` as signed, as on the common desktop ABIs. With an unsigned `char` every channel count would read back correctly.
- The width arithmetic of the cursor is left out: `offset * channels` in `size_t` cannot overflow for a buffer that fits in memory, so offsets are unbounded naturals.

## Findings

| source | as written | input that shows it | evidently intended | confidence | as-written member | corrected member |
|---|---|---|---|---|---|---|
| src/Wav.hpp:282-286 | the RIFF length is 4 + 4 + 16 + 4 + data size, counting one 4-byte chunk header field per chunk | any value, e.g. 2 channels and 1 frame: 52 bytes, of which 44 follow the length field, while 36 is declared; with a data size of 2^32 - 28 or more the short length also wraps to below 28 and the samples are lost on reading back | 4 + 8 + 16 + 8 + data size, the number of bytes after the length field | high, not executed | Encoder.SaveDeclaresEightShort | Encoder.SaveCorrectedDeclaresRest |
| src/Wav.hpp:262 | `(offset + 1) & 0xFFFFFFFE` masks a 64-bit `size_t` with a 32-bit constant, clearing the high half | "RIFF" FFFFFFFF "WAVE" "JUNK" F8FFFFFF: the cursor returns to 4 after the chunk and the loop never ends | round the offset up to even without truncating it, so the cursor always advances | high, not executed | Riff.MaskedCursorStalls | Riff.NextOffset |
| src/Wav.hpp:27 | `channels * f` is computed in 32-bit unsigned arithmetic before the comparison | channels 2, frames 2^31, no samples: accepted, and `save` then writes 2^32 words into an empty buffer | compare the sample count with the exact product | high, not executed | WavData.MakeAsWrittenAcceptsEmptyBuffer | WavData.Make |
