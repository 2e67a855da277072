/**
 The decoded audio value: channel count, sample rate, frame count and the
 interleaved (frame-major, channel-minor) sample words, with the value
 constructor's validation and the error kinds of the codec.

 Samples are 32-bit IEEE-754 singles held as their bit patterns; float
 arithmetic is outside the model.
 */
module WavData {
  import opened Bytes

  datatype Wav = Wav(channels: u16, sampleRate: u32, frames: u32, samples: seq<u32>)

  /** The value a default-constructed Wav holds (and the one the decoder starts from). */
  const Empty: Wav := Wav(0, 0, 0, [])

  datatype WavError =
    | InvalidChannelCount  // no channels
    | InvalidSampleRate    // sample rate zero
    | InvalidSampleCount   // samples do not fill the frames
    | NotRiff              // bytes 0..3 are not "RIFF"
    | NotWave              // bytes 8..11 are not "WAVE"
    | UnsupportedFormat    // fmt tag other than PCM (1) or IEEE float (3)
    | UnsupportedBitDepth  // bit depth the format tag does not support
    | MissingFormat        // a data chunk before any fmt chunk
    | Truncated            // a field or chunk body runs past the end of the input

  datatype Result<T> = Ok(value: T) | Err(error: WavError) {
    predicate IsFailure() {
      Err?
    }

    function PropagateFailure<U>(): Result<U>
      requires Err?
    {
      Err(error)
    }

    function Extract(): T
      requires Ok?
    {
      value
    }
  }

  /** What every value the constructor accepts satisfies. */
  predicate Valid(w: Wav) {
    w.channels >= 1 && w.sampleRate != 0 && |w.samples| == w.channels * w.frames
  }

  /**
   The value constructor: channel count, sample rate, frame count and
   samples, checked in that order. The sample count is compared with the
   exact product of channels and frames.
   */
  function Make(channels: u16, sampleRate: u32, frames: u32, samples: seq<u32>): (r: Result<Wav>)
    ensures r.Ok? <==> channels >= 1 && sampleRate != 0 && |samples| == channels * frames
    ensures r.Ok? ==> r.value.samples == samples && Valid(r.value)
    ensures r.Ok? ==> r.value.channels == channels && r.value.sampleRate == sampleRate && r.value.frames == frames
    ensures r == Err(InvalidChannelCount) <==> channels < 1
    ensures r == Err(InvalidSampleRate) <==> channels >= 1 && sampleRate == 0
    ensures r == Err(InvalidSampleCount) <==> channels >= 1 && sampleRate != 0 && |samples| != channels * frames
  {
    if channels < 1 then Err(InvalidChannelCount)
    else if sampleRate == 0 then Err(InvalidSampleRate)
    else if |samples| != channels * frames then Err(InvalidSampleCount)
    else Ok(Wav(channels, sampleRate, frames, samples))
  }

  /** Every valid Wav is accepted back by the constructor unchanged. */
  lemma MakeValid(w: Wav)
    requires Valid(w)
    ensures Make(w.channels, w.sampleRate, w.frames, w.samples) == Ok(w)
  {
  }

  /** The default value is not one the constructor can build. */
  lemma EmptyIsNotConstructible(sampleRate: u32, frames: u32, samples: seq<u32>)
    ensures Make(Empty.channels, sampleRate, frames, samples) == Err(InvalidChannelCount)
    ensures !Valid(Empty)
  {
  }

  /**
   The constructor as written: `channels * f` is evaluated in 32-bit
   unsigned arithmetic before it is compared with the sample count.
   */
  function MakeAsWritten(channels: u16, sampleRate: u32, frames: u32, samples: seq<u32>): (r: Result<Wav>)
    ensures r.Ok? <==> channels >= 1 && sampleRate != 0 && |samples| == (channels * frames) % U32_LIMIT
    ensures r.Ok? ==> r.value == Wav(channels, sampleRate, frames, samples)
  {
    if channels < 1 then Err(InvalidChannelCount)
    else if sampleRate == 0 then Err(InvalidSampleRate)
    else if |samples| != (channels * frames) % U32_LIMIT then Err(InvalidSampleCount)
    else Ok(Wav(channels, sampleRate, frames, samples))
  }

  /** The two agree whenever the product fits in 32 bits. */
  lemma MakeAsWrittenAgrees(channels: u16, sampleRate: u32, frames: u32, samples: seq<u32>)
    requires channels * frames < U32_LIMIT
    ensures MakeAsWritten(channels, sampleRate, frames, samples) == Make(channels, sampleRate, frames, samples)
  {
  }

  /**
   Beyond 32 bits the written check lets through a Wav whose samples do
   not fill its frames: two channels of 2^31 frames with no samples at all.
   */
  lemma MakeAsWrittenAcceptsEmptyBuffer()
    ensures MakeAsWritten(2, 44100, 0x8000_0000, []).Ok?
    ensures !Valid(MakeAsWritten(2, 44100, 0x8000_0000, []).value)
    ensures Make(2, 44100, 0x8000_0000, []) == Err(InvalidSampleCount)
  {
  }

  /** The constructions of the reference tests: both succeed and keep their fields. */
  lemma ReferenceConstruction()
    ensures Make(2, 44100, 1, [0, 0]) == Ok(Wav(2, 44100, 1, [0, 0]))
    ensures Make(2, 48000, 3, [0x3F80_0000, 0x3F80_0000, 0xBF80_0000, 0xBF80_0000, 0, 0])
         == Ok(Wav(2, 48000, 3, [0x3F80_0000, 0x3F80_0000, 0xBF80_0000, 0xBF80_0000, 0, 0]))
  {
  }

  /** One construction per error of the constructor, each checked in turn. */
  lemma ConstructionErrors()
    ensures Make(0, 44100, 1, [0, 0]) == Err(InvalidChannelCount)
    ensures Make(0, 0, 5, []) == Err(InvalidChannelCount)
    ensures Make(2, 0, 1, [0, 0]) == Err(InvalidSampleRate)
    ensures Make(2, 44100, 2, [0, 0]) == Err(InvalidSampleCount)
  {
  }
}
