/**
 The sample words of a WAVE `data` chunk. Integer PCM words are 8-bit
 unsigned or 16/24/32-bit little-endian two's complement; IEEE-float words
 are kept as their 32-bit pattern. Normalisation of a PCM word to a float
 is stated exactly over the reals; the float the host rounds it to is left
 to the caller of the decoder.
 */
module Samples {
  import opened Bytes

  const WAVE_FORMAT_PCM: u16 := 1
  const WAVE_FORMAT_IEEE_FLOAT: u16 := 3

  /** A PCM sample word as read: the depth it was stored at and the integer it holds. */
  datatype Pcm = Pcm(bits: nat, raw: int)

  predicate PcmDepth(bits: nat) {
    bits == 8 || bits == 16 || bits == 24 || bits == 32
  }

  /** The format-tag and bit-depth pairs the decoder converts; every other pair is an unsupported bit depth. */
  predicate Supported(formatTag: nat, bits: nat) {
    || (formatTag == WAVE_FORMAT_PCM as nat && PcmDepth(bits))
    || (formatTag == WAVE_FORMAT_IEEE_FLOAT as nat && bits == 32)
  }

  /** Number of distinct words of `bits` bits. */
  function Modulus(bits: nat): (m: nat)
    requires PcmDepth(bits)
    ensures m == Pow256(bits / 8)
  {
    assert Pow256(1) == 0x100 && Pow256(2) == 0x1_0000;
    assert Pow256(3) == 0x100_0000 && Pow256(4) == 0x1_0000_0000;
    if bits == 8 then 0x100
    else if bits == 16 then 0x1_0000
    else if bits == 24 then 0x100_0000
    else 0x1_0000_0000
  }

  /** Smallest integer a PCM word of `bits` bits holds. */
  function MinRaw(bits: nat): int
    requires PcmDepth(bits)
  {
    if bits == 8 then 0 else -(Modulus(bits) / 2)
  }

  /** One more than the largest integer a PCM word of `bits` bits holds. */
  function MaxRaw(bits: nat): int
    requires PcmDepth(bits)
  {
    if bits == 8 then Modulus(bits) else Modulus(bits) / 2
  }

  /** The integer stored in a PCM word: unsigned at 8 bits, sign-extended from the top bit otherwise. */
  function RawPcm(bits: nat, word: seq<byte>): (v: int)
    requires PcmDepth(bits) && |word| == bits / 8
    ensures MinRaw(bits) <= v < MaxRaw(bits)
    ensures bits == 8 ==> v == word[0]
    ensures bits > 8 ==> (v < 0 <==> word[|word| - 1] >= 0x80)
  {
    if bits == 8 then word[0]
    else if bits == 16 then
      var u := U16At(word, 0);
      if u >= 0x8000 then u - 0x1_0000 else u
    else if bits == 24 then
      var u := word[0] as int + 0x100 * word[1] as int + 0x1_0000 * word[2] as int;
      if word[2] >= 0x80 then u - 0x100_0000 else u
    else
      var u := U32At(word, 0);
      if u >= 0x8000_0000 then u - 0x1_0000_0000 else u
  }

  /** The word the integer `raw` is stored as at `bits` bits (two's complement above 8 bits). */
  function PcmWord(bits: nat, raw: int): (word: seq<byte>)
    requires PcmDepth(bits) && MinRaw(bits) <= raw < MaxRaw(bits)
    ensures |word| == bits / 8
  {
    LeBytes(if raw < 0 then raw + Modulus(bits) else raw, bits / 8)
  }

  /** The unsigned value of a 3-byte word. */
  lemma LeValue3(w: seq<byte>)
    requires |w| == 3
    ensures LeValue(w) == w[0] as int + 0x100 * w[1] as int + 0x1_0000 * w[2] as int
  {
    assert LeValue(w[1..][1..][1..]) == 0;
    assert LeValue(w[1..][1..]) == w[2];
  }

  /** Reading back the word written for `raw` gives `raw`. */
  lemma RawOfPcmWord(bits: nat, raw: int)
    requires PcmDepth(bits) && MinRaw(bits) <= raw < MaxRaw(bits)
    ensures RawPcm(bits, PcmWord(bits, raw)) == raw
  {
    var u := if raw < 0 then raw + Modulus(bits) else raw;
    var w := PcmWord(bits, raw);
    LeValueOfBytes(u, bits / 8);
    assert LeValue(w) == u;
    if bits == 8 {
      assert LeValue(w[1..]) == 0;
    } else if bits == 16 {
      assert w[0..2] == w;
    } else if bits == 24 {
      LeValue3(w);
    } else {
      assert w[0..4] == w;
    }
  }

  /** Every word is the one written for the integer it holds, so the decoding is one-to-one. */
  lemma PcmWordOfRaw(bits: nat, word: seq<byte>)
    requires PcmDepth(bits) && |word| == bits / 8
    ensures PcmWord(bits, RawPcm(bits, word)) == word
  {
    var v := RawPcm(bits, word);
    var u := if v < 0 then v + Modulus(bits) else v;
    LeBytesOfValue(word);
    if bits == 8 {
      assert LeValue(word[1..]) == 0;
    } else if bits == 16 {
      assert word[0..2] == word;
    } else if bits == 24 {
      LeValue3(word);
    } else {
      assert word[0..4] == word;
    }
    assert u == LeValue(word);
  }

  /** The divisor a PCM word is scaled by: 255 (after doubling and re-centring), 32767, 8388607, 2147483647. */
  function Divisor(bits: nat): (d: nat)
    requires PcmDepth(bits)
    ensures d == MaxRaw(bits) - 1
  {
    if bits == 8 then 255
    else if bits == 16 then 32767
    else if bits == 24 then 8388607
    else 2147483647
  }

  /** The exact real value the decoder's float formula denotes for a PCM word. */
  function Normalized(p: Pcm): real
    requires PcmDepth(p.bits)
  {
    if p.bits == 8 then 2.0 * p.raw as real / 255.0 - 1.0
    else p.raw as real / Divisor(p.bits) as real
  }

  /** The bounds of a normalised word at a depth above 8 bits, for a divisor `d` and a raw value in [-(d + 1), d]. */
  lemma ScaledRange(v: int, d: nat)
    requires d > 0 && -(d + 1) <= v <= d
    ensures -1.0 - 1.0 / d as real <= v as real / d as real <= 1.0
    ensures v as real / d as real < -1.0 <==> v == -(d + 1)
  {
    var n := v as real / d as real;
    assert n * d as real == v as real;
    assert -1.0 - 1.0 / d as real == -(d as real + 1.0) / d as real;
  }

  /** Normalised PCM lies in [-1, 1] except the most negative word, which sits one step below -1: nothing is clamped. */
  lemma NormalizedRange(bits: nat, word: seq<byte>)
    requires PcmDepth(bits) && |word| == bits / 8
    ensures var n := Normalized(Pcm(bits, RawPcm(bits, word)));
      -1.0 - 1.0 / Divisor(bits) as real <= n <= 1.0
    ensures var n := Normalized(Pcm(bits, RawPcm(bits, word)));
      n < -1.0 <==> bits > 8 && RawPcm(bits, word) == MinRaw(bits)
  {
    var v := RawPcm(bits, word);
    if bits > 8 {
      ScaledRange(v, Divisor(bits));
    }
  }

  /** The 16-bit words of the reference recording decode to full scale and silence. */
  lemma ReferenceWords16()
    ensures RawPcm(16, [0xFF, 0x7F]) == 32767 && Normalized(Pcm(16, 32767)) == 1.0
    ensures RawPcm(16, [0x01, 0x80]) == -32767 && Normalized(Pcm(16, -32767)) == -1.0
    ensures RawPcm(16, [0x00, 0x00]) == 0 && Normalized(Pcm(16, 0)) == 0.0
  {
  }

  /** The 24-bit words of the reference recording decode to full scale and silence. */
  lemma ReferenceWords24()
    ensures RawPcm(24, [0xFF, 0xFF, 0x7F]) == 8388607 && Normalized(Pcm(24, 8388607)) == 1.0
    ensures RawPcm(24, [0x01, 0x00, 0x80]) == -8388607 && Normalized(Pcm(24, -8388607)) == -1.0
    ensures RawPcm(24, [0x00, 0x00, 0x00]) == 0 && Normalized(Pcm(24, 0)) == 0.0
  {
  }

  /** The 8-bit scale maps the unsigned extremes to -1 and 1. */
  lemma ReferenceWords8()
    ensures RawPcm(8, [0x00]) == 0 && Normalized(Pcm(8, 0)) == -1.0
    ensures RawPcm(8, [0xFF]) == 255 && Normalized(Pcm(8, 255)) == 1.0
  {
  }
}
