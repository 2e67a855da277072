/**
 Unsigned integer widths and the little-endian byte order used by every
 multi-byte field of a RIFF file. The writer stores the low `n` bytes of a
 value (shift-and-truncate); the reader assembles them back, least
 significant byte first.
 */
module Bytes {

  type byte = x: int | 0 <= x < 0x100
  type u16 = x: int | 0 <= x < 0x1_0000
  type u32 = x: int | 0 <= x < 0x1_0000_0000

  const U16_LIMIT: nat := 0x1_0000
  const U32_LIMIT: nat := 0x1_0000_0000

  /** 256 to the power `n`: one more than the largest value `n` bytes hold. */
  function Pow256(n: nat): (p: nat)
    ensures p >= 1
  {
    if n == 0 then 1 else 0x100 * Pow256(n - 1)
  }

  /** The unsigned value of `s` read least significant byte first. */
  function LeValue(s: seq<byte>): (v: nat)
    ensures v < Pow256(|s|)
  {
    if |s| == 0 then 0 else s[0] + 0x100 * LeValue(s[1..])
  }

  /** The `n` low-order bytes of `x`, least significant first; byte `k` is `x >> 8k` truncated to 8 bits. */
  function LeBytes(x: nat, n: nat): (s: seq<byte>)
    ensures |s| == n
  {
    if n == 0 then [] else [x % 0x100] + LeBytes(x / 0x100, n - 1)
  }

  /** A 16-bit field at position `i` of `s`. */
  function U16At(s: seq<byte>, i: nat): (v: u16)
    requires i + 2 <= |s|
    ensures v == s[i] as int + 0x100 * s[i + 1] as int
  {
    var w := s[i..i + 2];
    assert LeValue(w[1..]) == s[i + 1] + 0x100 * LeValue(w[1..][1..]);
    assert LeValue(w[1..][1..]) == 0;
    LeValue(w)
  }

  /** A 32-bit field at position `i` of `s`. */
  function U32At(s: seq<byte>, i: nat): (v: u32)
    requires i + 4 <= |s|
    ensures v == s[i] as int + 0x100 * s[i + 1] as int + 0x1_0000 * s[i + 2] as int + 0x100_0000 * s[i + 3] as int
  {
    var w := s[i..i + 4];
    var w1, w2, w3 := w[1..], w[1..][1..], w[1..][1..][1..];
    assert LeValue(w3[1..]) == 0;
    assert LeValue(w3) == s[i + 3];
    assert LeValue(w2) == s[i + 2] + 0x100 * LeValue(w3);
    assert LeValue(w1) == s[i + 1] + 0x100 * LeValue(w2);
    LeValue(w)
  }

  /** Writing a value that fits in `n` bytes and reading it back gives the value. */
  lemma {:induction false} LeValueOfBytes(x: nat, n: nat)
    requires x < Pow256(n)
    ensures LeValue(LeBytes(x, n)) == x
  {
    if n > 0 {
      var s := LeBytes(x, n);
      assert s[1..] == LeBytes(x / 0x100, n - 1);
      assert x / 0x100 < Pow256(n - 1);
      LeValueOfBytes(x / 0x100, n - 1);
    }
  }

  /** Reading `n` bytes and writing the value back gives the same bytes. */
  lemma {:induction false} LeBytesOfValue(s: seq<byte>)
    ensures LeBytes(LeValue(s), |s|) == s
  {
    if |s| > 0 {
      var v := LeValue(s);
      assert v % 0x100 == s[0];
      assert v / 0x100 == LeValue(s[1..]);
      LeBytesOfValue(s[1..]);
      assert s == [s[0]] + s[1..];
    }
  }

  /** The 16-bit field written for `x` reads back as `x`. */
  lemma U16RoundTrip(x: u16, s: seq<byte>, i: nat)
    requires i + 2 <= |s| && s[i..i + 2] == LeBytes(x, 2)
    ensures U16At(s, i) == x
  {
    LeValueOfBytes(x, 2);
  }

  /** The 32-bit field written for `x` reads back as `x`. */
  lemma U32RoundTrip(x: u32, s: seq<byte>, i: nat)
    requires i + 4 <= |s| && s[i..i + 4] == LeBytes(x, 4)
    ensures U32At(s, i) == x
  {
    LeValueOfBytes(x, 4);
  }
}
