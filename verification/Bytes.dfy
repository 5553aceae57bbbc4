/** Bytes and the big-endian integers of both wire formats. */
module Bytes {
  const U16_LIMIT: int := 0x1_0000
  const U32_LIMIT: int := 0x1_0000_0000

  type byte = x: int | 0 <= x < 256
  type u16 = x: int | 0 <= x < U16_LIMIT
  type u32 = x: int | 0 <= x < U32_LIMIT

  function U16(n: u16): (s: seq<byte>)
    ensures |s| == 2
  {
    [n / 256, n % 256]
  }

  function U32(n: u32): (s: seq<byte>)
    ensures |s| == 4
  {
    [n / 256 / 256 / 256, n / 256 / 256 % 256, n / 256 % 256, n % 256]
  }

  function ReadU16(s: seq<byte>, off: nat): (n: u16)
    requires off + 2 <= |s|
  {
    (s[off] as int) * 256 + s[off + 1]
  }

  function ReadU32(s: seq<byte>, off: nat): (n: u32)
    requires off + 4 <= |s|
  {
    (((s[off] as int) * 256 + s[off + 1]) * 256 + s[off + 2]) * 256 + s[off + 3]
  }

  /** Reading back a 16-bit field wherever it was placed. */
  lemma ReadU16Back(s: seq<byte>, off: nat, n: u16)
    requires off + 2 <= |s| && s[off..off + 2] == U16(n)
    ensures ReadU16(s, off) == n
  {
    var f := s[off..off + 2];
    assert f[0] == s[off] && f[1] == s[off + 1];
  }

  lemma ReadU32Back(s: seq<byte>, off: nat, n: u32)
    requires off + 4 <= |s| && s[off..off + 4] == U32(n)
    ensures ReadU32(s, off) == n
  {
    var f := s[off..off + 4];
    assert f[0] == s[off] && f[1] == s[off + 1] && f[2] == s[off + 2] && f[3] == s[off + 3];
  }

  /** A field that was read writes back to the bytes it came from. */
  lemma WriteU16Back(s: seq<byte>, off: nat)
    requires off + 2 <= |s|
    ensures U16(ReadU16(s, off)) == s[off..off + 2]
  {
  }

  lemma WriteU32Back(s: seq<byte>, off: nat)
    requires off + 4 <= |s|
    ensures U32(ReadU32(s, off)) == s[off..off + 4]
  {
    var n := ReadU32(s, off);
    assert n / 256 == ((s[off] as int) * 256 + s[off + 1]) * 256 + s[off + 2];
    assert n / 256 / 256 == (s[off] as int) * 256 + s[off + 1];
  }

  /** after is what is left of before once some of its first bytes are gone. */
  predicate Tail(before: seq<byte>, after: seq<byte>) {
    |after| <= |before| && after == before[|before| - |after|..]
  }
}
