/** Bytes and the fixed-width integer encodings that the logger copies into its buffers. */
module Bytes {

  type Byte = b: int | 0 <= b < 256

  /** The `n` lowest bytes of `v`, least significant first: what a little-endian host copies. */
  function LittleEndian(v: nat, n: nat): (r: seq<Byte>)
    ensures |r| == n
  {
    if n == 0 then [] else [v % 256] + LittleEndian(v / 256, n - 1)
  }

  function FromLittleEndian(s: seq<Byte>): (v: nat) {
    if s == [] then 0 else s[0] + 256 * FromLittleEndian(s[1..])
  }

  function Pow256(n: nat): (p: nat)
    ensures p > 0
  {
    if n == 0 then 1 else 256 * Pow256(n - 1)
  }

  lemma {:induction false} LittleEndianRoundTrip(v: nat, n: nat)
    requires v < Pow256(n)
    ensures FromLittleEndian(LittleEndian(v, n)) == v
  {
    if n > 0 {
      LittleEndianRoundTrip(v / 256, n - 1);
      assert LittleEndian(v, n)[1..] == LittleEndian(v / 256, n - 1);
    }
  }

  /** A 64-bit length field holds every value below 2^64. */
  lemma LengthFieldRoundTrip(v: nat)
    requires v < 0x1_0000_0000_0000_0000
    ensures FromLittleEndian(LittleEndian(v, 8)) == v
  {
    assert Pow256(4) == 0x1_0000_0000;
    assert Pow256(8) == 256 * 256 * 256 * 256 * Pow256(4);
    LittleEndianRoundTrip(v, 8);
  }

  lemma TwoBytes(a: Byte, b: Byte)
    ensures FromLittleEndian([a, b]) == (a as nat) + 256 * (b as nat)
  {
    assert [a, b][1..] == [b] && [b][1..] == [];
    assert FromLittleEndian([b]) == b as nat;
  }
}
