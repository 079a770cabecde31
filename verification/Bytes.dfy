/** Byte strings, as `std::string` and `std::string_view` hold them, and the little-endian
    integers that the hash, the ELF reader and the argument packer read and write. */
module Bytes {

  newtype byte = b: int | 0 <= b < 256

  type bytes = seq<byte>

  /** What a 64-bit `std::string` can hold: its size fits the signed 64-bit integer that the hash frames with. */
  type Str = s: bytes | |s| < 0x8000_0000_0000_0000

  datatype Option<+T> = None | Some(value: T)

  function ByteOf(n: nat): byte
    requires n < 256
  {
    n as byte
  }

  function ValueOf(b: byte): (n: nat)
    ensures n < 256
  {
    b as nat
  }

  function Pow256(k: nat): (p: nat)
    ensures p > 0
  {
    if k == 0 then 1 else 256 * Pow256(k - 1)
  }

  /** The low `width` bytes of n, least significant first. */
  function LittleEndian(n: nat, width: nat): (bs: bytes)
    ensures |bs| == width
  {
    if width == 0 then [] else [ByteOf(n % 256)] + LittleEndian(n / 256, width - 1)
  }

  /** The unsigned number whose little-endian bytes are bs. */
  function FromLittleEndian(bs: bytes): nat {
    if bs == [] then 0 else ValueOf(bs[0]) + 256 * FromLittleEndian(bs[1..])
  }

  lemma {:induction false} LittleEndianRoundTrip(n: nat, width: nat)
    requires n < Pow256(width)
    ensures FromLittleEndian(LittleEndian(n, width)) == n
  {
    if width > 0 {
      LittleEndianRoundTrip(n / 256, width - 1);
      assert LittleEndian(n, width)[1..] == LittleEndian(n / 256, width - 1);
    }
  }

  /** n shifted right by k bytes. */
  function ShiftRight(n: nat, k: nat): nat { if k == 0 then n else ShiftRight(n / 256, k - 1) }

  lemma {:induction false} LittleEndianAt(n: nat, width: nat, k: nat)
    requires k < width
    ensures LittleEndian(n, width)[k] == ByteOf(ShiftRight(n, k) % 256)
  {
    if k > 0 {
      LittleEndianAt(n / 256, width - 1, k - 1);
    }
  }

  lemma {:induction false} FromLittleEndianBound(bs: bytes)
    ensures FromLittleEndian(bs) < Pow256(|bs|)
  {
    if bs != [] {
      FromLittleEndianBound(bs[1..]);
    }
  }
}
