/**
 * Bytes and the little-endian 32-bit reads that GIFImage performs with
 * BitConverter.ToInt32 on a little-endian host.
 */
module BinaryData {

  newtype byte = x: int | 0 <= x < 256

  const TwoTo31: int := 0x8000_0000
  const TwoTo32: int := 0x1_0000_0000

  predicate IsInt32(v: int) {
    -TwoTo31 <= v < TwoTo31
  }

  /** The unsigned value of the four bytes at `offset`, least significant byte first. */
  function UInt32LE(bytes: seq<byte>, offset: nat): (u: int)
    requires offset + 4 <= |bytes|
    ensures 0 <= u < TwoTo32
  {
    bytes[offset] as int + 256 * (bytes[offset + 1] as int + 256 * (bytes[offset + 2] as int + 256 * bytes[offset + 3] as int))
  }

  /**
   * BitConverter.ToInt32(bytes, offset): the same four bytes read as a
   * two's-complement signed 32-bit integer.
   */
  function ToInt32(bytes: seq<byte>, offset: nat): (v: int)
    requires offset + 4 <= |bytes|
    ensures IsInt32(v)
    ensures v >= 0 ==> v == UInt32LE(bytes, offset)
    ensures v < 0 ==> v + TwoTo32 == UInt32LE(bytes, offset)
  {
    var u := UInt32LE(bytes, offset);
    if u < TwoTo31 then u else u - TwoTo32
  }

  /** The four little-endian bytes of a signed 32-bit integer (BitConverter.GetBytes). */
  function Int32Bytes(v: int): (bytes: seq<byte>)
    requires IsInt32(v)
    ensures |bytes| == 4
    ensures (v < 0) == (bytes[3] >= 128)
  {
    var u := if v < 0 then v + TwoTo32 else v;
    var r1 := u / 256;
    var r2 := r1 / 256;
    [(u % 256) as byte, (r1 % 256) as byte, (r2 % 256) as byte, (r2 / 256) as byte]
  }

  /** Reading back what Int32Bytes wrote gives the original integer. */
  lemma ReadWritten(v: int)
    requires IsInt32(v)
    ensures ToInt32(Int32Bytes(v), 0) == v
  {
    var u := if v < 0 then v + TwoTo32 else v;
    var r1 := u / 256;
    var r2 := r1 / 256;
    assert u == u % 256 + 256 * (r1 % 256 + 256 * (r2 % 256 + 256 * (r2 / 256)));
    assert UInt32LE(Int32Bytes(v), 0) == u;
  }

  /** Writing what ToInt32 read gives back the same four bytes. */
  lemma WrittenRead(bytes: seq<byte>, offset: nat)
    requires offset + 4 <= |bytes|
    ensures Int32Bytes(ToInt32(bytes, offset)) == bytes[offset..offset + 4]
  {
    var b0, b1, b2, b3 := bytes[offset] as int, bytes[offset + 1] as int, bytes[offset + 2] as int, bytes[offset + 3] as int;
    var u := UInt32LE(bytes, offset);
    var r1 := b1 + 256 * (b2 + 256 * b3);
    var r2 := b2 + 256 * b3;
    assert u == b0 + 256 * r1;
    DivMod256(b0, r1);
    DivMod256(b1, r2);
    DivMod256(b2, b3);
    var w := Int32Bytes(ToInt32(bytes, offset));
    assert w[0] as int == b0 && w[1] as int == b1 && w[2] as int == b2 && w[3] as int == b3;
  }

  lemma DivMod256(low: int, high: int)
    requires 0 <= low < 256 && 0 <= high
    ensures (low + 256 * high) / 256 == high
    ensures (low + 256 * high) % 256 == low
  {
  }
}
