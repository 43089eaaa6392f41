/** Fixed-width unsigned integers and their little-endian byte layout
    (Go's binary.LittleEndian and the shift-and-mask writes of the C firmware). */
module LittleEndian {

  type byte = x: int | 0 <= x < 0x100
  type u16 = x: int | 0 <= x < 0x1_0000
  type u32 = x: int | 0 <= x < 0x1_0000_0000

  const U32Modulus: int := 0x1_0000_0000

  /** `x++` on a uint32: wraps to 0 after 0xFFFF_FFFF. */
  function Inc32(x: u32): (r: u32)
    ensures x < U32Modulus - 1 ==> r == x + 1
    ensures x == U32Modulus - 1 ==> r == 0
  {
    (x + 1) % U32Modulus
  }

  /** Byte k (0 = least significant) of v: `(v >> 8k) & 0xFF`. */
  function ByteAt(v: u32, k: nat): byte
    requires k < 4
  {
    if k == 0 then v % 0x100
    else if k == 1 then (v / 0x100) % 0x100
    else if k == 2 then (v / 0x100 / 0x100) % 0x100
    else v / 0x100 / 0x100 / 0x100
  }

  /** The four bytes of v, least significant first (PutUint32). */
  function Le32(v: u32): (r: seq<byte>)
    ensures |r| == 4
  {
    [ByteAt(v, 0), ByteAt(v, 1), ByteAt(v, 2), ByteAt(v, 3)]
  }

  /** The uint32 read from four bytes, least significant first (Uint32). */
  function FromLe32(b: seq<byte>): (v: u32)
    requires |b| == 4
  {
    b[0] as int + 0x100 * (b[1] as int + 0x100 * (b[2] as int + 0x100 * b[3] as int))
  }

  /** Reading back what was written gives the original value. */
  lemma FromLe32OfLe32(v: u32)
    ensures FromLe32(Le32(v)) == v
  {
    var b0, q0 := v % 0x100, v / 0x100;
    var b1, q1 := q0 % 0x100, q0 / 0x100;
    var b2, b3 := q1 % 0x100, q1 / 0x100;
    assert v == b0 + 0x100 * q0;
    assert q0 == b1 + 0x100 * q1;
    assert q1 == b2 + 0x100 * b3;
    assert Le32(v) == [b0, b1, b2, b3];
  }

  /** Writing back what was read gives the original four bytes. */
  lemma Le32OfFromLe32(b: seq<byte>)
    requires |b| == 4
    ensures Le32(FromLe32(b)) == b
  {
    var v := FromLe32(b);
    var q1: int := b[2] as int + 0x100 * b[3] as int;
    var q0: int := b[1] as int + 0x100 * q1;
    assert v == b[0] + 0x100 * q0;
    assert v % 0x100 == b[0] && v / 0x100 == q0;
    assert q0 % 0x100 == b[1] && q0 / 0x100 == q1;
    assert q1 % 0x100 == b[2] && q1 / 0x100 == b[3];
  }

  /** The layout is injective: distinct values have distinct encodings. */
  lemma Le32Injective(v: u32, w: u32)
    requires Le32(v) == Le32(w)
    ensures v == w
  {
    FromLe32OfLe32(v);
    FromLe32OfLe32(w);
  }

  /** PutUint32 (and the C shift-and-mask writes) into a[off..off+4]; nothing else in the array changes. */
  method PutUint32(a: array<byte>, off: nat, v: u32)
    requires off + 4 <= a.Length
    modifies a
    ensures a[off..off + 4] == Le32(v)
    ensures forall i :: 0 <= i < a.Length && !(off <= i < off + 4) ==> a[i] == old(a[i])
  {
    a[off] := ByteAt(v, 0);
    a[off + 1] := ByteAt(v, 1);
    a[off + 2] := ByteAt(v, 2);
    a[off + 3] := ByteAt(v, 3);
  }
}
