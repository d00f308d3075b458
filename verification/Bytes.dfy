/** Octets, and the big-endian integers every protocol here writes with them. */
module Bytes {
  type byte = x: int | 0 <= x < 0x100
  type u16 = x: int | 0 <= x < 0x1_0000
  type u32 = x: int | 0 <= x < 0x1_0000_0000

  function PutU16(v: u16): (b: seq<byte>)
    ensures |b| == 2
  {
    [v / 0x100, v % 0x100]
  }

  function PutU32(v: u32): (b: seq<byte>)
    ensures |b| == 4
  {
    PutU16(v / 0x1_0000) + PutU16(v % 0x1_0000)
  }

  function U16Of(b: seq<byte>): u16
    requires |b| == 2
  {
    var high: int := b[0];
    high * 0x100 + b[1]
  }

  function U32Of(b: seq<byte>): u32
    requires |b| == 4
  {
    var high: int := U16Of(b[..2]);
    high * 0x1_0000 + U16Of(b[2..])
  }

  lemma U16Inverse(v: u16, b: seq<byte>)
    requires |b| == 2
    ensures U16Of(PutU16(v)) == v && PutU16(U16Of(b)) == b
  {}

  /** Reading undoes writing, and writing undoes reading. */
  lemma U32Inverse(v: u32, b: seq<byte>)
    requires |b| == 4
    ensures U32Of(PutU32(v)) == v && PutU32(U32Of(b)) == b
  {
    assert PutU32(v)[..2] == PutU16(v / 0x1_0000) && PutU32(v)[2..] == PutU16(v % 0x1_0000);
    U16Inverse(v / 0x1_0000, b[..2]);
    U16Inverse(v % 0x1_0000, b[2..]);
    assert b == b[..2] + b[2..];
    assert U32Of(b) / 0x1_0000 == U16Of(b[..2]) && U32Of(b) % 0x1_0000 == U16Of(b[2..]);
  }

  /** Two's complement: what an octet string means when it is read as signed. */
  function Signed(v: int, span: int): int
    requires 0 <= v < span
  {
    if v < span / 2 then v else v - span
  }

  function Unsigned(v: int, span: int): int
    requires -(span / 2) <= v < span / 2 && span % 2 == 0
  {
    if v < 0 then v + span else v
  }

  function Concat<T>(parts: seq<seq<T>>): seq<T> {
    if parts == [] then [] else parts[0] + Concat(parts[1..])
  }
}
