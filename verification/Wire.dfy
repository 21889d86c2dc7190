// Bytes, fixed-width integers and their layouts on the wire
// (the little- and big-endian helpers of src/shared/util.h).

module Wire {
  type byte = n: int | 0 <= n < 0x100
  type u16 = n: int | 0 <= n < 0x1_0000
  type u32 = n: int | 0 <= n < 0x1_0000_0000

  datatype Option<+T> = None | Some(value: T)

  // C's `++` on a uint16_t.
  function Succ16(n: u16): u16 { if n == 0xFFFF then 0 else n + 1 }

  function PutLe16(v: u16): (s: seq<byte>) { [v % 0x100, v / 0x100] }

  function GetLe16(s: seq<byte>, i: nat): (v: u16)
    requires i + 2 <= |s|
  {
    var lo: int, hi: int := s[i], s[i + 1];
    lo + 0x100 * hi
  }

  function PutLe32(v: u32): (s: seq<byte>) { PutLe16(v % 0x1_0000) + PutLe16(v / 0x1_0000) }

  function GetLe32(s: seq<byte>, i: nat): (v: u32)
    requires i + 4 <= |s|
  {
    var lo: int, hi: int := GetLe16(s, i), GetLe16(s, i + 2);
    lo + 0x1_0000 * hi
  }

  function PutBe16(v: u16): (s: seq<byte>) { [v / 0x100, v % 0x100] }

  function GetBe16(s: seq<byte>, i: nat): (v: u16)
    requires i + 2 <= |s|
  {
    var hi: int, lo: int := s[i], s[i + 1];
    0x100 * hi + lo
  }

  function PutBe32(v: u32): (s: seq<byte>) { PutBe16(v / 0x1_0000) + PutBe16(v % 0x1_0000) }

  function GetBe32(s: seq<byte>, i: nat): (v: u32)
    requires i + 4 <= |s|
  {
    var hi: int, lo: int := GetBe16(s, i), GetBe16(s, i + 2);
    0x1_0000 * hi + lo
  }

  function Reverse<T>(s: seq<T>): (r: seq<T>)
    ensures |r| == |s|
    ensures forall i :: 0 <= i < |s| ==> r[i] == s[|s| - 1 - i]
  {
    seq(|s|, i requires 0 <= i < |s| => s[|s| - 1 - i])
  }

  function Min(a: int, b: int): int { if a <= b then a else b }
}
