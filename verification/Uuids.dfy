// UUIDs: conversion, comparison, printing and parsing (lib/uuid.c).

module Uuids {
  import opened Wire

  type Bytes16 = s: seq<byte> | |s| == 16 witness seq(16, _ => 0)

  // bt_uuid_t.  128-bit values are big-endian.
  datatype Uuid = Unspec | U16(v16: u16) | U32(v32: u32) | U128(v128: Bytes16)

  const EINVAL: int := 22

  const BASE: Bytes16 := [0, 0, 0, 0, 0, 0, 0x10, 0, 0x80, 0, 0, 0x80, 0x5F, 0x9B, 0x34, 0xFB]

  // bt_uuid_to_uuid128; an unspecified UUID leaves the destination alone.
  function Expand(u: Uuid): (b: Bytes16)
    requires !u.Unspec?
  {
    match u
    case U128(v) => v
    case U32(v) => PutBe32(v) + BASE[4..]
    case U16(v) => BASE[..2] + PutBe16(v) + BASE[4..]
  }

  // ---- Comparison ----------------------------------------------------------------------------

  // memcmp on equally long strings
  function MemCmp(a: seq<byte>, b: seq<byte>): int
    requires |a| == |b|
  {
    if a == [] then 0
    else if a[0] < b[0] then -1
    else if a[0] > b[0] then 1
    else MemCmp(a[1..], b[1..])
  }

  // bt_uuid_cmp
  function Compare(u: Uuid, v: Uuid): int
    requires !u.Unspec? && !v.Unspec?
  {
    MemCmp(Expand(u), Expand(v))
  }

  lemma {:induction false} MemCmpOrder(a: seq<byte>, b: seq<byte>)
    requires |a| == |b|
    ensures MemCmp(a, b) == -MemCmp(b, a)
    ensures MemCmp(a, b) == 0 <==> a == b
  {
    if a != [] {
      MemCmpOrder(a[1..], b[1..]);
      assert a == [a[0]] + a[1..] && b == [b[0]] + b[1..];
    }
  }

  lemma {:induction false} MemCmpTrans(a: seq<byte>, b: seq<byte>, c: seq<byte>)
    requires |a| == |b| == |c| && MemCmp(a, b) <= 0 && MemCmp(b, c) <= 0
    ensures MemCmp(a, c) <= 0
  {
    if a != [] {
      if a[0] == b[0] == c[0] {
        MemCmpTrans(a[1..], b[1..], c[1..]);
      }
    }
  }

  // A total order on 128-bit expansions, in which a UUID equals its expansion.
  lemma CompareIsTotalOrder(u: Uuid, v: Uuid, w: Uuid)
    requires !u.Unspec? && !v.Unspec? && !w.Unspec?
    ensures Compare(u, v) == 0 <==> Expand(u) == Expand(v)
    ensures Compare(u, v) == -Compare(v, u)
    ensures Compare(u, v) <= 0 && Compare(v, w) <= 0 ==> Compare(u, w) <= 0
    ensures Compare(u, U128(Expand(u))) == 0
  {
    MemCmpOrder(Expand(u), Expand(v));
    MemCmpOrder(Expand(u), Expand(u));
    if Compare(u, v) <= 0 && Compare(v, w) <= 0 {
      MemCmpTrans(Expand(u), Expand(v), Expand(w));
    }
  }

  // UUIDs of one short width are equal only when they are the same.
  lemma ExpandInjective(u: Uuid, v: Uuid)
    requires !u.Unspec? && !v.Unspec? && Expand(u) == Expand(v)
    ensures u.U16? && v.U16? ==> u == v
    ensures u.U32? && v.U32? ==> u == v
    ensures u.U16? && v.U32? ==> u.v16 == v.v32
  {
    var b := Expand(u);
    if u.U16? { assert b[2] == u.v16 / 0x100 && b[3] == u.v16 % 0x100 && b[0] == 0 && b[1] == 0; }
    if v.U16? { assert b[2] == v.v16 / 0x100 && b[3] == v.v16 % 0x100; }
    if u.U32? { Be32Back(u.v32, b); assert b[..4] == PutBe32(u.v32); }
    if v.U32? { Be32Back(v.v32, b); assert Expand(v)[..4] == PutBe32(v.v32); }
  }

  lemma Be32Back(v: u32, b: seq<byte>)
    requires |b| >= 4
    ensures b[..4] == PutBe32(v) ==> GetBe32(b, 0) == v
  {
    if b[..4] == PutBe32(v) {
      assert b[0] == PutBe32(v)[0] && b[1] == PutBe32(v)[1] && b[2] == PutBe32(v)[2] && b[3] == PutBe32(v)[3];
    }
  }

  // ---- The little-endian wire form -----------------------------------------------------------

  // bt_uuid_to_le and put_uuid_le
  function ToLe(u: Uuid): Option<seq<byte>> {
    match u
    case Unspec => None
    case U16(v) => Some(PutLe16(v))
    case _ => Some(Reverse(Expand(u)))
  }

  // get_uuid of attrib/att.c: the width says which kind it is
  function FromLe(s: seq<byte>): (u: Uuid)
    requires |s| == 2 || |s| == 16
    ensures !u.Unspec? && !u.U32?
  {
    if |s| == 2 then U16(GetLe16(s, 0)) else U128(Reverse(s))
  }

  lemma LeRoundTrip(u: Uuid)
    requires !u.Unspec?
    ensures ToLe(u).Some? && (|ToLe(u).value| == 2 || |ToLe(u).value| == 16)
    ensures FromLe(ToLe(u).value) == if u.U32? then U128(Expand(u)) else u
    ensures Compare(FromLe(ToLe(u).value), u) == 0
  {
    if !u.U16? {
      assert Reverse(Reverse(Expand(u))) == Expand(u);
    }
    MemCmpOrder(Expand(u), Expand(u));
  }

  lemma FromLeBack(s: seq<byte>)
    requires |s| == 2 || |s| == 16
    ensures ToLe(FromLe(s)) == Some(s)
  {
    if |s| == 2 {
      assert PutLe16(GetLe16(s, 0)) == s;
    } else {
      assert Reverse(Reverse(s)) == s;
    }
  }

  // ---- Hexadecimal ---------------------------------------------------------------------------

  function Digit(v: nat): char
    requires v < 16
  {
    if v < 10 then '0' + v as char else 'a' + (v - 10) as char
  }

  function HexVal(c: char): (v: Option<nat>)
    ensures v.Some? ==> v.value < 16
  {
    if '0' <= c <= '9' then Some(c as int - '0' as int)
    else if 'a' <= c <= 'f' then Some(c as int - 'a' as int + 10)
    else if 'A' <= c <= 'F' then Some(c as int - 'A' as int + 10)
    else None
  }

  predicate IsHex(s: string) { forall k :: 0 <= k < |s| ==> HexVal(s[k]).Some? }

  function HexValue(s: string): (v: nat)
    requires IsHex(s)
  {
    if s == [] then 0 else 16 * HexValue(s[..|s| - 1]) + HexVal(s[|s| - 1]).value
  }

  function Hex2(v: byte): string { [Digit(v / 0x10), Digit(v % 0x10)] }

  function Hex4(v: u16): string { Hex2(v / 0x100) + Hex2(v % 0x100) }

  function Hex8(v: u32): string { Hex4(v / 0x1_0000) + Hex4(v % 0x1_0000) }

  function ToLower(c: char): char { if 'A' <= c <= 'Z' then (c as int + 32) as char else c }

  function LowerAll(s: string): (r: string)
    ensures |r| == |s| && forall k :: 0 <= k < |s| ==> r[k] == ToLower(s[k])
  {
    seq(|s|, k requires 0 <= k < |s| => ToLower(s[k]))
  }

  lemma DigitOf(c: char)
    requires HexVal(c).Some?
    ensures Digit(HexVal(c).value) == ToLower(c)
  {
  }

  lemma Two(s: string)
    requires |s| == 2 && IsHex(s)
    ensures HexValue(s) == 0x10 * HexVal(s[0]).value + HexVal(s[1]).value
    ensures HexValue(s) < 0x100
  {
    assert s[..1][..0] == [];
    assert HexValue(s[..1]) == HexVal(s[0]).value;
  }

  lemma ParsesHex2(s: string)
    requires |s| == 2 && IsHex(s)
    ensures HexValue(s) < 0x100 && Hex2(HexValue(s)) == LowerAll(s)
  {
    hide Digit, ToLower, HexValue, Hex2;
    assert HexVal(s[0]).Some? && HexVal(s[1]).Some?;
    hide HexVal;
    Two(s);
    DigitOf(s[0]);
    DigitOf(s[1]);
    HexPair(HexVal(s[0]).value, HexVal(s[1]).value);
    assert LowerAll(s) == [ToLower(s[0]), ToLower(s[1])];
  }

  lemma HexPair(v: nat, w: nat)
    requires v < 16 && w < 16
    ensures Hex2(0x10 * v + w) == [Digit(v), Digit(w)]
  {
    hide Digit;
    assert (0x10 * v + w) / 0x10 == v && (0x10 * v + w) % 0x10 == w;
  }

  lemma LowerJoined(s: string, t: string)
    ensures LowerAll(s + t) == LowerAll(s) + LowerAll(t)
  {
    hide ToLower;
  }

  lemma HexJoined(s: string, t: string)
    requires IsHex(s) && IsHex(t)
    ensures IsHex(s + t)
  {
    hide HexVal;
  }

  lemma Appended(s: string, s1: string)
    requires IsHex(s) && IsHex(s1) && s != [] && s1 == s[..|s| - 1]
    ensures HexValue(s) == 16 * HexValue(s1) + HexVal(s[|s| - 1]).value
  {
  }

  lemma Scaled(p: int, x: int)
    ensures (16 * p) * x == 16 * (p * x)
  {
  }

  lemma {:induction false} Joined(s: string, t: string, scale: nat)
    requires IsHex(s) && IsHex(t) && scale == Power16(|t|)
    ensures IsHex(s + t) && HexValue(s + t) == scale * HexValue(s) + HexValue(t)
    decreases |t|
  {
    HexJoined(s, t);
    if t == [] {
      assert s + t == s;
    } else {
      var t1, p := t[..|t| - 1], Power16(|t| - 1);
      Joined(s, t1, p);
      Appended(s + t, s + t1);
      Appended(t, t1);
      hide HexValue, IsHex, HexVal;
      Scaled(p, HexValue(s));
    }
  }

  function Power16(n: nat): nat { if n == 0 then 1 else 16 * Power16(n - 1) }

  lemma Hex2Parses(v: byte)
    ensures IsHex(Hex2(v)) && HexValue(Hex2(v)) == v
  {
    Two(Hex2(v));
  }

  lemma Hex4Parses(v: u16)
    ensures |Hex4(v)| == 4 && IsHex(Hex4(v)) && HexValue(Hex4(v)) == v
  {
    var a, b := v / 0x100, v % 0x100;
    Hex2Parses(a);
    Hex2Parses(b);
    hide HexValue, IsHex, Digit;
    assert Power16(2) == 0x100;
    Joined(Hex2(a), Hex2(b), 0x100);
  }

  lemma Hex8Parses(v: u32)
    ensures |Hex8(v)| == 8 && IsHex(Hex8(v)) && HexValue(Hex8(v)) == v
  {
    var a, b := v / 0x1_0000, v % 0x1_0000;
    Hex4Parses(a);
    Hex4Parses(b);
    hide HexValue, IsHex, Hex4;
    assert Power16(2) == 0x100;
    assert Power16(4) == 0x1_0000;
    Joined(Hex4(a), Hex4(b), 0x1_0000);
  }

  lemma ParsesHex4(s: string)
    requires |s| == 4 && IsHex(s)
    ensures HexValue(s) < 0x1_0000 && Hex4(HexValue(s)) == LowerAll(s)
  {
    var a, b := s[..2], s[2..];
    assert s == a + b;
    LowerJoined(a, b);
    ParsesHex2(a);
    ParsesHex2(b);
    hide HexValue, IsHex, Hex2, ToLower;
    assert Power16(2) == 0x100;
    Joined(a, b, 0x100);
    assert (0x100 * HexValue(a) + HexValue(b)) / 0x100 == HexValue(a);
  }

  lemma ParsesHex8(s: string)
    requires |s| == 8 && IsHex(s)
    ensures HexValue(s) < 0x1_0000_0000 && Hex8(HexValue(s)) == LowerAll(s)
  {
    var a, b := s[..4], s[4..];
    assert s == a + b;
    LowerJoined(a, b);
    ParsesHex4(a);
    ParsesHex4(b);
    hide HexValue, IsHex, Hex4, ToLower;
    assert Power16(2) == 0x100;
    assert Power16(4) == 0x1_0000;
    Joined(a, b, 0x1_0000);
    assert (0x1_0000 * HexValue(a) + HexValue(b)) / 0x1_0000 == HexValue(a);
  }

  // ---- Printing and parsing ------------------------------------------------------------------

  // "%.8x-%.4x-%.4x-%.4x-%.8x%.4x" on the big-endian fields
  function Canonical(b: Bytes16): (s: string) {
    Hex8(GetBe32(b, 0)) + "-" + Hex4(GetBe16(b, 4)) + "-" + Hex4(GetBe16(b, 6)) + "-" + Hex4(GetBe16(b, 8)) + "-"
    + Hex8(GetBe32(b, 10)) + Hex4(GetBe16(b, 14))
  }

  // What snprintf leaves in a buffer of n characters, without the terminator.
  function Snprintf(s: string, n: nat): string { if n == 0 then "" else s[..Min(|s|, n - 1)] }

  // bt_uuid_to_string
  function Print(u: Uuid, n: nat): (int, string) {
    if u.Unspec? then (-EINVAL, Snprintf("NULL", n)) else (0, Snprintf(Canonical(Expand(u)), n))
  }

  // is_uuid128
  predicate LooksLike128(s: string) { |s| == 36 && s[8] == '-' && s[13] == '-' && s[18] == '-' && s[23] == '-' }

  // is_base_uuid128
  predicate LooksLikeBase(s: string) {
    && LooksLike128(s) && s[..4] == "0000" && IsHex(s[4..8]) && s[8..24] == "-0000-1000-8000-"
    && s[24..29] == "00805" && (s[29] == 'f' || s[29] == 'F') && s[30] == '9' && (s[31] == 'b' || s[31] == 'B')
    && s[32..34] == "34" && (s[34] == 'f' || s[34] == 'F') && (s[35] == 'b' || s[35] == 'B')
  }

  function HexRun(s: string): (n: nat)
    ensures n <= |s| && IsHex(s[..n])
  {
    if s == [] || HexVal(s[0]).None? then 0
    else
      var n := 1 + HexRun(s[1..]);
      assert forall k :: 0 < k < n ==> s[..n][k] == s[1..][..n - 1][k - 1];
      n
  }

  // strtol in base 16, with its optional 0x: the value and what is left.
  function StrToL(s: string): (nat, string) {
    var body := if |s| >= 3 && s[0] == '0' && (s[1] == 'x' || s[1] == 'X') && HexVal(s[2]).Some? then s[2..] else s;
    var n := HexRun(body);
    if n == 0 then (0, s) else (HexValue(body[..n]), body[n..])
  }

  // bt_string_to_uuid16
  function Parse16(s: string): Option<Uuid> {
    var (v, rest) := StrToL(s);
    if rest == [] || rest[0] == '-' then Some(U16(v % 0x1_0000)) else None
  }

  // bt_string_to_uuid32
  function Parse32(s: string): Option<Uuid> {
    var (v, rest) := StrToL(s);
    if rest == [] then Some(U32(v % 0x1_0000_0000)) else None
  }

  predicate Fields(s: string)
    requires LooksLike128(s)
  {
    && IsHex(s[..8]) && IsHex(s[9..13]) && IsHex(s[14..18]) && IsHex(s[19..23])
    && IsHex(s[24..32]) && IsHex(s[32..36])
  }

  function Assemble(v0: u32, v1: u16, v2: u16, v3: u16, v4: u32, v5: u16): Bytes16 {
    PutBe32(v0) + PutBe16(v1) + PutBe16(v2) + PutBe16(v3) + PutBe32(v4) + PutBe16(v5)
  }

  // bt_string_to_uuid128
  function Parse128(s: string): Option<Uuid>
    requires LooksLike128(s)
  {
    if !Fields(s) then None
    else Some(U128(Assemble(HexValue(s[..8]) % 0x1_0000_0000, HexValue(s[9..13]) % 0x1_0000, HexValue(s[14..18]) % 0x1_0000,
                            HexValue(s[19..23]) % 0x1_0000, HexValue(s[24..32]) % 0x1_0000_0000, HexValue(s[32..36]) % 0x1_0000)))
  }

  // bt_string_to_uuid
  function Parse(s: string): Option<Uuid> {
    if LooksLikeBase(s) then Parse16(s[4..])
    else if LooksLike128(s) then Parse128(s)
    else if |s| == 8 || |s| == 10 then Parse32(s)
    else if |s| == 4 || |s| == 6 then Parse16(s)
    else None
  }

  // The 16-bit UUIDs written out in full: the base UUID with a zero top half.
  predicate InBaseRange(b: Bytes16) { b[0] == 0 && b[1] == 0 && b[4..] == BASE[4..] }

  lemma Layout(p0: string, p1: string, p2: string, p3: string, p4: string, p5: string)
    requires |p0| == 8 && |p1| == 4 && |p2| == 4 && |p3| == 4 && |p4| == 8 && |p5| == 4
    ensures var s := p0 + "-" + p1 + "-" + p2 + "-" + p3 + "-" + p4 + p5;
            && LooksLike128(s) && s[..8] == p0 && s[9..13] == p1 && s[14..18] == p2
            && s[19..23] == p3 && s[24..32] == p4 && s[32..36] == p5
  {
  }

  lemma CanonicalParts(b: Bytes16)
    ensures var s := Canonical(b);
            && LooksLike128(s) && Fields(s)
            && s[..8] == Hex8(GetBe32(b, 0)) && s[9..13] == Hex4(GetBe16(b, 4)) && s[14..18] == Hex4(GetBe16(b, 6))
            && s[19..23] == Hex4(GetBe16(b, 8)) && s[24..32] == Hex8(GetBe32(b, 10)) && s[32..36] == Hex4(GetBe16(b, 14))
  {
    var p0, p1, p2, p3, p4, p5 :=
      Hex8(GetBe32(b, 0)), Hex4(GetBe16(b, 4)), Hex4(GetBe16(b, 6)), Hex4(GetBe16(b, 8)), Hex8(GetBe32(b, 10)), Hex4(GetBe16(b, 14));
    Hex8Parses(GetBe32(b, 0));
    Hex4Parses(GetBe16(b, 4));
    Hex4Parses(GetBe16(b, 6));
    Hex4Parses(GetBe16(b, 8));
    Hex8Parses(GetBe32(b, 10));
    Hex4Parses(GetBe16(b, 14));
    hide Hex4, Hex8, GetBe16, GetBe32, IsHex;
    Layout(p0, p1, p2, p3, p4, p5);
  }

  lemma Be16Back(s: seq<byte>, i: nat)
    requires i + 2 <= |s|
    ensures PutBe16(GetBe16(s, i)) == s[i..i + 2]
  {
  }

  lemma Be32Bytes(s: seq<byte>, i: nat)
    requires i + 4 <= |s|
    ensures PutBe32(GetBe32(s, i)) == s[i..i + 4]
  {
    Be16Back(s, i);
    Be16Back(s, i + 2);
    assert s[i..i + 4] == s[i..i + 2] + s[i + 2..i + 4];
  }

  lemma AssembleBack(b: Bytes16)
    ensures Assemble(GetBe32(b, 0), GetBe16(b, 4), GetBe16(b, 6), GetBe16(b, 8), GetBe32(b, 10), GetBe16(b, 14)) == b
  {
    Be32Bytes(b, 0);
    Be16Back(b, 4);
    Be16Back(b, 6);
    Be16Back(b, 8);
    Be32Bytes(b, 10);
    Be16Back(b, 14);
    hide GetBe16, GetBe32, PutBe16, PutBe32;
    assert b == b[0..4] + b[4..6] + b[6..8] + b[8..10] + b[10..14] + b[14..16];
  }

  lemma Parsed(s: string, v0: u32, v1: u16, v2: u16, v3: u16, v4: u32, v5: u16)
    requires LooksLike128(s) && Fields(s)
    requires HexValue(s[..8]) == v0 && HexValue(s[9..13]) == v1 && HexValue(s[14..18]) == v2
    requires HexValue(s[19..23]) == v3 && HexValue(s[24..32]) == v4 && HexValue(s[32..36]) == v5
    ensures Parse128(s) == Some(U128(Assemble(v0, v1, v2, v3, v4, v5)))
  {
    hide HexValue, IsHex, Assemble;
  }

  lemma CanonicalParses(b: Bytes16)
    ensures LooksLike128(Canonical(b)) && Parse128(Canonical(b)) == Some(U128(b))
  {
    CanonicalParts(b);
    Hex8Parses(GetBe32(b, 0));
    Hex4Parses(GetBe16(b, 4));
    Hex4Parses(GetBe16(b, 6));
    Hex4Parses(GetBe16(b, 8));
    Hex8Parses(GetBe32(b, 10));
    Hex4Parses(GetBe16(b, 14));
    AssembleBack(b);
    hide GetBe16, GetBe32, Assemble, Hex4, Hex8, HexValue, IsHex, Canonical, LooksLike128, Fields, Parse128;
    Parsed(Canonical(b), GetBe32(b, 0), GetBe16(b, 4), GetBe16(b, 6), GetBe16(b, 8), GetBe32(b, 10), GetBe16(b, 14));
  }

  lemma {:induction false} HexRunIs(s: string, n: nat)
    requires n <= |s| && IsHex(s[..n]) && (n == |s| || HexVal(s[n]).None?)
    ensures HexRun(s) == n
    decreases n
  {
    if n > 0 {
      assert HexVal(s[..n][0]).Some?;
      assert s[1..][..n - 1] == s[..n][1..];
      HexRunIs(s[1..], n - 1);
    }
  }

  lemma FourDigits(s: string)
    requires |s| == 4 && IsHex(s)
    ensures HexValue(s) == 0x1000 * HexVal(s[0]).value + 0x100 * HexVal(s[1]).value + 0x10 * HexVal(s[2]).value + HexVal(s[3]).value
  {
    var a, b := s[..2], s[2..];
    assert s == a + b;
    Two(a);
    Two(b);
    hide HexValue, IsHex, HexVal;
    assert Power16(2) == 0x100;
    Joined(a, b, 0x100);
  }

  lemma EightDigits(s: string)
    requires |s| == 8 && IsHex(s)
    ensures HexValue(s) == 0x1_0000 * HexValue(s[..4]) + HexValue(s[4..])
  {
    assert s == s[..4] + s[4..];
    assert Power16(2) == 0x100;
    assert Power16(4) == 0x1_0000;
    hide HexValue;
    Joined(s[..4], s[4..], 0x1_0000);
  }

  lemma Slice(s: string, a: nat, b: nat, c: nat, d: nat)
    requires a <= b <= |s| && c <= d <= b - a
    ensures s[a..b][c..d] == s[a + c..a + d]
  {
    var t := s[a..b];
    forall k | 0 <= k < d - c ensures t[c..d][k] == s[a + c..a + d][k] {
    }
  }

  lemma BaseFields(s: string)
    requires LooksLikeBase(s)
    ensures Fields(s) && HexValue(s[..8]) == HexValue(s[4..8]) < 0x1_0000
    ensures HexValue(s[9..13]) == 0 && HexValue(s[14..18]) == 0x1000 && HexValue(s[19..23]) == 0x8000
    ensures HexValue(s[24..32]) == 0x0080_5F9B && HexValue(s[32..36]) == 0x34FB
  {
    hide HexVal;
    var t := s[8..24];
    assert t[1..5] == "0000" && t[6..10] == "1000" && t[11..15] == "8000";
    Slice(s, 8, 24, 1, 5);
    Slice(s, 8, 24, 6, 10);
    Slice(s, 8, 24, 11, 15);
    BaseHead(s[..8]);
    assert s[..8][..4] == s[..4];
    Slice(s, 0, 8, 4, 8);
    var u, v := s[24..29], s[32..34];
    assert u[0] == s[24] && u[1] == s[25] && u[2] == s[26] && u[3] == s[27] && u[4] == s[28] && v[0] == s[32] && v[1] == s[33];
    BaseTail(s[24..32], s[32..36]);
    BaseConstants();
    hide HexValue, IsHex;
  }

  lemma BaseConstants()
    ensures IsHex("0000") && IsHex("1000") && IsHex("8000")
    ensures HexValue("0000") == 0 && HexValue("1000") == 0x1000 && HexValue("8000") == 0x8000
  {
    FourDigits("0000");
    FourDigits("1000");
    FourDigits("8000");
  }

  lemma BaseHead(s: string)
    requires |s| == 8 && s[..4] == "0000" && IsHex(s[4..])
    ensures IsHex(s) && HexValue(s) == HexValue(s[4..]) < 0x1_0000
  {
    BaseConstants();
    assert s == s[..4] + s[4..];
    HexJoined(s[..4], s[4..]);
    EightDigits(s);
    ParsesHex4(s[4..]);
  }

  lemma BaseTail(s: string, t: string)
    requires |s| == 8 && |t| == 4
    requires s[0] == '0' && s[1] == '0' && s[2] == '8' && s[3] == '0' && s[4] == '5' && s[6] == '9' && t[0] == '3' && t[1] == '4'
    requires (s[5] == 'f' || s[5] == 'F') && (s[7] == 'b' || s[7] == 'B') && (t[2] == 'f' || t[2] == 'F') && (t[3] == 'b' || t[3] == 'B')
    ensures IsHex(s) && IsHex(t) && HexValue(s) == 0x0080_5F9B && HexValue(t) == 0x34FB
  {
    FourDigits(s[..4]);
    FourDigits(s[4..]);
    FourDigits(t);
    EightDigits(s);
  }

  // Reading a base UUID as 16 bits changes nothing: it expands to what the 128-bit parser reads.
  lemma BaseAgrees(s: string)
    requires LooksLikeBase(s)
    ensures Fields(s) && Parse(s) == Some(U16(HexValue(s[4..8]) % 0x1_0000))
    ensures Parse128(s) == Some(U128(Expand(Parse(s).value)))
  {
    BaseInFull(s);
    BaseTaken(s);
    hide LooksLikeBase, Fields, HexValue, Parse, Parse128, Expand;
  }

  lemma BaseInFull(s: string)
    requires LooksLikeBase(s)
    ensures Fields(s) && Parse128(s) == Some(U128(Expand(U16(HexValue(s[4..8]) % 0x1_0000))))
  {
    BaseFields(s);
    var v := HexValue(s[4..8]);
    BaseAssembled(v);
    hide LooksLikeBase, Fields, HexValue, Assemble, Parse128, Expand;
    Parsed(s, v, 0, 0x1000, 0x8000, 0x0080_5F9B, 0x34FB);
  }

  lemma BaseTaken(s: string)
    requires LooksLikeBase(s)
    ensures Parse(s) == Some(U16(HexValue(s[4..8]) % 0x1_0000))
  {
    var t := s[4..];
    assert t[..4] == s[4..8] && t[4] == '-';
    BaseScan(t);
    hide HexValue, IsHex, HexVal, StrToL;
  }

  lemma BaseScan(t: string)
    requires |t| > 4 && t[4] == '-' && IsHex(t[..4])
    ensures StrToL(t) == (HexValue(t[..4]), t[4..])
  {
    assert HexVal(t[..4][1]).Some?;
    HexRunIs(t, 4);
  }

  lemma BaseAssembled(v: u16)
    ensures Assemble(v, 0, 0x1000, 0x8000, 0x0080_5F9B, 0x34FB) == Expand(U16(v))
  {
    TopHalf(v);
    hide PutBe16, PutBe32;
    BaseRest();
    hide BASE;
  }

  lemma TopHalf(v: u16)
    ensures PutBe32(v) == BASE[..2] + PutBe16(v)
  {
    assert PutBe16(0) == [0, 0] == BASE[..2];
  }

  lemma BaseRest()
    ensures forall h: seq<byte> :: h + PutBe16(0) + PutBe16(0x1000) + PutBe16(0x8000) + PutBe32(0x0080_5F9B) + PutBe16(0x34FB) == h + BASE[4..]
  {
    assert PutBe32(0x0080_5F9B) == [0, 0x80, 0x5F, 0x9B];
    hide PutBe32;
    assert BASE[4..] == [0, 0] + [0x10, 0] + [0x80, 0] + [0, 0x80, 0x5F, 0x9B] + [0x34, 0xFB];
  }

  lemma BaseLooks(b: Bytes16)
    requires InBaseRange(b)
    ensures LooksLikeBase(Canonical(b))
  {
    CanonicalParts(b);
    BaseValues(b);
    BaseDigits(GetBe16(b, 2));
    BaseForm(Canonical(b), Hex4(GetBe16(b, 2)));
  }

  lemma BaseValues(b: Bytes16)
    requires InBaseRange(b)
    ensures GetBe32(b, 0) == GetBe16(b, 2) && GetBe16(b, 4) == 0 && GetBe16(b, 6) == 0x1000 && GetBe16(b, 8) == 0x8000
    ensures GetBe32(b, 10) == 0x0080_5F9B && GetBe16(b, 14) == 0x34FB
  {
    assert forall k :: 4 <= k < 16 ==> b[k] == b[4..][k - 4] == BASE[4..][k - 4];
  }

  lemma Nibbles(a: nat, b: nat, c: nat, d: nat)
    requires a < 16 && b < 16 && c < 16 && d < 16
    ensures Hex4(0x1000 * a + 0x100 * b + 0x10 * c + d) == [Digit(a), Digit(b), Digit(c), Digit(d)]
  {
    var x, y := 0x10 * a + b, 0x10 * c + d;
    var v := 0x100 * x + y;
    assert v / 0x100 == x && v % 0x100 == y;
    assert x / 0x10 == a && x % 0x10 == b && y / 0x10 == c && y % 0x10 == d;
    hide Digit;
  }

  lemma BaseDigits(v: u16)
    ensures Hex4(0) == "0000" && Hex4(0x1000) == "1000" && Hex4(0x8000) == "8000" && Hex4(0x34FB) == "34fb"
    ensures Hex8(0x0080_5F9B) == "00805f9b" && Hex8(v) == "0000" + Hex4(v) && |Hex4(v)| == 4 && IsHex(Hex4(v))
  {
    BaseLiterals();
    Hex4Parses(v);
    hide Hex4, IsHex, HexValue;
    assert Hex8(0x0080_5F9B) == Hex4(0x0080) + Hex4(0x5F9B);
  }

  lemma BaseLiterals()
    ensures Hex4(0) == "0000" && Hex4(0x1000) == "1000" && Hex4(0x8000) == "8000" && Hex4(0x34FB) == "34fb"
    ensures Hex4(0x0080) == "0080" && Hex4(0x5F9B) == "5f9b"
  {
    hide Hex4;
    Nibbles(0, 0, 0, 0);
    Nibbles(1, 0, 0, 0);
    Nibbles(8, 0, 0, 0);
    Nibbles(3, 4, 15, 11);
    Nibbles(0, 0, 8, 0);
    Nibbles(5, 15, 9, 11);
  }

  lemma BaseForm(s: string, h: string)
    requires LooksLike128(s) && |h| == 4 && IsHex(h) && s[..8] == "0000" + h
    requires s[9..13] == "0000" && s[14..18] == "1000" && s[19..23] == "8000" && s[24..32] == "00805f9b" && s[32..36] == "34fb"
    ensures LooksLikeBase(s)
  {
    hide IsHex;
    assert s[..4] == s[..8][..4] && s[4..8] == s[..8][4..];
    assert s[8..24] == "-" + s[9..13] + "-" + s[14..18] + "-" + s[19..23] + "-";
    assert s[24..29] == s[24..32][..5] && s[29] == s[24..32][5] && s[30] == s[24..32][6] && s[31] == s[24..32][7];
    assert s[32..34] == s[32..36][..2] && s[34] == s[32..36][2] && s[35] == s[32..36][3];
  }

  lemma BaseRange(v: u16)
    ensures InBaseRange(Expand(U16(v)))
  {
    assert Expand(U16(v))[4..] == BASE[4..];
  }

  // Printing into a large enough buffer and parsing gives back an equal UUID, of 16 bits exactly
  // when it lies in the base range with a zero top half.
  lemma PrintParse(u: Uuid, n: nat)
    requires !u.Unspec? && n >= 37
    ensures var (err, s) := Print(u, n);
            && err == 0 && Parse(s).Some? && !Parse(s).value.Unspec? && Compare(Parse(s).value, u) == 0
            && (Parse(s).value.U16? <==> InBaseRange(Expand(u)))
  {
    var b := Expand(u);
    Printed(u, n);
    ParseCanonical(b);
    MemCmpOrder(b, b);
    hide Canonical, Parse, InBaseRange, Expand, Print, MemCmp;
  }

  lemma Printed(u: Uuid, n: nat)
    requires !u.Unspec? && n >= 37
    ensures Print(u, n) == (0, Canonical(Expand(u)))
  {
    CanonicalParts(Expand(u));
    hide Canonical, Fields;
    var s := Canonical(Expand(u));
    assert s[..36] == s;
  }

  lemma ParseCanonical(b: Bytes16)
    ensures var r := Parse(Canonical(b));
            r.Some? && !r.value.Unspec? && Expand(r.value) == b && (r.value.U16? <==> InBaseRange(b))
  {
    CanonicalParses(b);
    var s := Canonical(b);
    if InBaseRange(b) {
      BaseLooks(b);
    }
    hide Canonical, LooksLike128, LooksLikeBase, Parse128, Parse16, Fields;
    if LooksLikeBase(s) {
      BaseAgrees(s);
      BaseRange(Parse(s).value.v16);
    }
  }

  // Any 36-character form the parser accepts is printed again as it was, in lower case.
  lemma ParsePrint(s: string)
    requires LooksLike128(s) && Parse(s).Some?
    ensures !Parse(s).value.Unspec? && Print(Parse(s).value, 37) == (0, LowerAll(s))
  {
    if LooksLikeBase(s) {
      BaseAgrees(s);
    }
    var b := Expand(Parse(s).value);
    FieldsPrint(s, b);
    assert Canonical(b)[..36] == Canonical(b);
  }

  lemma FieldsPrint(s: string, b: Bytes16)
    requires LooksLike128(s) && Fields(s) && Parse128(s) == Some(U128(b))
    ensures Canonical(b) == LowerAll(s)
  {
    var p0, p1, p2, p3, p4, p5 := s[..8], s[9..13], s[14..18], s[19..23], s[24..32], s[32..36];
    ParsesHex8(p0);
    ParsesHex4(p1);
    ParsesHex4(p2);
    ParsesHex4(p3);
    ParsesHex8(p4);
    ParsesHex4(p5);
    FieldsOf(HexValue(p0), HexValue(p1), HexValue(p2), HexValue(p3), HexValue(p4), HexValue(p5));
    LowerLayout(s);
    Parsed(s, HexValue(p0), HexValue(p1), HexValue(p2), HexValue(p3), HexValue(p4), HexValue(p5));
    hide Parse128, IsHex, ToLower, HexValue, Hex4, Hex8, Assemble, GetBe16, GetBe32, LooksLike128, Fields;
  }

  lemma LowerLayout(s: string)
    requires LooksLike128(s)
    ensures LowerAll(s) == LowerAll(s[..8]) + "-" + LowerAll(s[9..13]) + "-" + LowerAll(s[14..18]) + "-" + LowerAll(s[19..23]) + "-"
                           + LowerAll(s[24..32]) + LowerAll(s[32..36])
  {
    assert ToLower('-') == '-';
    hide ToLower;
  }

  lemma FieldsOf(v0: u32, v1: u16, v2: u16, v3: u16, v4: u32, v5: u16)
    ensures var b := Assemble(v0, v1, v2, v3, v4, v5);
            && GetBe32(b, 0) == v0 && GetBe16(b, 4) == v1 && GetBe16(b, 6) == v2 && GetBe16(b, 8) == v3
            && GetBe32(b, 10) == v4 && GetBe16(b, 14) == v5
  {
  }
}
