// What the discovery procedures of attrib/gatt.c share: requests, responses, and the rounds of a
// procedure with its server.

module GattWire {
  import opened Wire
  import opened Opcodes
  import opened Uuids
  import opened AttPdus

  // What a procedure's callback is given: a status and, when it is 0, the whole response PDU.
  datatype Reply = Reply(status: byte, pdu: seq<byte>)

  // What the callback does: send the next request, or call the user with an error code.
  datatype Next = Ask(req: seq<byte>) | Finish(err: byte)

  const PRIM_SVC_UUID: u16 := 0x2800
  const INCLUDE_UUID: u16 := 0x2802
  const CHARAC_UUID: u16 := 0x2803

  // A Read By Group Type or Read By Type request for a 16-bit type.
  function RangeReq(opcode: byte, start: u16, end: u16, kind: u16): seq<byte> {
    TypedReq(opcode, start, end, U16(kind))
  }

  // enc_find_info_req
  function InfoReq(start: u16, end: u16): seq<byte> { [FIND_INFO_REQ] + PutLe16(start) + PutLe16(end) }

  // enc_find_by_type_req
  function FindReq(start: u16, end: u16, kind: u16, value: seq<byte>): seq<byte> {
    [FIND_BY_TYPE_REQ] + PutLe16(start) + PutLe16(end) + PutLe16(kind) + value
  }

  // The start handle a range request names.
  function StartOf(req: seq<byte>): u16
    requires |req| >= 3
  {
    GetLe16(req, 1)
  }

  lemma StartOfReq(opcode: byte, start: u16, rest: seq<byte>)
    ensures StartOf([opcode] + PutLe16(start) + rest) == start
  {
    var req := [opcode] + PutLe16(start) + rest;
    assert req[1] == start % 0x100 && req[2] == start / 0x100;
  }

  // A UUID as the procedures report it: get_uuid128, then bt_uuid_to_string.
  function Text(u: Uuid): string
    requires !u.Unspec?
  {
    Canonical(Expand(u))
  }

  predicate OnWire(u: Uuid) { u.U16? || u.U128? }

  function UuidBytes(u: Uuid): (s: seq<byte>)
    requires OnWire(u)
    ensures |s| == if u.U16? then 2 else 16
  {
    ToLe(u).value
  }

  lemma Prefixes<T>(s: seq<T>, n: nat, m: nat)
    requires n <= m <= |s|
    ensures s[..n] + s[n..m] == s[..m]
  {
  }

  lemma SliceOfSlice<T>(s: seq<T>, n: nat, m: nat, k: nat)
    requires n <= m <= |s| && k <= m - n
    ensures s[n..m][..k] == s[n..n + k]
  {
  }

  lemma LastOfSlice<T>(s: seq<T>, n: nat, m: nat)
    requires n < m <= |s|
    ensures s[n..m] != [] && s[n..m][|s[n..m]| - 1] == s[m - 1]
  {
  }

  // ---- Handles in order ----------------------------------------------------------------------

  // How many leading keys are below h.
  function Below(keys: seq<int>, h: int): (n: nat)
    ensures n <= |keys|
    ensures forall k :: 0 <= k < n ==> keys[k] < h
    ensures n < |keys| ==> keys[n] >= h
  {
    if keys == [] || keys[0] >= h then 0 else 1 + Below(keys[1..], h)
  }

  lemma BelowIs(keys: seq<int>, h: int, n: nat)
    requires n <= |keys| && (forall k :: 0 <= k < n ==> keys[k] < h) && (n < |keys| ==> keys[n] >= h)
    ensures Below(keys, h) == n
  {
    if Below(keys, h) < n {
      assert false;
    } else if n < Below(keys, h) {
      assert false;
    }
  }

  predicate Rising(keys: seq<int>) { forall j, k :: 0 <= j < k < |keys| ==> keys[j] < keys[k] }

}
