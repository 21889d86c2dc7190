// Long reads (read_char_helper, read_blob_helper) and long writes (prepare_write, prepare_write_cb)
// of attrib/gatt.c, against a server that keeps one value and one MTU.

module GattLong {
  import opened Wire
  import opened Opcodes
  import opened AttPdus
  import opened GattWire

  // ---- Reading: the client -------------------------------------------------------------------

  // The next request, or the call of the user's function.
  datatype Out = Get(req: seq<byte>) | Deliver(status: byte, data: seq<byte>)

  // struct read_long_data; `blob` once the first response filled the buffer.
  datatype Long = Long(handle: u16, blob: bool, buffer: seq<byte>, size: u16, out: Out)

  // gatt_read_char
  function ReadInit(handle: u16): Long { Long(handle, false, [], 0, Get(ReadReq(handle))) }

  // A response PDU holds its opcode and is no longer than a 16-bit length says.
  predicate Proper(r: Reply) { |r.pdu| <= 0xFFFF && (r.status == 0 ==> |r.pdu| >= 1) }

  // read_char_helper; `sent` is whether g_attrib_send took the request
  function ReadCb(s: Long, r: Reply, mtu: nat, sent: bool): Long
    requires Proper(r)
  {
    if r.status != 0 || |r.pdu| < mtu then s.(out := Deliver(r.status, r.pdu))
    else
      var s1 := s.(blob := true, buffer := r.pdu, size := |r.pdu|);
      s1.(out := if sent then Get(BlobReq(s.handle, |r.pdu| - 1)) else Deliver(ECODE_IO, r.pdu))
  }

  // read_blob_helper; the size is a 16-bit number
  function BlobCb(s: Long, r: Reply, mtu: nat, sent: bool): Long
    requires Proper(r) && s.size as int <= |s.buffer|
  {
    if r.status != 0 || |r.pdu| == 1 then s.(out := Deliver(0, s.buffer[..s.size]))
    else
      var buffer := s.buffer[..s.size] + r.pdu[1..];
      var size := (s.size as int + |r.pdu| - 1) % 0x1_0000;
      var s1 := s.(buffer := buffer, size := size);
      if |r.pdu| < mtu then s1.(out := Deliver(0, buffer[..size]))
      else if sent then s1.(out := Get(BlobReq(s.handle, (size + 0xFFFF) % 0x1_0000)))
      else s1.(out := Deliver(ECODE_IO, buffer[..size]))
  }

  function ReadStep(s: Long, r: Reply, mtu: nat, sent: bool): (t: Long)
    requires Proper(r) && s.size as int <= |s.buffer|
    ensures t.size as int <= |t.buffer|
  {
    if s.blob then BlobCb(s, r, mtu, sent) else ReadCb(s, r, mtu, sent)
  }

  predicate AllProper(rs: seq<Reply>) { forall k :: 0 <= k < |rs| ==> Proper(rs[k]) }

  // All requests are taken.
  function ReadRun(s: Long, rs: seq<Reply>, mtu: nat): Long
    requires AllProper(rs) && s.size as int <= |s.buffer|
    decreases |rs|
  {
    if rs == [] || s.out.Deliver? then s else ReadRun(ReadStep(s, rs[0], mtu, true), rs[1..], mtu)
  }

  // ---- Reading: the server -------------------------------------------------------------------

  // enc_read_resp for a read, enc_read_blob_resp for a blob read inside the value, or an error.
  predicate ReadAnswer(value: seq<byte>, mtu: nat, req: seq<byte>, r: Reply)
    requires |req| >= 1 && (req[0] == READ_BLOB_REQ ==> |req| >= 5) && mtu >= 1
  {
    r.status != 0
    || (req[0] == READ_REQ && r == Reply(0, ReadPdu(value, mtu)))
    || (req[0] == READ_BLOB_REQ && GetLe16(req, 3) as int <= |value| && r == Reply(0, BlobPdu(value, GetLe16(req, 3), mtu)))
  }

  ghost predicate ReadConforms(value: seq<byte>, mtu: nat, s: Long, rs: seq<Reply>)
    requires AllProper(rs) && s.size as int <= |s.buffer| && mtu >= 1
    decreases |rs|
  {
    rs != [] && s.out.Get? ==>
      && |s.out.req| >= 1 && (s.out.req[0] == READ_BLOB_REQ ==> |s.out.req| >= 5)
      && ReadAnswer(value, mtu, s.out.req, rs[0])
      && ReadConforms(value, mtu, ReadStep(s, rs[0], mtu, true), rs[1..])
  }

  predicate NoErrors(rs: seq<Reply>) { forall k :: 0 <= k < |rs| ==> rs[k].status == 0 }

  // ---- Reading: the value arrives ------------------------------------------------------------

  // The opcode and the first k bytes have been read.
  predicate Holding(value: seq<byte>, k: nat, s: Long) {
    && k <= |value| && s.blob && s.buffer == [READ_RSP] + value[..k] && s.size == k + 1
    && s.out == Get(BlobReq(s.handle, k))
  }

  lemma BlobReqForm(handle: u16, offset: u16)
    ensures var req := BlobReq(handle, offset);
            |req| == 5 && req[0] == READ_BLOB_REQ && GetLe16(req, 3) == offset
  {
    PrepHeader(READ_BLOB_REQ, handle, offset, []);
    assert BlobReq(handle, offset) == [READ_BLOB_REQ] + PutLe16(handle) + PutLe16(offset) + [];
  }

  lemma FirstRound(value: seq<byte>, mtu: nat, handle: u16, r: Reply)
    requires |value| <= 65534 && mtu >= 2 && Proper(r) && ReadAnswer(value, mtu, ReadReq(handle), r)
    ensures var t := ReadStep(ReadInit(handle), r, mtu, true);
            if r.status != 0 then t.out == Deliver(r.status, r.pdu)
            else if |value| < mtu - 1 then t.out == Deliver(0, [READ_RSP] + value)
            else Holding(value, mtu - 1, t) && t.handle == handle
  {
    assert value[..|value|] == value;
  }

  lemma BlobRound(value: seq<byte>, mtu: nat, k: nat, s: Long, r: Reply)
    requires |value| <= 65534 && mtu >= 2 && Holding(value, k, s) && Proper(r) && ReadAnswer(value, mtu, s.out.req, r)
    ensures var t := ReadStep(s, r, mtu, true);
            if r.status != 0 then t.out == Deliver(0, [READ_RSP] + value[..k])
            else if |value| - k < mtu - 1 then t.out == Deliver(0, [READ_RSP] + value)
            else k + mtu - 1 <= |value| && Holding(value, k + mtu - 1, t)
  {
    BlobReqForm(s.handle, k);
    hide BlobReq, BlobPdu;
    BlobAnswered(value, mtu, k, s, r);
    hide ReadAnswer;
    BlobPart(value, mtu, k);
    if r.status == 0 { BlobAdded(value, mtu, k, s, r); } else { assert s.buffer[..s.size] == s.buffer; }
  }

  // The bytes of a blob come behind those read.
  lemma BlobAdded(value: seq<byte>, mtu: nat, k: nat, s: Long, r: Reply)
    requires |value| <= 65534 && mtu >= 2 && Holding(value, k, s) && Proper(r) && r.status == 0
    requires var m := Min(|value|, k + mtu - 1); |r.pdu| == 1 + m - k && [READ_RSP] + value[..k] + r.pdu[1..] == [READ_RSP] + value[..m]
    ensures var t := ReadStep(s, r, mtu, true);
            if |value| - k < mtu - 1 then t.out == Deliver(0, [READ_RSP] + value)
            else k + mtu - 1 <= |value| && Holding(value, k + mtu - 1, t)
  {
    hide BlobReq;
    assert s.buffer[..s.size] == s.buffer && value[..|value|] == value;
  }

  // A blob read is answered with the blob at its offset.
  lemma BlobAnswered(value: seq<byte>, mtu: nat, k: nat, s: Long, r: Reply)
    requires |value| <= 65534 && mtu >= 1 && Holding(value, k, s)
    requires |s.out.req| >= 1 && (s.out.req[0] == READ_BLOB_REQ ==> |s.out.req| >= 5) && ReadAnswer(value, mtu, s.out.req, r)
    ensures r.status == 0 ==> r.pdu == BlobPdu(value, k, mtu)
  {
    BlobReqForm(s.handle, k);
    hide BlobReq, BlobPdu, GetLe16;
  }

  lemma BlobPart(value: seq<byte>, mtu: nat, k: nat)
    requires mtu >= 2 && k <= |value|
    ensures var m := Min(|value|, k + mtu - 1); var pdu := BlobPdu(value, k, mtu);
            && |pdu| == 1 + m - k && [READ_RSP] + value[..k] + pdu[1..] == [READ_RSP] + value[..m]
    ensures value[..|value|] == value
  {
    var m := Min(|value|, k + mtu - 1);
    assert BlobPdu(value, k, mtu)[1..] == value[k..m];
    assert value[..k] + value[k..m] == value[..m];
    assert [READ_RSP] + value[..k] + value[k..m] == [READ_RSP] + (value[..k] + value[k..m]);
  }

  lemma {:induction false} BlobRounds(value: seq<byte>, mtu: nat, k: nat, s: Long, rs: seq<Reply>)
    requires |value| <= 65534 && mtu >= 2 && Holding(value, k, s) && AllProper(rs) && ReadConforms(value, mtu, s, rs)
    ensures var t := ReadRun(s, rs, mtu);
            && (t.out.Deliver? ==> t.out.status == 0 && exists j :: k <= j <= |value| && t.out.data == [READ_RSP] + value[..j])
            && (t.out.Deliver? && NoErrors(rs) ==> t.out.data == [READ_RSP] + value)
            && (|rs| * (mtu - 1) > |value| - k ==> t.out.Deliver?)
    decreases |rs|
  {
    if rs != [] {
      BlobRound(value, mtu, k, s, rs[0]);
      var t := ReadStep(s, rs[0], mtu, true);
      hide ReadStep, ReadAnswer, Proper;
      assert |rs| * (mtu - 1) == (|rs| - 1) * (mtu - 1) + (mtu - 1);
      if rs[0].status == 0 && |value| - k >= mtu - 1 {
        BlobRounds(value, mtu, k + mtu - 1, t, rs[1..]);
      } else {
        assert value[..|value|] == value;
      }
    }
  }

  // A value of up to 65534 bytes arrives whole, behind the response opcode, whatever its length
  // modulo MTU-1; and once the first response has filled the buffer, an error only cuts it short.
  lemma ReadsWhole(value: seq<byte>, mtu: nat, handle: u16, rs: seq<Reply>)
    requires |value| <= 65534 && mtu >= 2 && AllProper(rs) && ReadConforms(value, mtu, ReadInit(handle), rs)
    ensures var t := ReadRun(ReadInit(handle), rs, mtu);
            && (t.out.Deliver? && NoErrors(rs) ==> t.out == Deliver(0, [READ_RSP] + value))
            && (t.out.Deliver? && rs[0].status == 0 ==>
                  t.out.status == 0 && exists j :: 0 <= j <= |value| && t.out.data == [READ_RSP] + value[..j])
            && (|rs| * (mtu - 1) > |value| ==> t.out.Deliver?)
  {
    var s := ReadInit(handle);
    if rs != [] {
      FirstRound(value, mtu, handle, rs[0]);
      var t := ReadStep(s, rs[0], mtu, true);
      hide ReadStep, ReadAnswer, Proper, ReadInit;
      assert |rs| * (mtu - 1) == (|rs| - 1) * (mtu - 1) + (mtu - 1);
      if rs[0].status == 0 && |value| >= mtu - 1 {
        BlobRounds(value, mtu, mtu - 1, t, rs[1..]);
      } else {
        assert value[..|value|] == value;
      }
    }
  }

  // ---- Writing: the client -------------------------------------------------------------------

  datatype Phase = Single | Preparing | Executed | Failed(status: byte)

  // struct write_long_data, and every request sent so far.
  datatype Write = Write(handle: u16, value: seq<byte>, offset: u16, phase: Phase, sent: seq<seq<byte>>)

  const EXEC_REQ: seq<byte> := [EXEC_WRITE_REQ, 1]

  // prepare_write
  function Prepare(s: Write, mtu: nat): Write
    requires mtu >= 5 && s.offset as int <= |s.value|
  {
    s.(sent := s.sent + [PrepPdu(PREP_WRITE_REQ, s.handle, s.offset, s.value[s.offset..], mtu)])
  }

  // gatt_write_char
  function WriteInit(handle: u16, value: seq<byte>, mtu: nat): Write
    requires mtu >= 5
  {
    if |value| <= mtu - 3 then Write(handle, value, 0, Single, [[WRITE_REQ] + PutLe16(handle) + value])
    else Prepare(Write(handle, value, 0, Preparing, []), mtu)
  }

  // The offset after a prepare-write response: a 16-bit sum.
  function NextOffset(s: Write, r: Reply): u16 { (s.offset as int + |r.pdu| - 5) % 0x1_0000 }

  // prepare_write_cb
  function PrepareCb(s: Write, r: Reply, mtu: nat): Write
    requires mtu >= 5 && (r.status == 0 ==> NextOffset(s, r) as int <= |s.value|)
  {
    if r.status != 0 then s.(phase := Failed(r.status))
    else
      var s1 := s.(offset := NextOffset(s, r));
      if s1.offset as int == |s.value| then s1.(phase := Executed, sent := s.sent + [EXEC_REQ]) else Prepare(s1, mtu)
  }

  // ---- Writing: the server -------------------------------------------------------------------

  // A server that accepts a part sends it back.
  function Echo(req: seq<byte>): Reply
    requires req != []
  {
    Reply(0, [PREP_WRITE_RSP] + req[1..])
  }

  function LastSent(s: Write): seq<byte> { if s.sent == [] then [] else s.sent[|s.sent| - 1] }

  // A response the client can be given: an error, or its part back.  The part's length keeps the
  // offset inside the value (EchoAdvances).
  predicate WriteAnswer(s: Write, r: Reply) {
    r.status != 0 || (LastSent(s) != [] && r == Echo(LastSent(s)) && NextOffset(s, r) as int <= |s.value|)
  }

  predicate WriteConforms(s: Write, rs: seq<Reply>, mtu: nat)
    requires mtu >= 6
    decreases |rs|
  {
    rs != [] && s.phase.Preparing? ==> WriteAnswer(s, rs[0]) && WriteConforms(PrepareCb(s, rs[0], mtu), rs[1..], mtu)
  }

  function WriteRun(s: Write, rs: seq<Reply>, mtu: nat): Write
    requires mtu >= 6 && WriteConforms(s, rs, mtu)
    decreases |rs|
  {
    if rs == [] || !s.phase.Preparing? then s else WriteRun(PrepareCb(s, rs[0], mtu), rs[1..], mtu)
  }

  // ---- Writing: the parts tile the value -----------------------------------------------------

  function PartSize(value: seq<byte>, o: nat, mtu: nat): nat
    requires mtu >= 6 && o <= |value|
  {
    Min(|value| - o, mtu - 5)
  }

  // The prepare-write requests for the value from offset o on.
  function Parts(handle: u16, value: seq<byte>, o: nat, mtu: nat): seq<seq<byte>>
    requires mtu >= 6 && o <= |value| <= 0xFFFF
    decreases |value| - o
  {
    if o == |value| then []
    else [PrepPdu(PREP_WRITE_REQ, handle, o, value[o..], mtu)] + Parts(handle, value, o + PartSize(value, o, mtu), mtu)
  }

  // Writing prepared bytes at their offset.
  function WriteAt(was: seq<byte>, p: Prepared): seq<byte> {
    if p.offset as int <= |was| then was[..p.offset] + p.value else was
  }

  // What a server stores that decodes the prepared writes and carries them out in order.
  function Stored(was: seq<byte>, parts: seq<seq<byte>>): seq<byte>
    decreases |parts|
  {
    if parts == [] then was
    else match PrepReqOf(parts[0])
      case None => was
      case Some(p) => Stored(WriteAt(was, p), parts[1..])
  }

  // Part k starts at k times the part size: no gap and no overlap.
  lemma {:induction false} PartsTile(handle: u16, value: seq<byte>, o: nat, mtu: nat, k: nat)
    requires mtu >= 6 && o <= |value| <= 0xFFFF && k < |Parts(handle, value, o, mtu)|
    ensures var at := o + k * (mtu - 5);
            && at < |value|
            && PrepReqOf(Parts(handle, value, o, mtu)[k])
               == Some(Prepared(handle, at, value[at..at + PartSize(value, at, mtu)]))
    decreases k
  {
    var c := PartSize(value, o, mtu);
    if k == 0 {
      PrepRoundTrip(handle, o, value[o..], mtu);
      assert value[o..][..c] == value[o..o + c];
    } else {
      hide PrepReqOf, PrepPdu;
      assert Parts(handle, value, o, mtu)[k] == Parts(handle, value, o + c, mtu)[k - 1];
      assert c == mtu - 5;
      PartsTile(handle, value, o + c, mtu, k - 1);
      Times(k, mtu - 5);
      hide Parts;
    }
  }

  lemma Times(k: int, w: int)
    ensures k * w == (k - 1) * w + w
  {
  }

  // They number ceil(length / (MTU - 5)).
  lemma {:induction false} PartsCount(handle: u16, value: seq<byte>, o: nat, mtu: nat)
    requires mtu >= 6 && o <= |value| <= 0xFFFF
    ensures var n := |Parts(handle, value, o, mtu)|;
            n * (mtu - 5) >= |value| - o && (n > 0 ==> (n - 1) * (mtu - 5) < |value| - o)
    decreases |value| - o
  {
    if o < |value| {
      var c := PartSize(value, o, mtu);
      PartsCount(handle, value, o + c, mtu);
      var m := |Parts(handle, value, o + c, mtu)|;
      assert (m + 1) * (mtu - 5) == m * (mtu - 5) + (mtu - 5);
      assert m > 0 ==> m * (mtu - 5) == (m - 1) * (mtu - 5) + (mtu - 5);
    }
  }

  // Carrying them out leaves exactly the value, whatever was stored before.
  lemma {:induction false} PartsStore(handle: u16, value: seq<byte>, o: nat, mtu: nat, was: seq<byte>)
    requires mtu >= 6 && o <= |value| <= 0xFFFF && value != [] && (o > 0 ==> was == value[..o])
    ensures Stored(was, Parts(handle, value, o, mtu)) == value
    decreases |value| - o
  {
    if o < |value| {
      var c := PartSize(value, o, mtu);
      var parts := Parts(handle, value, o, mtu);
      PrepRoundTrip(handle, o, value[o..], mtu);
      assert value[o..][..c] == value[o..o + c];
      var p := Prepared(handle, o, value[o..o + c]);
      assert PrepReqOf(parts[0]) == Some(p);
      assert WriteAt(was, p) == value[..o + c];
      assert parts[1..] == Parts(handle, value, o + c, mtu);
      PartsStore(handle, value, o + c, mtu, value[..o + c]);
    } else {
      assert value[..o] == value;
    }
  }

  // The part under way and those still to come complete what has been sent.
  ghost predicate Tiling(handle: u16, value: seq<byte>, s: Write, mtu: nat)
    requires mtu >= 6 && |value| <= 0xFFFF
  {
    var all := Parts(handle, value, 0, mtu);
    && s.handle == handle && s.value == value && s.offset as int <= |value|
    && match s.phase
       case Preparing =>
         && s.offset as int < |value|
         && s.sent != [] && LastSent(s) == PrepPdu(PREP_WRITE_REQ, handle, s.offset, value[s.offset..], mtu)
         && all == s.sent + Parts(handle, value, s.offset as int + PartSize(value, s.offset, mtu), mtu)
       case Executed => s.sent == all + [EXEC_REQ]
       case Failed(_) => |s.sent| <= |all| && s.sent == all[..|s.sent|]
       case Single => false
  }

  lemma EchoAdvances(handle: u16, value: seq<byte>, s: Write, mtu: nat)
    requires mtu >= 6 && |value| <= 0xFFFF && Tiling(handle, value, s, mtu) && s.phase.Preparing?
    ensures WriteAnswer(s, Echo(LastSent(s)))
    ensures NextOffset(s, Echo(LastSent(s))) as int == s.offset as int + PartSize(value, s.offset, mtu)
  {
  }

  lemma WriteRound(handle: u16, value: seq<byte>, s: Write, r: Reply, mtu: nat)
    requires mtu >= 6 && |value| <= 0xFFFF && Tiling(handle, value, s, mtu) && s.phase.Preparing? && WriteAnswer(s, r)
    ensures var t := PrepareCb(s, r, mtu);
            && Tiling(handle, value, t, mtu) && (t.phase.Failed? <==> r.status != 0)
            && |t.sent| == if r.status == 0 then |s.sent| + 1 else |s.sent|
  {
    var all := Parts(handle, value, 0, mtu);
    if r.status != 0 {
      assert all[..|s.sent|] == s.sent;
    } else {
      EchoAdvances(handle, value, s, mtu);
      var o := s.offset as int + PartSize(value, s.offset, mtu);
      var rest := Parts(handle, value, o, mtu);
      if o < |value| {
        var part := PrepPdu(PREP_WRITE_REQ, handle, o, value[o..], mtu);
        var more := Parts(handle, value, o + PartSize(value, o, mtu), mtu);
        assert rest == [part] + more;
        assert s.sent + ([part] + more) == s.sent + [part] + more;
      } else {
        assert s.sent + [] == s.sent;
      }
    }
  }

  lemma {:induction false} WriteRounds(handle: u16, value: seq<byte>, s: Write, rs: seq<Reply>, mtu: nat)
    requires mtu >= 6 && |value| <= 0xFFFF && Tiling(handle, value, s, mtu) && WriteConforms(s, rs, mtu)
    ensures var t := WriteRun(s, rs, mtu);
            && Tiling(handle, value, t, mtu)
            && (s.phase.Preparing? && t.phase.Preparing? ==> |t.sent| == |s.sent| + |rs|)
            && (s.phase.Preparing? && t.phase.Executed? ==> |t.sent| <= |s.sent| + |rs|)
            && (s.phase.Preparing? && NoErrors(rs) ==> !t.phase.Failed?)
    decreases |rs|
  {
    hide Tiling, PrepareCb;
    if rs != [] && s.phase.Preparing? {
      WriteRound(handle, value, s, rs[0], mtu);
      var t := PrepareCb(s, rs[0], mtu);
      WriteRounds(handle, value, t, rs[1..], mtu);
      if !t.phase.Preparing? {
        assert WriteRun(t, rs[1..], mtu) == t;
      }
    }
  }

  // A long write sends the parts in order and then one Execute Write, which goes out only after every
  // part has been acknowledged; an error stops it before that.
  lemma WritesWhole(handle: u16, value: seq<byte>, rs: seq<Reply>, mtu: nat)
    requires mtu >= 6 && mtu - 3 < |value| <= 0xFFFF && WriteConforms(WriteInit(handle, value, mtu), rs, mtu)
    ensures var t := WriteRun(WriteInit(handle, value, mtu), rs, mtu); var all := Parts(handle, value, 0, mtu);
            && (t.phase.Executed? ==> t.sent == all + [EXEC_REQ] && |rs| >= |all|)
            && (!t.phase.Executed? ==> |t.sent| <= |all| && t.sent == all[..|t.sent|])
            && (NoErrors(rs) && |rs| >= |all| ==> t.phase.Executed?)
            && Stored([], all) == value
  {
    var s := WriteInit(handle, value, mtu);
    assert s.sent == [PrepPdu(PREP_WRITE_REQ, handle, 0, value[0..], mtu)];
    WriteRounds(handle, value, s, rs, mtu);
    var t := WriteRun(s, rs, mtu);
    PartsStore(handle, value, 0, mtu, []);
    if t.phase.Preparing? {
      assert Parts(handle, value, 0, mtu)[..|t.sent|] == t.sent;
    }
  }

  // ---- Writing: values too long to execute ---------------------------------------------------

  // The 16-bit offset never equals a length above 65535, so the write goes round for ever.
  lemma {:induction false} NeverExecutes(s: Write, rs: seq<Reply>, mtu: nat)
    requires mtu >= 6 && |s.value| > 0xFFFF && !s.phase.Executed? && WriteConforms(s, rs, mtu)
    ensures !WriteRun(s, rs, mtu).phase.Executed?
    decreases |rs|
  {
    if rs != [] && s.phase.Preparing? {
      NeverExecutes(PrepareCb(s, rs[0], mtu), rs[1..], mtu);
    }
  }

  // The acknowledgements of a server without errors.
  lemma {:induction false} Acknowledged(handle: u16, value: seq<byte>, s: Write, mtu: nat) returns (rs: seq<Reply>)
    requires mtu >= 6 && |value| <= 0xFFFF && Tiling(handle, value, s, mtu) && (s.phase.Preparing? || s.phase.Executed?)
    ensures WriteConforms(s, rs, mtu) && WriteRun(s, rs, mtu).phase.Executed?
    decreases |value| - s.offset, s.phase.Preparing?
  {
    rs := [];
    if s.phase.Preparing? {
      var r := Echo(LastSent(s));
      EchoAdvances(handle, value, s, mtu);
      WriteRound(handle, value, s, r, mtu);
      var t := PrepareCb(s, r, mtu);
      var rest := Acknowledged(handle, value, t, mtu);
      rs := [r] + rest;
      assert rs[1..] == rest;
    }
  }

  // A write that takes the long path can end in an Execute Write exactly when its length fits 16 bits.
  lemma ExecutesIffShort(handle: u16, value: seq<byte>, mtu: nat)
    requires mtu >= 6 && mtu - 3 < |value|
    ensures (exists rs :: WriteConforms(WriteInit(handle, value, mtu), rs, mtu)
                          && WriteRun(WriteInit(handle, value, mtu), rs, mtu).phase.Executed?)
            <==> |value| <= 0xFFFF
  {
    var s := WriteInit(handle, value, mtu);
    if |value| <= 0xFFFF {
      assert s.sent == [PrepPdu(PREP_WRITE_REQ, handle, 0, value[0..], mtu)];
      var rs := Acknowledged(handle, value, s, mtu);
    } else {
      forall rs | WriteConforms(s, rs, mtu) ensures !WriteRun(s, rs, mtu).phase.Executed? {
        NeverExecutes(s, rs, mtu);
      }
    }
  }

  // ---- The program ---------------------------------------------------------------------------

  // struct read_long_data
  class LongRead {
    const handle: u16
    var blob: bool
    var buffer: seq<byte>
    var size: u16
    var out: Out

    function State(): Long
      reads this
    {
      Long(handle, blob, buffer, size, out)
    }

    // gatt_read_char
    constructor (handle: u16)
      ensures State() == ReadInit(handle)
    {
      this.handle, blob, buffer, size := handle, false, [], 0;
      out := Get(ReadReq(handle));
    }

    // read_char_helper
    method ReadCharHelper(r: Reply, mtu: nat, sent: bool)
      requires Proper(r)
      modifies this
      ensures State() == ReadCb(old(State()), r, mtu, sent)
    {
      if r.status != 0 || |r.pdu| < mtu {
        out := Deliver(r.status, r.pdu);
        return;
      }
      blob := true;
      buffer := r.pdu;
      size := |r.pdu|;
      out := if sent then Get(BlobReq(handle, |r.pdu| - 1)) else Deliver(ECODE_IO, r.pdu);
    }

    // read_blob_helper
    method ReadBlobHelper(r: Reply, mtu: nat, sent: bool)
      requires Proper(r) && size as int <= |buffer|
      modifies this
      ensures State() == BlobCb(old(State()), r, mtu, sent) && size as int <= |buffer|
    {
      if r.status != 0 || |r.pdu| == 1 {
        out := Deliver(0, buffer[..size]);
        return;
      }
      buffer := buffer[..size] + r.pdu[1..];
      size := (size as int + |r.pdu| - 1) % 0x1_0000;
      if |r.pdu| < mtu {
        out := Deliver(0, buffer[..size]);
        return;
      }
      out := if sent then Get(BlobReq(handle, (size as int + 0xFFFF) % 0x1_0000)) else Deliver(ECODE_IO, buffer[..size]);
    }
  }

  // struct write_long_data, and every request sent so far
  class LongWrite {
    const handle: u16
    const value: seq<byte>
    var offset: u16
    var phase: Phase
    var sent: seq<seq<byte>>

    function State(): Write
      reads this
    {
      Write(handle, value, offset, phase, sent)
    }

    // gatt_write_char
    constructor (handle: u16, value: seq<byte>, mtu: nat)
      requires mtu >= 5
      ensures State() == WriteInit(handle, value, mtu)
    {
      this.handle, this.value, offset, phase, sent := handle, value, 0, Single, [];
      new;
      if |value| <= mtu - 3 {
        sent := [[WRITE_REQ] + PutLe16(handle) + value];
        return;
      }
      phase := Preparing;
      PrepareWrite(mtu);
    }

    // prepare_write
    method PrepareWrite(mtu: nat)
      requires mtu >= 5 && offset as int <= |value|
      modifies this
      ensures State() == Prepare(old(State()), mtu)
    {
      sent := sent + [PrepPdu(PREP_WRITE_REQ, handle, offset, value[offset..], mtu)];
    }

    // prepare_write_cb
    method PrepareWriteCb(r: Reply, mtu: nat)
      requires mtu >= 5 && (r.status == 0 ==> NextOffset(State(), r) as int <= |value|)
      modifies this
      ensures State() == PrepareCb(old(State()), r, mtu)
    {
      if r.status != 0 {
        phase := Failed(r.status);
        return;
      }
      offset := (offset as int + |r.pdu| - 5) % 0x1_0000;
      if offset as int == |value| {
        sent := sent + [EXEC_REQ];
        phase := Executed;
        return;
      }
      PrepareWrite(mtu);
    }
  }
}
