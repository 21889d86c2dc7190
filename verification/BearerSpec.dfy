// The ATT bearer engine of src/shared/att.c, as functions on its state.
//
// Att is what `struct bt_att` and its channels hold, plus two histories: `life` records what
// happens to each accepted operation, `wire` what happens on each channel.  Class Bearer (in
// Bearer.dfy) updates the same fields in place and is proved to follow these functions.
//
// A response callback may call back into the API before it returns; `during` is the list of
// calls it makes.  Nothing reads an operation's callback once it has been entered, so entering
// it clears the field.  The callbacks run by a disconnection may call back too, each with its own
// list, and so may the timeout callback and the disconnect handlers.

module BearerSpec {
  import opened Wire
  import opened Opcodes

  // ---- State -------------------------------------------------------------------------------

  // struct att_send_op.  `serial` is the operation's identity; `timer` is 0 when not armed.
  datatype Op = Op(serial: nat, id: nat, timer: nat, ty: OpType, opcode: byte, pdu: seq<byte>,
                   callback: bool, destroy: bool)

  datatype Link = BrEdr | Le | Eatt | Local

  // struct bt_att_chan.  `sockLevel` is the security level the kernel keeps for the socket.
  datatype Chan = Chan(cid: nat, link: Link, secLevel: int, sockLevel: int, queue: seq<Op>,
                       pendingReq: Option<Op>, pendingInd: Option<Op>,
                       writerActive: bool, inReq: bool, mtu: u16, shut: bool)

  datatype LifeEvent =
    | Accepted(serial: nat, id: nat, pdu: seq<byte>, callback: bool, destroy: bool)
    | Called(serial: nat, opcode: byte, rsp: byte, data: seq<byte>)
    | Destroyed(serial: nat)
    | Freed(serial: nat)

  // ByRetry(sure): `sure` when the channel's security level could be read before it was raised.
  datatype How = ByResponse | ByTimeout | ByRetry(sure: bool)

  datatype WireEvent =
    | Wrote(cid: nat, serial: nat, id: nat, ty: OpType, pdu: seq<byte>)
    | Ended(cid: nat, serial: nat, ty: OpType, how: How)
    | Delivered(cid: nat, opcode: byte)
    | Handled(cid: nat, opcode: byte)
    | ShutDown(cid: nat)
    | SecuritySet(cid: nat)
    | Closed(cid: nat)

  datatype Timer = Timer(cid: nat, opId: nat)

  // struct bt_att
  datatype Att = Att(chans: seq<Chan>, mtu: u16, reqQ: seq<Op>, indQ: seq<Op>, writeQ: seq<Op>,
                     notify: seq<byte>, crypto: bool, refs: nat,
                     nextSendId: nat, nextSerial: nat, nextCid: nat, nextTimer: nat,
                     timers: map<nat, Timer>, life: seq<LifeEvent>, wire: seq<WireEvent>)

  // Calls into the API that a response callback or a request handler can make.
  datatype Call =
    | Send(opcode: byte, payload: seq<byte>, callback: bool, destroy: bool)
    | ChanSend(i: nat, opcode: byte, payload: seq<byte>, callback: bool, destroy: bool)
    | Cancel(id: nat)
    | CancelAll
    | SetMtu(mtu: u16)
    | SetSecurity(level: int, setOk: bool)

  // What the socket and the signature check answer while one PDU is handled.
  datatype RxEnv = RxEnv(getOk: bool, setOk: bool, signedOk: bool)

  // One turn of the event loop.
  datatype Action =
    | Api(call: Call)
    | Register(opcode: byte)
    | Unregister(k: nat)
    | UnregisterAll
    | WriterReady(i: nat, written: int, during: seq<Call>)
    | Received(i: nat, bytes: seq<byte>, env: RxEnv, during: seq<Call>)
    | TimerFired(tid: nat, first: seq<Call>, during: seq<Call>)
    | Disconnected(i: nat, each: map<nat, seq<Call>>, after: seq<Call>)
    | Attach(ioMtu: u16, level: int)
    | Ref
    | Unref

  const SEC_AUTO: int := 0
  const SEC_LOW: int := 1
  const SEC_MEDIUM: int := 2
  const SEC_HIGH: int := 3
  const SEC_FIPS: int := 4
  const EIO: int := 5

  // bt_att_chan_new
  function NewChan(cid: nat, link: Link, ioMtu: u16, level: int): Option<Chan> {
    var mtu := if link.Local? || link.Le? then DEFAULT_LE_MTU else ioMtu;
    if mtu < DEFAULT_LE_MTU then None
    else Some(Chan(cid, link, if link.Local? then SEC_LOW else SEC_AUTO, level, [], None, None,
                   false, false, mtu, false))
  }

  // bt_att_new
  function NewAtt(link: Link, ioMtu: u16, level: int, crypto: bool): Option<Att> {
    match NewChan(0, link, ioMtu, level)
    case None => None
    case Some(c) => Some(Att([c], c.mtu, [], [], [], [], crypto, 1, 0, 0, 1, 1, map[], [], []))
  }

  // ---- Ending an operation -----------------------------------------------------------------

  function Slot(c: Chan, ty: OpType): Option<Op> { if ty.Ind? then c.pendingInd else c.pendingReq }

  function WithSlot(c: Chan, ty: OpType, o: Option<Op>): Chan {
    if ty.Ind? then c.(pendingInd := o) else c.(pendingReq := o)
  }

  function DropTimer(timers: map<nat, Timer>, tid: nat): map<nat, Timer> {
    if tid != 0 then timers - {tid} else timers
  }

  function DestroyNote(op: Op): seq<LifeEvent> { if op.destroy then [Destroyed(op.serial)] else [] }

  // destroy_att_send_op
  function DestroyOp(a: Att, op: Op): (r: Att)
    ensures r.chans == a.chans && r.refs == a.refs
  {
    a.(timers := DropTimer(a.timers, op.timer), life := a.life + DestroyNote(op) + [Freed(op.serial)])
  }

  function DestroyOps(a: Att, ops: seq<Op>): (r: Att)
    ensures r.chans == a.chans && r.refs == a.refs
    decreases |ops|
  {
    if ops == [] then a else DestroyOps(DestroyOp(a, ops[0]), ops[1..])
  }

  // The response callback of `op`, if it has one.
  function CallOp(a: Att, op: Op, rsp: byte, data: seq<byte>): (r: Att)
    ensures r.chans == a.chans && r.refs == a.refs
  {
    if op.callback then a.(life := a.life + [Called(op.serial, op.opcode, rsp, data)]) else a
  }

  // The API calls the callback of `op` makes; `during` lists them by operation.
  function CallsOf(during: map<nat, seq<Call>>, op: Op): seq<Call> {
    if op.serial in during then during[op.serial] else []
  }

  // disc_att_send_op
  function DiscOp(a: Att, op: Op, during: map<nat, seq<Call>>): (r: Att)
    ensures |r.chans| == |a.chans| && r.refs == a.refs
  {
    DestroyOp(CallAndRun(a, op, ERROR_RSP, [], CallsOf(during, op)), op)
  }

  function DiscOps(a: Att, ops: seq<Op>, during: map<nat, seq<Call>>): (r: Att)
    ensures |r.chans| == |a.chans| && r.refs == a.refs
    decreases |ops|
  {
    if ops == [] then a else DiscOps(DiscOp(a, ops[0], during), ops[1..], during)
  }

  function DiscSlot(a: Att, o: Option<Op>, during: map<nat, seq<Call>>): (r: Att)
    ensures |r.chans| == |a.chans| && r.refs == a.refs
  {
    match o case None => a case Some(op) => DiscOp(a, op, during)
  }

  function DestroySlot(a: Att, o: Option<Op>): (r: Att)
    ensures r.chans == a.chans && r.refs == a.refs
  {
    match o case None => a case Some(op) => DestroyOp(a, op)
  }

  // cancel_att_send_op: the operation stays, its handlers go.
  function Stripped(op: Op): Op { op.(callback := false, destroy := false) }

  function StripSlot(a: Att, i: nat, ty: OpType): (r: Att)
    requires i < |a.chans|
    ensures |r.chans| == |a.chans| && r.refs == a.refs
  {
    match Slot(a.chans[i], ty)
    case None => a
    case Some(op) => a.(chans := a.chans[i := WithSlot(a.chans[i], ty, Some(Stripped(op)))],
                        life := a.life + DestroyNote(op))
  }

  // ---- Writer wake-up ----------------------------------------------------------------------

  // wakeup_chan_writer, given which shared queues are empty
  function WakeChan(c: Chan, noReq: bool, noInd: bool, noWrite: bool): Chan {
    if c.writerActive then c
    else if c.queue == [] && noWrite && (c.pendingReq.Some? || noReq) && (c.pendingInd.Some? || noInd)
    then c
    else c.(writerActive := true)
  }

  function Wake(a: Att, i: nat): (r: Att)
    requires i < |a.chans|
    ensures |r.chans| == |a.chans| && r.refs == a.refs
  {
    a.(chans := a.chans[i := WakeChan(a.chans[i], a.reqQ == [], a.indQ == [], a.writeQ == [])])
  }

  // wakeup_writer
  function WakeAll(a: Att): (r: Att)
    ensures |r.chans| == |a.chans| && r.refs == a.refs
  {
    a.(chans := seq(|a.chans|, i requires 0 <= i < |a.chans| =>
                WakeChan(a.chans[i], a.reqQ == [], a.indQ == [], a.writeQ == [])))
  }

  // ---- Sending -----------------------------------------------------------------------------

  // create_att_send_op with encode_pdu, without a local signing key.  The 16-bit length is
  // 1 + |payload|; a caller's payload is at most 65534 bytes, so it does not wrap.
  function CreateOp(a: Att, opcode: byte, payload: seq<byte>, callback: bool, destroy: bool): Option<Op> {
    var ty := OpTypeOf(opcode);
    if ty.Unknown? then None
    else if callback != (ty.Req? || ty.Ind?) then None
    else if 1 + |payload| > a.mtu then None
    else Some(Op(a.nextSerial, 0, 0, ty, opcode, [opcode] + payload, callback, destroy))
  }

  function Accept(a: Att, op: Op): Att {
    a.(nextSerial := a.nextSerial + 1,
       life := a.life + [Accepted(op.serial, op.id, op.pdu, op.callback, op.destroy)])
  }

  function NextId(a: Att): nat { if a.nextSendId < 1 then 1 else a.nextSendId }

  function Enqueue(a: Att, op: Op): (r: Att)
    ensures r.chans == a.chans && r.refs == a.refs
  {
    match op.ty
    case Req => a.(reqQ := a.reqQ + [op])
    case Ind => a.(indQ := a.indQ + [op])
    case _ => a.(writeQ := a.writeQ + [op])
  }

  // bt_att_send
  function DoSend(a: Att, opcode: byte, payload: seq<byte>, callback: bool, destroy: bool): (r: Att)
    ensures |r.chans| == |a.chans| && r.refs == a.refs
  {
    if a.chans == [] then a
    else match CreateOp(a, opcode, payload, callback, destroy)
      case None => a
      case Some(op) =>
        var named := op.(id := NextId(a));
        WakeAll(Enqueue(Accept(a, named).(nextSendId := NextId(a) + 1), named))
  }

  // The id bt_att_send returns; 0 when nothing was accepted.
  function SentId(a: Att, opcode: byte, payload: seq<byte>, callback: bool, destroy: bool): nat {
    if a.chans == [] || CreateOp(a, opcode, payload, callback, destroy).None? then 0 else NextId(a)
  }

  // bt_att_chan_send: the operation keeps id 0.
  function DoChanSend(a: Att, i: nat, opcode: byte, payload: seq<byte>, callback: bool, destroy: bool): (r: Att)
    ensures |r.chans| == |a.chans| && r.refs == a.refs
  {
    if i >= |a.chans| then a
    else match CreateOp(a, opcode, payload, callback, destroy)
      case None => a
      case Some(op) =>
        var c := a.chans[i];
        Wake(Accept(a, op).(chans := a.chans[i := c.(queue := c.queue + [op])]), i)
  }

  // ---- Cancelling --------------------------------------------------------------------------

  // Index of the first operation with this id, or |q|.
  function FindId(q: seq<Op>, id: nat): (j: nat)
    ensures j <= |q|
    ensures j < |q| ==> q[j].id == id
    ensures forall m :: 0 <= m < j ==> q[m].id != id
  {
    if q == [] || q[0].id == id then 0 else 1 + FindId(q[1..], id)
  }

  function Without(q: seq<Op>, j: nat): seq<Op>
    requires j < |q|
  {
    q[..j] + q[j + 1..]
  }

  // bt_att_chan_cancel
  function ChanCancel(a: Att, i: nat, id: nat): (r: (Att, bool))
    requires i < |a.chans|
    ensures |r.0.chans| == |a.chans| && r.0.refs == a.refs && (!r.1 ==> r.0 == a)
  {
    var c := a.chans[i];
    if c.pendingReq.Some? && c.pendingReq.value.id == id then (StripSlot(a, i, Req), true)
    else if c.pendingInd.Some? && c.pendingInd.value.id == id then (StripSlot(a, i, Ind), true)
    else
      var j := FindId(c.queue, id);
      if j == |c.queue| then (a, false)
      else (Wake(DestroyOp(a.(chans := a.chans[i := c.(queue := Without(c.queue, j))]), c.queue[j]), i), true)
  }

  function CancelOnChans(a: Att, i: nat, id: nat): (r: (Att, bool))
    requires i <= |a.chans|
    ensures |r.0.chans| == |a.chans| && r.0.refs == a.refs && (!r.1 ==> r.0 == a)
    decreases |a.chans| - i
  {
    if i == |a.chans| then (a, false)
    else
      var r := ChanCancel(a, i, id);
      if r.1 then r else CancelOnChans(a, i + 1, id)
  }

  // bt_att_cancel
  function DoCancel(a: Att, id: nat): (r: (Att, bool))
    ensures |r.0.chans| == |a.chans| && r.0.refs == a.refs
  {
    if id == 0 then (a, false)
    else
      var r := CancelOnChans(a, 0, id);
      if r.1 then r
      else
        var j := FindId(a.reqQ, id);
        var k := FindId(a.indQ, id);
        var m := FindId(a.writeQ, id);
        if j < |a.reqQ| then (WakeAll(DestroyOp(a.(reqQ := Without(a.reqQ, j)), a.reqQ[j])), true)
        else if k < |a.indQ| then (WakeAll(DestroyOp(a.(indQ := Without(a.indQ, k)), a.indQ[k])), true)
        else if m < |a.writeQ| then (WakeAll(DestroyOp(a.(writeQ := Without(a.writeQ, m)), a.writeQ[m])), true)
        else (a, false)
  }

  function StripFrom(a: Att, i: nat): (r: Att)
    requires i <= |a.chans|
    ensures |r.chans| == |a.chans| && r.refs == a.refs
    decreases |a.chans| - i
  {
    if i == |a.chans| then a else StripFrom(StripSlot(StripSlot(a, i, Req), i, Ind), i + 1)
  }

  function DestroyQueues(a: Att): (r: Att)
    ensures r.chans == a.chans && r.refs == a.refs
  {
    var a1 := DestroyOps(a.(reqQ := []), a.reqQ);
    var a2 := DestroyOps(a1.(indQ := []), a1.indQ);
    DestroyOps(a2.(writeQ := []), a2.writeQ)
  }

  // bt_att_cancel_all
  function DoCancelAll(a: Att): (r: Att)
    ensures |r.chans| == |a.chans| && r.refs == a.refs
  {
    StripFrom(DestroyQueues(a), 0)
  }

  // ---- MTU and security --------------------------------------------------------------------

  // bt_att_set_mtu: the original channel is the tail.
  function DoSetMtu(a: Att, mtu: u16): (r: Att)
    ensures |r.chans| == |a.chans| && r.refs == a.refs
  {
    if mtu < DEFAULT_LE_MTU || a.chans == [] then a
    else
      var t := |a.chans| - 1;
      a.(chans := a.chans[t := a.chans[t].(mtu := mtu)], mtu := if mtu > a.mtu then mtu else a.mtu)
  }

  // bt_att_chan_set_security
  function SetChanSecurity(c: Chan, level: int, setOk: bool): Option<Chan> {
    if c.link.Local? then Some(c.(secLevel := level))
    else if setOk then Some(c.(sockLevel := level)) else None
  }

  // What bt_att_set_mtu returns; with no channel it is an error number, and so true.
  predicate MtuTaken(a: Att, mtu: u16) { mtu >= DEFAULT_LE_MTU }

  // What bt_att_set_security returns; with no channel it is an error number too.
  predicate SecurityTaken(a: Att, level: int, setOk: bool) {
    SEC_AUTO <= level <= SEC_HIGH && (a.chans == [] || SetChanSecurity(a.chans[|a.chans| - 1], level, setOk).Some?)
  }

  // bt_att_set_security
  function DoSetSecurity(a: Att, level: int, setOk: bool): (r: Att)
    ensures |r.chans| == |a.chans| && r.refs == a.refs
  {
    if level < SEC_AUTO || level > SEC_HIGH || a.chans == [] then a
    else
      var t := |a.chans| - 1;
      match SetChanSecurity(a.chans[t], level, setOk)
      case None => a
      case Some(c) => a.(chans := a.chans[t := c], wire := a.wire + [SecuritySet(c.cid)])
  }

  function Level(c: Chan): int { if c.link.Local? then c.secLevel else c.sockLevel }

  // bt_att_chan_get_security
  function GetChanSecurity(c: Chan, getOk: bool): int {
    if c.link.Local? || getOk then Level(c) else -EIO
  }

  // change_security: the level to raise to, if the error asks for one.
  function RaisedLevel(c: Chan, ecode: byte, getOk: bool): Option<int> {
    var now := GetChanSecurity(c, getOk);
    if c.secLevel != SEC_AUTO then None
    else if ecode == ECODE_INSUFFICIENT_ENCRYPTION && now < SEC_MEDIUM then Some(SEC_MEDIUM)
    else if ecode == ECODE_AUTHENTICATION then
      if now < SEC_MEDIUM then Some(SEC_MEDIUM)
      else if now < SEC_HIGH then Some(SEC_HIGH)
      else if now < SEC_FIPS then Some(SEC_FIPS)
      else None
    else None
  }

  function ChangeSecurity(c: Chan, ecode: byte, env: RxEnv): Option<Chan> {
    match RaisedLevel(c, ecode, env.getOk)
    case None => None
    case Some(level) => SetChanSecurity(c, level, env.setOk)
  }

  // ---- Calls made from callbacks -----------------------------------------------------------

  function DoCall(a: Att, call: Call): (r: Att)
    ensures |r.chans| == |a.chans| && r.refs == a.refs
  {
    match call
    case Send(opcode, payload, callback, destroy) => DoSend(a, opcode, payload, callback, destroy)
    case ChanSend(i, opcode, payload, callback, destroy) => DoChanSend(a, i, opcode, payload, callback, destroy)
    case Cancel(id) => DoCancel(a, id).0
    case CancelAll => DoCancelAll(a)
    case SetMtu(mtu) => DoSetMtu(a, mtu)
    case SetSecurity(level, setOk) => DoSetSecurity(a, level, setOk)
  }

  function RunCalls(a: Att, calls: seq<Call>): (r: Att)
    ensures |r.chans| == |a.chans| && r.refs == a.refs
    decreases |calls|
  {
    if calls == [] then a else RunCalls(DoCall(a, calls[0]), calls[1..])
  }

  // The response callback of `op`, with the API calls it makes before returning.
  function CallAndRun(a: Att, op: Op, rsp: byte, data: seq<byte>, during: seq<Call>): (r: Att)
    ensures |r.chans| == |a.chans| && r.refs == a.refs
  {
    RunCalls(CallOp(a, op, rsp, data), if op.callback then during else [])
  }

  // ---- Writing -----------------------------------------------------------------------------

  // pick_next_send_op
  function PickNext(a: Att, i: nat): (r: (Option<Op>, Att))
    requires i < |a.chans|
    ensures |r.1.chans| == |a.chans| && r.1.refs == a.refs
  {
    var c := a.chans[i];
    if c.queue != [] then (Some(c.queue[0]), a.(chans := a.chans[i := c.(queue := c.queue[1..])]))
    else if a.writeQ != [] && |a.writeQ[0].pdu| <= c.mtu then (Some(a.writeQ[0]), a.(writeQ := a.writeQ[1..]))
    else if c.pendingReq.None? && a.reqQ != [] && |a.reqQ[0].pdu| <= c.mtu then (Some(a.reqQ[0]), a.(reqQ := a.reqQ[1..]))
    else if c.pendingInd.None? && a.indQ != [] && |a.indQ[0].pdu| <= c.mtu then (Some(a.indQ[0]), a.(indQ := a.indQ[1..]))
    else (None, a)
  }

  // The written operation is kept pending (requests, indications) or destroyed.
  function AfterWrite(a: Att, i: nat, op: Op): (r: Att)
    requires i < |a.chans|
    ensures |r.chans| == |a.chans| && r.refs == a.refs
  {
    var c := a.chans[i];
    var a1 := a.(wire := a.wire + [Wrote(c.cid, op.serial, op.id, op.ty, op.pdu)]);
    match op.ty
    case Req | Ind =>
      a1.(chans := a.chans[i := WithSlot(c, op.ty, Some(op.(timer := a.nextTimer)))],
          timers := a.timers[a.nextTimer := Timer(c.cid, op.id)], nextTimer := a.nextTimer + 1)
    case Rsp => DestroyOp(a1.(chans := a.chans[i := c.(inReq := false)]), op)
    case _ => DestroyOp(a1, op)
  }

  // can_write_data; `written` is what io_send returned.  Only 0 counts as failure.
  function DoWrite(a: Att, i: nat, written: int, during: seq<Call>): (r: Att)
    requires i < |a.chans|
    ensures |r.chans| == |a.chans| && r.refs == a.refs
  {
    var (next, a1) := PickNext(a, i);
    match next
    case None => a.(chans := a.chans[i := a.chans[i].(writerActive := false)])
    case Some(op) =>
      if written == 0 then DestroyOp(CallAndRun(a1, op, ERROR_RSP, [], during), op)
      else AfterWrite(a1, i, op)
  }

  // ---- Receiving ---------------------------------------------------------------------------

  function ShutChan(a: Att, i: nat): (r: Att)
    requires i < |a.chans|
    ensures |r.chans| == |a.chans| && r.refs == a.refs
  {
    a.(chans := a.chans[i := a.chans[i].(shut := true)], wire := a.wire + [ShutDown(a.chans[i].cid)])
  }

  // The pending operation's slot is emptied for the stated reason.
  function Release(a: Att, i: nat, op: Op, ty: OpType, how: How): (r: Att)
    requires i < |a.chans|
    ensures |r.chans| == |a.chans| && r.refs == a.refs
  {
    a.(chans := a.chans[i := WithSlot(a.chans[i], ty, None)],
       wire := a.wire + [Ended(a.chans[i].cid, op.serial, ty, how)])
  }

  // Callback, destroy, empty slot, wake: the tail of handle_rsp and of handle_conf.  While the
  // callback runs the operation still occupies its slot.
  function Finish(a: Att, i: nat, ty: OpType, rsp: byte, data: seq<byte>, during: seq<Call>): (r: Att)
    requires i < |a.chans|
    ensures |r.chans| == |a.chans| && r.refs == a.refs
  {
    match Slot(a.chans[i], ty)
    case None => a
    case Some(op) =>
      var entered := a.(chans := a.chans[i := WithSlot(a.chans[i], ty, Some(op.(callback := false)))]);
      var a1 := CallAndRun(entered, op, rsp, data, during);
      match Slot(a1.chans[i], ty)
      case None => a1
      case Some(op1) => Wake(Release(DestroyOp(a1, op1), i, op1, ty, ByResponse), i)
  }

  // handle_error_rsp's retry: the pending request goes back to the head of the request queue.
  function Retry(a: Att, i: nat, op: Op, c: Chan, sure: bool): (r: Att)
    requires i < |a.chans|
    ensures |r.chans| == |a.chans| && r.refs == a.refs
  {
    Release(a.(chans := a.chans[i := c], timers := DropTimer(a.timers, op.timer),
               reqQ := [op.(timer := 0)] + a.reqQ), i, op, Req, ByRetry(sure))
  }

  // The request opcode a response names; 0 when it names none.
  function NamedRequest(opcode: byte, body: seq<byte>): byte {
    if opcode == ERROR_RSP then (if |body| == 4 then body[0] else 0) else ReqOpcodeOf(opcode)
  }

  // handle_rsp
  function HandleRsp(a: Att, i: nat, opcode: byte, body: seq<byte>, env: RxEnv, during: seq<Call>): (r: Att)
    requires i < |a.chans|
    ensures |r.chans| == |a.chans| && r.refs == a.refs
  {
    var c := a.chans[i];
    match c.pendingReq
    case None => ShutChan(a, i)
    case Some(op) =>
      var raised := if opcode == ERROR_RSP && |body| == 4 then ChangeSecurity(c, body[3], env) else None;
      match raised
      case Some(c1) => Wake(Retry(a, i, op, c1, c.link.Local? || env.getOk), i)
      case None =>
        var named := NamedRequest(opcode, body);
        if named != 0 && named == op.opcode then Finish(a, i, Req, opcode, body, during)
        else Finish(a, i, Req, ERROR_RSP, [], during)
  }

  // handle_conf
  function HandleConf(a: Att, i: nat, body: seq<byte>, during: seq<Call>): (r: Att)
    requires i < |a.chans|
    ensures |r.chans| == |a.chans| && r.refs == a.refs
  {
    if a.chans[i].pendingInd.None? || body != [] then ShutChan(a, i)
    else Finish(a, i, Ind, HANDLE_CONF, [], during)
  }

  // opcode_match
  predicate OpcodeMatch(registered: byte, opcode: byte) {
    (registered == ALL_REQUESTS && (OpTypeOf(opcode).Req? || OpTypeOf(opcode).Cmd?)) || registered == opcode
  }

  predicate HasHandler(notify: seq<byte>, opcode: byte) {
    exists k :: 0 <= k < |notify| && OpcodeMatch(notify[k], opcode)
  }

  // respond_not_supported
  function RespondNotSupported(a: Att, opcode: byte): (r: Att)
    ensures |r.chans| == |a.chans| && r.refs == a.refs
  {
    DoSend(a, ERROR_RSP, [opcode, 0, 0, ECODE_REQUEST_NOT_SUPPORTED], false, false)
  }

  // handle_notify.  The reference it takes is dropped again on every path but one: a signature that
  // does not check out returns at once.
  function HandleNotify(a: Att, i: nat, opcode: byte, env: RxEnv, during: seq<Call>): (r: Att)
    requires i < |a.chans|
    ensures |r.chans| == |a.chans|
  {
    var a1 := a.(wire := a.wire + [Delivered(a.chans[i].cid, opcode)]);
    var found := HasHandler(a.notify, opcode);
    if found && Signed(opcode) && a.crypto && !env.signedOk then a1.(refs := a.refs + 1)
    else if found && !(a.chans[|a.chans| - 1].link.BrEdr? && opcode == MTU_REQ) then
      RunCalls(a1.(wire := a1.wire + [Handled(a.chans[i].cid, opcode)]), during)
    else if !OpTypeOf(opcode).Cmd? then RespondNotSupported(a1, opcode)
    else a1
  }

  // can_read_data; a read returns at most the channel's MTU.
  function DoRead(a: Att, i: nat, bytes: seq<byte>, env: RxEnv, during: seq<Call>): (r: Att)
    requires i < |a.chans|
    ensures |r.chans| == |a.chans|
  {
    var c := a.chans[i];
    var pdu := if |bytes| <= c.mtu then bytes else bytes[..c.mtu];
    if |pdu| < 1 then a
    else
      match OpTypeOf(pdu[0])
      case Rsp => HandleRsp(a, i, pdu[0], pdu[1..], env, during)
      case Conf => HandleConf(a, i, pdu[1..], during)
      case Req =>
        if c.inReq then ShutChan(a, i)
        else HandleNotify(a.(chans := a.chans[i := c.(inReq := true)]), i, pdu[0], env, during)
      case _ => HandleNotify(a, i, pdu[0], env, during)
  }

  // ---- Timeouts, disconnection, teardown ---------------------------------------------------

  // Index of the channel, or |chans|.
  function FindChan(chans: seq<Chan>, cid: nat): (i: nat)
    ensures i <= |chans|
    ensures i < |chans| ==> chans[i].cid == cid
    ensures forall j :: 0 <= j < i ==> chans[j].cid != cid
  {
    if chans == [] || chans[0].cid == cid then 0 else 1 + FindChan(chans[1..], cid)
  }

  function SlotHasId(c: Chan, ty: OpType, id: nat): bool {
    Slot(c, ty).Some? && Slot(c, ty).value.id == id
  }

  // `first` is what the user's timeout callback calls, `during` what the operation's own does.
  function TimeOut(a: Att, i: nat, ty: OpType, first: seq<Call>, during: seq<Call>): (r: Att)
    requires i < |a.chans|
    ensures |r.chans| == |a.chans| && r.refs == a.refs
  {
    match Slot(a.chans[i], ty)
    case None => a
    case Some(op) =>
      var a1 := CallAndRun(RunCalls(Release(a, i, op, ty, ByTimeout), first), op, ERROR_RSP, [], during);
      ShutChan(DestroyOp(a1, op.(timer := 0)), i)
  }

  // timeout_cb, run by timer `tid`, which is gone afterwards
  function DoTimeout(a: Att, tid: nat, first: seq<Call>, during: seq<Call>): (r: Att)
    ensures r.refs == a.refs
  {
    if tid !in a.timers then a
    else
      var t := a.timers[tid];
      var a0 := a.(timers := a.timers - {tid});
      var i := FindChan(a.chans, t.cid);
      if i == |a.chans| then a0
      else if SlotHasId(a.chans[i], Req, t.opId) then TimeOut(a0, i, Req, first, during)
      else if SlotHasId(a.chans[i], Ind, t.opId) then TimeOut(a0, i, Ind, first, during)
      else a0
  }

  // The shared queues are failed on every disconnection, whichever channel it is.  Each queue is
  // emptied first, so that what a callback sends meanwhile is queued behind.
  function DiscQueues(a: Att, during: map<nat, seq<Call>>): (r: Att)
    ensures |r.chans| == |a.chans| && r.refs == a.refs
  {
    var a1 := DiscOps(a.(reqQ := []), a.reqQ, during);
    var a2 := DiscOps(a1.(indQ := []), a1.indQ, during);
    DiscOps(a2.(writeQ := []), a2.writeQ, during)
  }

  // disconnect_cb; `after` is what the disconnect handlers call, once no channel is left
  function DoDisconnect(a: Att, i: nat, during: map<nat, seq<Call>>, after: seq<Call>): (r: Att)
    requires i < |a.chans|
    ensures r.refs == a.refs
  {
    var c := a.chans[i];
    var a0 := a.(chans := a.chans[..i] + a.chans[i + 1..], wire := a.wire + [Closed(c.cid)]);
    var a3 := DiscQueues(a0, during);
    var a4 := DestroyOps(DiscSlot(DiscSlot(a3, c.pendingReq, during), c.pendingInd, during), c.queue);
    if a4.chans == [] then RunCalls(a4, after).(notify := []) else a4
  }

  // bt_att_chan_free
  function FreeChan(a: Att, c: Chan): (r: Att)
    ensures r.chans == a.chans && r.refs == a.refs
  {
    var b := DestroyOps(DestroySlot(DestroySlot(a, c.pendingReq), c.pendingInd), c.queue);
    b.(wire := b.wire + [Closed(c.cid)])
  }

  function FreeChans(a: Att): (r: Att)
    ensures r.chans == [] && r.refs == a.refs
    decreases |a.chans|
  {
    if a.chans == [] then a else FreeChans(FreeChan(a.(chans := a.chans[1..]), a.chans[0]))
  }

  // bt_att_free
  function DoClose(a: Att): (r: Att)
    ensures r.chans == [] && r.refs == a.refs
  {
    FreeChans(DoCancelAll(a.(notify := [])))
  }

  // bt_att_unref
  function DoUnref(a: Att): Att {
    if a.refs == 0 then a
    else if a.refs > 1 then a.(refs := a.refs - 1)
    else DoClose(a.(refs := 0))
  }

  // bt_att_attach_fd: an EATT channel, pushed to the head
  function DoAttach(a: Att, ioMtu: u16, level: int): (r: Att)
    ensures r.refs == a.refs
  {
    match NewChan(a.nextCid, Eatt, ioMtu, level)
    case None => a
    case Some(c) =>
      Wake(a.(chans := [c] + a.chans, nextCid := a.nextCid + 1, mtu := if c.mtu > a.mtu then c.mtu else a.mtu), 0)
  }

  // ---- Runs --------------------------------------------------------------------------------

  // An action that cannot happen in this state (an unknown channel, an idle writer) changes nothing.
  function Step(a: Att, act: Action): Att {
    match act
    case Api(call) => DoCall(a, call)
    case Register(opcode) => if a.chans == [] then a else a.(notify := a.notify + [opcode])
    case Unregister(k) => if k < |a.notify| then a.(notify := a.notify[..k] + a.notify[k + 1..]) else a
    case UnregisterAll => a.(notify := [])
    case WriterReady(i, written, during) =>
      if i < |a.chans| && a.chans[i].writerActive then DoWrite(a, i, written, during) else a
    case Received(i, bytes, env, during) => if i < |a.chans| then DoRead(a, i, bytes, env, during) else a
    case TimerFired(tid, first, during) => DoTimeout(a, tid, first, during)
    case Disconnected(i, during, after) => if i < |a.chans| then DoDisconnect(a, i, during, after) else a
    case Attach(ioMtu, level) => DoAttach(a, ioMtu, level)
    case Ref => if a.refs == 0 then a else a.(refs := a.refs + 1)
    case Unref => DoUnref(a)
  }

  function Run(a: Att, acts: seq<Action>): Att
    decreases |acts|
  {
    if acts == [] then a else Run(Step(a, acts[0]), acts[1..])
  }

  // Dedicated channel queues are given no request and no indication.  (bt_att_chan_send_rsp, the one
  // caller in the source, gives them responses.)
  predicate PlainCall(call: Call) { call.ChanSend? ==> !OpTypeOf(call.opcode).Req? && !OpTypeOf(call.opcode).Ind? }

  predicate PlainCalls(calls: seq<Call>) { forall k :: 0 <= k < |calls| ==> PlainCall(calls[k]) }

  predicate PlainMap(during: map<nat, seq<Call>>) { forall k :: k in during ==> PlainCalls(during[k]) }

  predicate Plain(act: Action) {
    match act
    case Api(call) => PlainCall(call)
    case WriterReady(_, _, during) => PlainCalls(during)
    case Received(_, _, _, during) => PlainCalls(during)
    case TimerFired(_, first, during) => PlainCalls(first) && PlainCalls(during)
    case Disconnected(_, during, after) => PlainMap(during) && PlainCalls(after)
    case _ => true
  }

  predicate PlainRun(acts: seq<Action>) { forall k :: 0 <= k < |acts| ==> Plain(acts[k]) }
}
