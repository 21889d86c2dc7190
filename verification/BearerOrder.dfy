// One channel, as libble uses the engine: everything sent through one queue is written in the order it
// was sent.  A queue here is a lane: requests, indications and the other PDUs sent to the bearer, and
// those sent to the channel itself.

module BearerOrder {
  import opened Wire
  import opened Opcodes
  import opened BearerSpec
  import opened BearerSound
  import opened BearerPlaces
  import opened BearerTalk
  import opened BearerRuns
  import opened BearerTheorems
  import opened BearerSolo

  // ---- Lanes ---------------------------------------------------------------------------------

  datatype Lane = Requests | Indications | Writes | Own

  // Operations sent to a channel have no id.
  function LaneOf(id: nat, ty: OpType): Lane {
    if id == 0 then Own else match ty case Req => Requests case Ind => Indications case _ => Writes
  }

  predicate On(e: WireEvent, lane: Lane) { e.Wrote? && LaneOf(e.id, e.ty) == lane }

  // The last operation of the lane written, -1 before the first.
  function LastOf(wire: seq<WireEvent>, lane: Lane): int {
    if wire == [] then -1
    else
      var e := wire[|wire| - 1];
      if On(e, lane) then e.serial else LastOf(wire[..|wire| - 1], lane)
  }

  predicate InOrder(wire: seq<WireEvent>, lane: Lane) {
    wire != [] ==>
      var e, before := wire[|wire| - 1], wire[..|wire| - 1];
      InOrder(before, lane) && (On(e, lane) ==> LastOf(before, lane) <= e.serial)
  }

  function QueueOf(a: Att, lane: Lane): seq<Op> {
    match lane
    case Requests => a.reqQ
    case Indications => a.indQ
    case Writes => a.writeQ
    case Own => if a.chans != [] then a.chans[0].queue else []
  }

  function PendingOf(a: Att, lane: Lane): seq<Op> {
    if a.chans == [] then []
    else match lane
      case Requests => OfSlot(a.chans[0].pendingReq)
      case Indications => OfSlot(a.chans[0].pendingInd)
      case _ => []
  }

  function OfSlot(o: Option<Op>): seq<Op> { if o.Some? then [o.value] else [] }

  // What waits: the pending operation, then the queue.
  function Line(a: Att, lane: Lane): seq<Op> { PendingOf(a, lane) + QueueOf(a, lane) }

  // Operations of this lane, ascending between lo and hi.
  ghost predicate Ascending(q: seq<Op>, lane: Lane, lo: int, hi: int) {
    && (forall k :: 0 <= k < |q| ==> lo <= q[k].serial < hi && LaneOf(q[k].id, q[k].ty) == lane)
    && (forall j, k :: 0 <= j < k < |q| ==> q[j].serial < q[k].serial)
  }

  ghost predicate InLine(a: Att, lane: Lane) {
    && |a.chans| <= 1
    && InOrder(a.wire, lane) && LastOf(a.wire, lane) < a.nextSerial
    && Ascending(Line(a, lane), lane, LastOf(a.wire, lane), a.nextSerial)
  }

  ghost predicate AllInLine(a: Att) {
    InLine(a, Requests) && InLine(a, Indications) && InLine(a, Writes) && InLine(a, Own)
  }

  lemma WireSnoc(wire: seq<WireEvent>, e: WireEvent, lane: Lane)
    ensures LastOf(wire + [e], lane) == if On(e, lane) then e.serial else LastOf(wire, lane)
    ensures InOrder(wire + [e], lane) <==> InOrder(wire, lane) && (On(e, lane) ==> LastOf(wire, lane) <= e.serial)
  {
    assert (wire + [e])[..|wire|] == wire;
  }

  // ---- What keeps the line -------------------------------------------------------------------

  // The queues and the pending operations of two states.
  ghost predicate Alike(a: Att, b: Att) {
    && b.reqQ == a.reqQ && b.indQ == a.indQ && b.writeQ == a.writeQ && |b.chans| == |a.chans|
    && (a.chans != [] ==>
          var c, d := a.chans[0], b.chans[0];
          d.queue == c.queue && d.pendingReq == c.pendingReq && d.pendingInd == c.pendingInd)
  }

  lemma LineSame(a: Att, b: Att, lane: Lane)
    requires InLine(a, lane) && Alike(a, b) && b.nextSerial >= a.nextSerial
    requires LastOf(b.wire, lane) == LastOf(a.wire, lane) && InOrder(b.wire, lane)
    ensures InLine(b, lane)
  {
    hide InLine, InOrder, LastOf;
    LineEqual(a, b, lane);
  }

  // The line and the lane's record are as they were.
  lemma LineEqual(a: Att, b: Att, lane: Lane)
    requires InLine(a, lane) && Line(b, lane) == Line(a, lane) && |b.chans| == |a.chans| && b.nextSerial >= a.nextSerial
    requires LastOf(b.wire, lane) == LastOf(a.wire, lane) && InOrder(b.wire, lane)
    ensures InLine(b, lane)
  {
  }

  // The same operations wait, whatever became of their handlers and timers.
  lemma LineLike(a: Att, b: Att, lane: Lane)
    requires InLine(a, lane) && |b.chans| == |a.chans| && b.nextSerial == a.nextSerial && b.wire == a.wire
    requires |Line(b, lane)| == |Line(a, lane)|
    requires forall k :: 0 <= k < |Line(a, lane)| ==>
               Line(b, lane)[k].serial == Line(a, lane)[k].serial && Line(b, lane)[k].id == Line(a, lane)[k].id
               && Line(b, lane)[k].ty == Line(a, lane)[k].ty
    ensures InLine(b, lane)
  {
    hide InOrder, LastOf;
  }

  lemma LineWithout(a: Att, b: Att, lane: Lane, j: nat)
    requires InLine(a, lane) && j < |QueueOf(a, lane)|
    requires QueueOf(b, lane) == Without(QueueOf(a, lane), j) && PendingOf(b, lane) == PendingOf(a, lane)
    requires |b.chans| == |a.chans| && b.wire == a.wire && b.nextSerial == a.nextSerial
    ensures InLine(b, lane)
  {
    hide InOrder, LastOf, PendingOf, QueueOf;
    var n := |PendingOf(a, lane)|;
    assert |Line(b, lane)| == |Line(a, lane)| - 1;
    forall k | 0 <= k < |Line(b, lane)| ensures Line(b, lane)[k] == Line(a, lane)[if k < n + j then k else k + 1] {
    }
  }

  lemma AscendingSnoc(q: seq<Op>, op: Op, lane: Lane, lo: int, hi: int)
    requires Ascending(q, lane, lo, hi) && lo <= hi == op.serial
    ensures Ascending(q, lane, lo, hi + 1)
    ensures LaneOf(op.id, op.ty) == lane ==> Ascending(q + [op], lane, lo, hi + 1)
  {
  }

  // A new operation joins the end of its lane.
  lemma LineJoin(a: Att, b: Att, lane: Lane, op: Op)
    requires InLine(a, lane) && op.serial == a.nextSerial && b.nextSerial == a.nextSerial + 1
    requires |b.chans| == |a.chans| && b.wire == a.wire
    requires Line(b, lane) == if LaneOf(op.id, op.ty) == lane then Line(a, lane) + [op] else Line(a, lane)
    ensures InLine(b, lane)
  {
    hide InOrder, LastOf, Line, LaneOf;
    AscendingSnoc(Line(a, lane), op, lane, LastOf(a.wire, lane), a.nextSerial);
    hide Ascending;
  }

  lemma LineSend(a: Att, opcode: byte, payload: seq<byte>, callback: bool, destroy: bool, lane: Lane)
    requires InLine(a, lane)
    ensures InLine(DoSend(a, opcode, payload, callback, destroy), lane)
  {
    hide OpTypeOf, InOrder, LastOf, InLine, WakeAll, Enqueue, Accept;
    LineSolo(a, lane);
    if a.chans != [] && CreateOp(a, opcode, payload, callback, destroy).Some? {
      var op := CreateOp(a, opcode, payload, callback, destroy).value.(id := NextId(a));
      LineEnqueue(a, op, lane);
    }
  }

  lemma LineEnqueue(a: Att, op: Op, lane: Lane)
    requires InLine(a, lane) && op.serial == a.nextSerial && op.id != 0
    ensures InLine(WakeAll(Enqueue(Accept(a, op).(nextSendId := op.id + 1), op)), lane)
  {
    hide InLine, InOrder, LastOf, LaneOf, PendingOf, QueueOf;
    var b := Enqueue(Accept(a, op).(nextSendId := op.id + 1), op);
    EnqueueLane(a, b, op, lane);
    var p, q := PendingOf(a, lane), QueueOf(a, lane);
    assert p + (q + [op]) == (p + q) + [op];
    LineJoin(a, b, lane, op);
    LineOrder(b, lane);
    hide Line, Enqueue, Accept;
    LineSame(b, WakeAll(b), lane);
  }

  lemma EnqueueLane(a: Att, b: Att, op: Op, lane: Lane)
    requires b == Enqueue(Accept(a, op).(nextSendId := op.id + 1), op) && op.id != 0
    ensures PendingOf(b, lane) == PendingOf(a, lane)
    ensures QueueOf(b, lane) == if LaneOf(op.id, op.ty) == lane then QueueOf(a, lane) + [op] else QueueOf(a, lane)
  {
  }

  lemma LineChanSend(a: Att, i: nat, opcode: byte, payload: seq<byte>, callback: bool, destroy: bool, lane: Lane)
    requires InLine(a, lane)
    ensures InLine(DoChanSend(a, i, opcode, payload, callback, destroy), lane)
  {
    hide OpTypeOf, InOrder, LastOf, InLine;
    LineSolo(a, lane);
    if i < |a.chans| && CreateOp(a, opcode, payload, callback, destroy).Some? {
      LineJoin(a, DoChanSend(a, i, opcode, payload, callback, destroy), lane, CreateOp(a, opcode, payload, callback, destroy).value);
    }
  }

  // ---- Cancelling ----------------------------------------------------------------------------

  lemma LineStripSlot(a: Att, ty: OpType, lane: Lane)
    requires InLine(a, lane) && |a.chans| == 1
    ensures InLine(StripSlot(a, 0, ty), lane)
  {
    hide InLine;
    LineLike(a, StripSlot(a, 0, ty), lane);
  }

  lemma LineChanCancel(a: Att, id: nat, lane: Lane)
    requires InLine(a, lane) && |a.chans| == 1
    ensures InLine(ChanCancel(a, 0, id).0, lane)
  {
    hide StripSlot, InLine;
    var c, b, j := a.chans[0], ChanCancel(a, 0, id).0, FindId(a.chans[0].queue, id);
    LineStripSlot(a, Req, lane);
    LineStripSlot(a, Ind, lane);
    if b != a && b != StripSlot(a, 0, Req) && b != StripSlot(a, 0, Ind) {
      LineOrder(a, lane);
      if lane.Own? { LineWithout(a, b, lane, j); } else { LineEqual(a, b, lane); }
    }
  }

  lemma LineCancel(a: Att, id: nat, lane: Lane)
    requires InLine(a, lane)
    ensures InLine(DoCancel(a, id).0, lane)
  {
    hide InLine, ChanCancel, WakeAll, DestroyOp, Line, Without;
    if id != 0 {
      if a.chans != [] {
        LineSolo(a, lane);
        CancelSolo(a, id);
        LineChanCancel(a, id, lane);
      }
      var j, k, n := FindId(a.reqQ, id), FindId(a.indQ, id), FindId(a.writeQ, id);
      if j < |a.reqQ| { LineDropReq(a, j, lane); }
      if k < |a.indQ| { LineDropInd(a, k, lane); }
      if n < |a.writeQ| { LineDropWrite(a, n, lane); }
    }
  }

  lemma LineDropReq(a: Att, j: nat, lane: Lane)
    requires InLine(a, lane) && j < |a.reqQ|
    ensures InLine(WakeAll(DestroyOp(a.(reqQ := Without(a.reqQ, j)), a.reqQ[j])), lane)
  {
    hide InLine, WakeAll, DestroyOp, Without;
    LineDropped(a, a.(reqQ := Without(a.reqQ, j)), a.reqQ[j], Requests, j, lane);
  }

  lemma LineDropInd(a: Att, j: nat, lane: Lane)
    requires InLine(a, lane) && j < |a.indQ|
    ensures InLine(WakeAll(DestroyOp(a.(indQ := Without(a.indQ, j)), a.indQ[j])), lane)
  {
    hide InLine, WakeAll, DestroyOp, Without;
    LineDropped(a, a.(indQ := Without(a.indQ, j)), a.indQ[j], Indications, j, lane);
  }

  lemma LineDropWrite(a: Att, j: nat, lane: Lane)
    requires InLine(a, lane) && j < |a.writeQ|
    ensures InLine(WakeAll(DestroyOp(a.(writeQ := Without(a.writeQ, j)), a.writeQ[j])), lane)
  {
    hide InLine, WakeAll, DestroyOp, Without;
    LineDropped(a, a.(writeQ := Without(a.writeQ, j)), a.writeQ[j], Writes, j, lane);
  }

  // One operation of a shared queue is dropped.
  lemma LineDropped(a: Att, b: Att, op: Op, from: Lane, j: nat, lane: Lane)
    requires InLine(a, lane) && !from.Own? && j < |QueueOf(a, from)|
    requires b.chans == a.chans && b.wire == a.wire && b.nextSerial == a.nextSerial
    requires QueueOf(b, lane) == if lane == from then Without(QueueOf(a, from), j) else QueueOf(a, lane)
    ensures InLine(WakeAll(DestroyOp(b, op)), lane)
  {
    hide InLine, Without, InOrder, LastOf, LaneOf, WakeAll, DestroyOp;
    LineOrder(a, lane);
    assert PendingOf(b, lane) == PendingOf(a, lane);
    hide PendingOf, QueueOf;
    if lane == from { LineWithout(a, b, lane, j); } else { LineEqual(a, b, lane); }
    LineWoken(b, op, lane);
  }

  lemma LineWoken(a: Att, op: Op, lane: Lane)
    requires InLine(a, lane)
    ensures InLine(WakeAll(DestroyOp(a, op)), lane)
  {
    hide InLine, InOrder, LastOf, Line;
    LineOrder(a, lane);
    LineSame(a, WakeAll(DestroyOp(a, op)), lane);
  }

  lemma LineSolo(a: Att, lane: Lane)
    requires InLine(a, lane)
    ensures |a.chans| <= 1
  {
  }

  lemma LineOrder(a: Att, lane: Lane)
    requires InLine(a, lane)
    ensures InOrder(a.wire, lane)
  {
  }

  // The shared queues are emptied: what is left of a line is its beginning.
  lemma LineCut(a: Att, b: Att, lane: Lane)
    requires InLine(a, lane) && Line(b, lane) <= Line(a, lane) && |b.chans| == |a.chans|
    requires b.wire == a.wire && b.nextSerial == a.nextSerial
    ensures InLine(b, lane)
  {
    hide InOrder, LastOf;
  }

  lemma LineCancelAll(a: Att, lane: Lane)
    requires InLine(a, lane)
    ensures InLine(DoCancelAll(a), lane)
  {
    hide DestroyQueues, StripSlot, InLine;
    DestroyQueuesWire(a);
    DestroyQueuesFrame(a);
    var b := DestroyQueues(a);
    LineSolo(a, lane);
    LineCut(a, b, lane);
    if b.chans != [] {
      LineStripSlot(b, Req, lane);
      LineStripSlot(StripSlot(b, 0, Req), Ind, lane);
      assert StripFrom(b, 0) == StripSlot(StripSlot(b, 0, Req), 0, Ind);
    }
  }

  lemma DestroyQueuesWire(a: Att)
    ensures DestroyQueues(a).wire == a.wire && DestroyQueues(a).nextSerial == a.nextSerial
  {
    hide DestroyOps;
    var a1 := DestroyOps(a.(reqQ := []), a.reqQ);
    var a2 := DestroyOps(a1.(indQ := []), a1.indQ);
    DestroyOpsFrame(a.(reqQ := []), a.reqQ);
    DestroyOpsFrame(a1.(indQ := []), a1.indQ);
    DestroyOpsFrame(a2.(writeQ := []), a2.writeQ);
  }

  // ---- Calls and callbacks -------------------------------------------------------------------

  lemma LineCall(a: Att, call: Call, lane: Lane)
    requires InLine(a, lane)
    ensures InLine(DoCall(a, call), lane)
  {
    hide Line, InLine, DoSend, DoChanSend, DoCancel, DoCancelAll, OpTypeOf, InOrder, LastOf;
    LineSolo(a, lane);
    LineOrder(a, lane);
    match call
    case Send(opcode, payload, callback, destroy) => LineSend(a, opcode, payload, callback, destroy, lane);
    case ChanSend(i, opcode, payload, callback, destroy) => LineChanSend(a, i, opcode, payload, callback, destroy, lane);
    case Cancel(id) => LineCancel(a, id, lane);
    case CancelAll => LineCancelAll(a, lane);
    case SetMtu(mtu) => LineSame(a, DoCall(a, call), lane);
    case SetSecurity(level, setOk) =>
      if a.chans != [] { WireSnoc(a.wire, SecuritySet(a.chans[0].cid), lane); }
      LineSame(a, DoCall(a, call), lane);
  }

  lemma {:induction false} LineRunCalls(a: Att, calls: seq<Call>, lane: Lane)
    requires InLine(a, lane)
    ensures InLine(RunCalls(a, calls), lane)
    decreases |calls|
  {
    hide InLine, DoCall;
    if calls != [] {
      LineCall(a, calls[0], lane);
      LineRunCalls(DoCall(a, calls[0]), calls[1..], lane);
    }
  }

  lemma LineCallAndRun(a: Att, op: Op, rsp: byte, data: seq<byte>, during: seq<Call>, lane: Lane)
    requires InLine(a, lane)
    ensures InLine(CallAndRun(a, op, rsp, data, during), lane)
  {
    hide Line, InLine;
    LineOrder(a, lane);
    LineSame(a, CallOp(a, op, rsp, data), lane);
    LineRunCalls(CallOp(a, op, rsp, data), if op.callback then during else [], lane);
  }

  // ---- Ends ----------------------------------------------------------------------------------

  // The pending operation leaves the line.
  lemma LineRelease(a: Att, op: Op, ty: OpType, how: How, lane: Lane)
    requires InLine(a, lane) && |a.chans| == 1
    ensures InLine(Release(a, 0, op, ty, how), lane)
  {
    hide InLine, InOrder, LastOf;
    var b := Release(a, 0, op, ty, how);
    LineOrder(a, lane);
    WireSnoc(a.wire, Ended(a.chans[0].cid, op.serial, ty, how), lane);
    LineRest(a, b, lane, |Line(a, lane)| - |Line(b, lane)|);
  }

  // The line without its first n operations.
  lemma LineRest(a: Att, b: Att, lane: Lane, n: nat)
    requires InLine(a, lane) && n <= |Line(a, lane)| && Line(b, lane) == Line(a, lane)[n..]
    requires |b.chans| == |a.chans| && b.nextSerial == a.nextSerial
    requires LastOf(b.wire, lane) == LastOf(a.wire, lane) && InOrder(b.wire, lane)
    ensures InLine(b, lane)
  {
    hide InOrder, LastOf, Line, LaneOf;
    AscendingRest(Line(a, lane), lane, LastOf(a.wire, lane), a.nextSerial, n);
    hide Ascending;
  }

  lemma AscendingRest(q: seq<Op>, lane: Lane, lo: int, hi: int, n: nat)
    requires Ascending(q, lane, lo, hi) && n <= |q|
    ensures Ascending(q[n..], lane, lo, hi)
  {
    hide LaneOf;
  }

  lemma LineFinish(a: Att, ty: OpType, rsp: byte, data: seq<byte>, during: seq<Call>, lane: Lane)
    requires InLine(a, lane) && |a.chans| == 1
    ensures InLine(Finish(a, 0, ty, rsp, data, during), lane)
  {
    hide InLine, CallAndRun, InOrder, LastOf, Wake, Release, DestroyOp;
    match Slot(a.chans[0], ty)
    case None =>
    case Some(op) =>
      var entered := a.(chans := a.chans[0 := WithSlot(a.chans[0], ty, Some(op.(callback := false)))]);
      LineEnter(a, ty, op, lane);
      LineCallAndRun(entered, op, rsp, data, during, lane);
      var a1 := CallAndRun(entered, op, rsp, data, during);
      match Slot(a1.chans[0], ty)
      case None =>
      case Some(op1) =>
        LineSolo(a1, lane);
        LineLeave(a1, ty, op1, lane);
  }

  lemma LineLeave(a: Att, ty: OpType, op: Op, lane: Lane)
    requires InLine(a, lane) && |a.chans| == 1
    ensures InLine(Wake(Release(DestroyOp(a, op), 0, op, ty, ByResponse), 0), lane)
  {
    hide Line, InLine, InOrder, LastOf;
    LineOrder(a, lane);
    LineSame(a, DestroyOp(a, op), lane);
    var b := Release(DestroyOp(a, op), 0, op, ty, ByResponse);
    LineRelease(DestroyOp(a, op), op, ty, ByResponse, lane);
    LineOrder(b, lane);
    LineSame(b, Wake(b, 0), lane);
  }

  lemma LineEnter(a: Att, ty: OpType, op: Op, lane: Lane)
    requires InLine(a, lane) && |a.chans| == 1 && Slot(a.chans[0], ty) == Some(op)
    ensures InLine(a.(chans := a.chans[0 := WithSlot(a.chans[0], ty, Some(op.(callback := false)))]), lane)
  {
    hide InLine;
    LineLike(a, a.(chans := a.chans[0 := WithSlot(a.chans[0], ty, Some(op.(callback := false)))]), lane);
  }

  // A retried request keeps its place in line, ahead of everything sent later.
  lemma LineRetry(a: Att, op: Op, c: Chan, sure: bool, lane: Lane)
    requires InLine(a, lane) && |a.chans| == 1 && a.chans[0].pendingReq == Some(op)
    requires c.pendingReq == a.chans[0].pendingReq && c.pendingInd == a.chans[0].pendingInd && c.queue == a.chans[0].queue
    ensures InLine(Retry(a, 0, op, c, sure), lane)
  {
    hide InLine, InOrder, LastOf;
    var e := Ended(c.cid, op.serial, Req, ByRetry(sure));
    var b := Retry(a, 0, op, c, sure).(wire := a.wire);
    LineLike(a, b, lane);
    WireSnoc(a.wire, e, lane);
    LineOrder(b, lane);
    LineSame(b, Retry(a, 0, op, c, sure), lane);
  }

  lemma LineHandleRsp(a: Att, opcode: byte, body: seq<byte>, env: RxEnv, during: seq<Call>, lane: Lane)
    requires InLine(a, lane) && |a.chans| == 1
    ensures InLine(HandleRsp(a, 0, opcode, body, env, during), lane)
  {
    hide Line, InLine, Finish, Retry, NamedRequest, InOrder, LastOf;
    var c := a.chans[0];
    match c.pendingReq
    case None => LineShut(a, lane);
    case Some(op) =>
      var raised := if opcode == ERROR_RSP && |body| == 4 then ChangeSecurity(c, body[3], env) else None;
      if raised.Some? {
        var b := Retry(a, 0, op, raised.value, c.link.Local? || env.getOk);
        LineRetry(a, op, raised.value, c.link.Local? || env.getOk, lane);
        LineOrder(b, lane);
        LineSame(b, Wake(b, 0), lane);
      }
      hide ChangeSecurity;
      LineFinish(a, Req, opcode, body, during, lane);
      LineFinish(a, Req, ERROR_RSP, [], during, lane);
  }

  lemma LineShut(a: Att, lane: Lane)
    requires InLine(a, lane) && |a.chans| == 1
    ensures InLine(ShutChan(a, 0), lane)
  {
    WireSnoc(a.wire, ShutDown(a.chans[0].cid), lane);
    LineSame(a, ShutChan(a, 0), lane);
  }

  lemma LineHandleNotify(a: Att, opcode: byte, env: RxEnv, during: seq<Call>, lane: Lane)
    requires InLine(a, lane) && |a.chans| == 1
    ensures InLine(HandleNotify(a, 0, opcode, env, during), lane)
  {
    hide Line, InLine, RunCalls, DoSend, OpTypeOf, InOrder, LastOf;
    var cid := a.chans[0].cid;
    LineOrder(a, lane);
    WireSnoc(a.wire, Delivered(cid, opcode), lane);
    var a1 := a.(wire := a.wire + [Delivered(cid, opcode)]);
    LineSame(a, a1, lane);
    WireSnoc(a1.wire, Handled(cid, opcode), lane);
    var a2 := a1.(wire := a1.wire + [Handled(cid, opcode)]);
    LineSame(a1, a2, lane);
    LineSame(a1, a1.(refs := a.refs + 1), lane);
    LineRunCalls(a2, during, lane);
    LineSend(a1, ERROR_RSP, [opcode, 0, 0, ECODE_REQUEST_NOT_SUPPORTED], false, false, lane);
  }

  lemma LineRead(a: Att, bytes: seq<byte>, env: RxEnv, during: seq<Call>, lane: Lane)
    requires InLine(a, lane) && |a.chans| == 1
    ensures InLine(DoRead(a, 0, bytes, env, during), lane)
  {
    hide Line, InLine, HandleRsp, HandleNotify, Finish, ShutChan, OpTypeOf, InOrder, LastOf;
    var c := a.chans[0];
    var pdu := if |bytes| <= c.mtu then bytes else bytes[..c.mtu];
    LineOrder(a, lane);
    LineShut(a, lane);
    if |pdu| >= 1 {
      match OpTypeOf(pdu[0])
      case Rsp => LineHandleRsp(a, pdu[0], pdu[1..], env, during, lane);
      case Conf => LineFinish(a, Ind, HANDLE_CONF, [], during, lane);
      case Req =>
        LineSame(a, a.(chans := a.chans[0 := c.(inReq := true)]), lane);
        LineHandleNotify(a.(chans := a.chans[0 := c.(inReq := true)]), pdu[0], env, during, lane);
      case _ => LineHandleNotify(a, pdu[0], env, during, lane);
    }
  }

  // ---- Writing -------------------------------------------------------------------------------

  // What the queues hold, by lane.
  ghost predicate Sorted(a: Att) {
    && (forall k :: 0 <= k < |a.reqQ| ==> LaneOf(a.reqQ[k].id, a.reqQ[k].ty) == Requests)
    && (forall k :: 0 <= k < |a.indQ| ==> LaneOf(a.indQ[k].id, a.indQ[k].ty) == Indications)
    && (forall k :: 0 <= k < |a.writeQ| ==> LaneOf(a.writeQ[k].id, a.writeQ[k].ty) == Writes)
    && (a.chans != [] ==> forall k :: 0 <= k < |a.chans[0].queue| ==> LaneOf(a.chans[0].queue[k].id, a.chans[0].queue[k].ty) == Own)
  }

  lemma LinesSorted(a: Att)
    requires AllInLine(a)
    ensures Sorted(a)
  {
    QueueSorted(a, Requests);
    QueueSorted(a, Indications);
    QueueSorted(a, Writes);
    QueueSorted(a, Own);
    hide InLine, LaneOf;
  }

  lemma QueueSorted(a: Att, lane: Lane)
    requires InLine(a, lane)
    ensures forall k :: 0 <= k < |QueueOf(a, lane)| ==> LaneOf(QueueOf(a, lane)[k].id, QueueOf(a, lane)[k].ty) == lane
  {
    hide InOrder, LastOf, LaneOf, PendingOf, QueueOf;
    var n := |PendingOf(a, lane)|;
    assert forall k :: 0 <= k < |QueueOf(a, lane)| ==> QueueOf(a, lane)[k] == Line(a, lane)[n + k];
  }

  // pick_next_send_op takes the head of one lane, with nothing pending there, and leaves the others.
  lemma PicksHead(a: Att, lane: Lane)
    requires Sorted(a) && Places(a) && |a.chans| == 1 && PickNext(a, 0).0.Some?
    ensures var (next, b) := PickNext(a, 0); var op := next.value;
            && |b.chans| == 1 && b.wire == a.wire && b.nextSerial == a.nextSerial && b.nextTimer == a.nextTimer
            && Line(a, lane) == (if LaneOf(op.id, op.ty) == lane then [op] else []) + Line(b, lane)
            && (LaneOf(op.id, op.ty) == lane ==> PendingOf(b, lane) == [])
            && (LaneOf(op.id, op.ty).Own? ==> !op.ty.Req? && !op.ty.Ind?)
  {
    hide Sorted, Places, LaneOf, PickNext;
    PicksLane(a);
  }

  // The head goes, from the lane it is of; the pending operations stay.
  lemma PicksLane(a: Att)
    requires Sorted(a) && Places(a) && |a.chans| == 1 && PickNext(a, 0).0.Some?
    ensures var (next, b) := PickNext(a, 0); var op, c := next.value, a.chans[0];
            && |b.chans| == 1 && b.wire == a.wire && b.nextSerial == a.nextSerial && b.nextTimer == a.nextTimer
            && b.chans[0].pendingReq == c.pendingReq && b.chans[0].pendingInd == c.pendingInd
            && match LaneOf(op.id, op.ty)
               case Own => c.queue == [op] + b.chans[0].queue && b.writeQ == a.writeQ && b.reqQ == a.reqQ && b.indQ == a.indQ
                           && !op.ty.Req? && !op.ty.Ind?
               case Writes => a.writeQ == [op] + b.writeQ && b.chans[0].queue == c.queue && b.reqQ == a.reqQ && b.indQ == a.indQ
               case Requests => a.reqQ == [op] + b.reqQ && b.chans[0].queue == c.queue && b.writeQ == a.writeQ && b.indQ == a.indQ
                                && c.pendingReq.None?
               case Indications => a.indQ == [op] + b.indQ && b.chans[0].queue == c.queue && b.writeQ == a.writeQ && b.reqQ == a.reqQ
                                   && c.pendingInd.None?
  {
    assert ChanOk(a.chans[0], a);
    hide OpOk, LaneOf, Queued, SlotOk;
  }

  lemma LineAfterWrite(a: Att, b: Att, op: Op, lane: Lane)
    requires InLine(a, lane) && |b.chans| == 1 && b.wire == a.wire && b.nextSerial == a.nextSerial
    requires Line(a, lane) == (if LaneOf(op.id, op.ty) == lane then [op] else []) + Line(b, lane)
    requires LaneOf(op.id, op.ty) == lane ==> PendingOf(b, lane) == []
    requires LaneOf(op.id, op.ty).Own? ==> !op.ty.Req? && !op.ty.Ind?
    ensures InLine(AfterWrite(b, 0, op), lane)
  {
    hide InOrder, LastOf, Ascending;
    var c := AfterWrite(b, 0, op);
    WireSnoc(a.wire, Wrote(b.chans[0].cid, op.serial, op.id, op.ty, op.pdu), lane);
    LineWritten(b, op, lane);
    if LaneOf(op.id, op.ty) == lane {
      AscendingHead(Line(a, lane), Line(c, lane), lane, LastOf(a.wire, lane), a.nextSerial);
    } else {
      assert Line(a, lane) == Line(b, lane) == Line(c, lane);
    }
  }

  // What is written stays in its line if it is to be answered, and leaves it if not.
  lemma LineWritten(b: Att, op: Op, lane: Lane)
    requires |b.chans| == 1 && (LaneOf(op.id, op.ty) == lane ==> PendingOf(b, lane) == [])
    requires LaneOf(op.id, op.ty).Own? ==> !op.ty.Req? && !op.ty.Ind?
    ensures var c := AfterWrite(b, 0, op);
            && |c.chans| == 1 && c.nextSerial == b.nextSerial
            && c.wire == b.wire + [Wrote(b.chans[0].cid, op.serial, op.id, op.ty, op.pdu)]
            && Line(c, lane) == (if LaneOf(op.id, op.ty) == lane && (op.ty.Req? || op.ty.Ind?) then [op.(timer := b.nextTimer)] else []) + Line(b, lane)
  {
    var c := AfterWrite(b, 0, op);
    assert QueueOf(c, lane) == QueueOf(b, lane);
    if LaneOf(op.id, op.ty) == lane && (op.ty.Req? || op.ty.Ind?) {
      assert PendingOf(c, lane) == [op.(timer := b.nextTimer)];
    } else {
      assert PendingOf(c, lane) == PendingOf(b, lane);
    }
    hide PendingOf, QueueOf, AfterWrite, LaneOf;
  }

  lemma AscendingHead(q: seq<Op>, r: seq<Op>, lane: Lane, lo: int, hi: int)
    requires Ascending(q, lane, lo, hi) && q != []
    requires (|r| == |q| && r[0].serial == q[0].serial && r[0].id == q[0].id && r[0].ty == q[0].ty && r[1..] == q[1..]) || r == q[1..]
    ensures Ascending(r, lane, q[0].serial, hi) && lo <= q[0].serial < hi
  {
    forall k | 0 <= k < |r| ensures var m := if |r| == |q| then k else k + 1;
                                    r[k].serial == q[m].serial && r[k].id == q[m].id && r[k].ty == q[m].ty {
      if |r| == |q| && k > 0 { assert r[k] == r[1..][k - 1]; }
    }
  }

  lemma LineWrite(a: Att, written: int, during: seq<Call>, lane: Lane)
    requires AllInLine(a) && InLine(a, lane) && Places(a) && |a.chans| == 1
    ensures InLine(DoWrite(a, 0, written, during), lane)
  {
    hide Line, PendingOf, LaneOf, AllInLine, InLine, Sorted, PickNext, AfterWrite, CallAndRun, Places, InOrder, LastOf;
    LinesSorted(a);
    LineOrder(a, lane);
    var (next, b) := PickNext(a, 0);
    match next
    case None => LineSame(a, a.(chans := a.chans[0 := a.chans[0].(writerActive := false)]), lane);
    case Some(op) =>
      PicksHead(a, lane);
      if written == 0 {
        LineBehead(a, b, lane, op);
        LineFailed(b, op, during, lane);
      } else {
        LineAfterWrite(a, b, op, lane);
      }
      hide DestroyOp;
  }

  lemma LineFailed(b: Att, op: Op, during: seq<Call>, lane: Lane)
    requires InLine(b, lane)
    ensures InLine(DestroyOp(CallAndRun(b, op, ERROR_RSP, [], during), op), lane)
  {
    hide Line, InLine, CallAndRun, InOrder, LastOf;
    LineCallAndRun(b, op, ERROR_RSP, [], during, lane);
    var b1 := CallAndRun(b, op, ERROR_RSP, [], during);
    LineOrder(b1, lane);
    LineSame(b1, DestroyOp(b1, op), lane);
  }

  lemma LineBehead(a: Att, b: Att, lane: Lane, op: Op)
    requires InLine(a, lane) && |b.chans| == |a.chans| && b.wire == a.wire && b.nextSerial == a.nextSerial
    requires Line(a, lane) == (if LaneOf(op.id, op.ty) == lane then [op] else []) + Line(b, lane)
    ensures InLine(b, lane)
  {
    hide InLine, InOrder, LastOf, Line;
    LineOrder(a, lane);
    LineRest(a, b, lane, |Line(a, lane)| - |Line(b, lane)|);
  }

  // ---- Timeouts, disconnection, teardown -----------------------------------------------------

  lemma LineTimeOut(a: Att, ty: OpType, first: seq<Call>, during: seq<Call>, lane: Lane)
    requires InLine(a, lane) && |a.chans| == 1
    ensures InLine(TimeOut(a, 0, ty, first, during), lane)
  {
    hide Line, InLine, CallAndRun, RunCalls, Release, ShutChan, InOrder, LastOf;
    if Slot(a.chans[0], ty).Some? {
      var op := Slot(a.chans[0], ty).value;
      LineRelease(a, op, ty, ByTimeout, lane);
      LineRunCalls(Release(a, 0, op, ty, ByTimeout), first, lane);
      var b := RunCalls(Release(a, 0, op, ty, ByTimeout), first);
      LineCallAndRun(b, op, ERROR_RSP, [], during, lane);
      var b1 := CallAndRun(b, op, ERROR_RSP, [], during);
      LineOrder(b1, lane);
      LineSame(b1, DestroyOp(b1, op.(timer := 0)), lane);
      LineShut(DestroyOp(b1, op.(timer := 0)), lane);
    }
  }

  lemma LineTimeout(a: Att, tid: nat, first: seq<Call>, during: seq<Call>, lane: Lane)
    requires InLine(a, lane)
    ensures InLine(DoTimeout(a, tid, first, during), lane)
  {
    hide Line, InLine, TimeOut, InOrder, LastOf;
    LineOrder(a, lane);
    LineSolo(a, lane);
    if tid in a.timers {
      var a0 := a.(timers := a.timers - {tid});
      LineSame(a, a0, lane);
      if a.chans != [] {
        LineTimeOut(a0, Req, first, during, lane);
        LineTimeOut(a0, Ind, first, during, lane);
      }
    }
  }

  // With no channel and no queue left, only the history counts.
  lemma LineGone(a: Att, b: Att, e: WireEvent, lane: Lane)
    requires InLine(a, lane) && b.chans == [] && QueueOf(b, lane) == [] && b.nextSerial == a.nextSerial
    requires b.wire == a.wire || (b.wire == a.wire + [e] && !e.Wrote?)
    ensures InLine(b, lane)
  {
    WireSnoc(a.wire, e, lane);
    assert Line(b, lane) == [];
  }

  lemma LineDisconnect(a: Att, each: map<nat, seq<Call>>, after: seq<Call>, lane: Lane)
    requires InLine(a, lane) && |a.chans| == 1
    ensures InLine(DoDisconnect(a, 0, each, after), lane)
  {
    hide InLine, DoDisconnect;
    DisconnectDrains(a, each, after);
    LineGone(a, DoDisconnect(a, 0, each, after), Closed(a.chans[0].cid), lane);
  }

  lemma LineClose(a: Att, lane: Lane)
    requires InLine(a, lane)
    ensures InLine(DoClose(a), lane)
  {
    hide Line, InLine, DestroyOps, DestroyQueues, StripSlot;
    var a0 := a.(notify := []);
    LineOrder(a, lane);
    LineSolo(a, lane);
    LineSame(a, a0, lane);
    LineCancelAll(a0, lane);
    var b := DoCancelAll(a0);
    DestroyQueuesFrame(a0);
    StripFromFrame(DestroyQueues(a0), 0);
    FreeChansQueues(b);
    if b.chans != [] {
      var c, b0 := b.chans[0], b.(chans := b.chans[1..]);
      var b1 := DestroySlot(DestroySlot(b0, c.pendingReq), c.pendingInd);
      DestroyOpsFrame(b1, c.queue);
      assert FreeChans(b) == FreeChan(b0, c);
      LineGone(b, FreeChans(b), Closed(c.cid), lane);
    }
  }

  // ---- Every turn, every run -----------------------------------------------------------------

  lemma LineStep(a: Att, act: Action, lane: Lane)
    requires Inv(a) && AllInLine(a) && InLine(a, lane) && !act.Attach?
    ensures InLine(Step(a, act), lane)
  {
    hide Line, Sound, Kept, InLine, AllInLine, DoCall, DoWrite, DoRead, DoTimeout, DoDisconnect, DoClose, InOrder, LastOf;
    LineSolo(a, lane);
    LineOrder(a, lane);
    KeptPlaces(a);
    match act
    case Api(call) => LineCall(a, call, lane);
    case Register(_) | Unregister(_) | UnregisterAll | Ref => LineSame(a, Step(a, act), lane);
    case WriterReady(i, written, during) => if i < |a.chans| { LineWrite(a, written, during, lane); }
    case Received(i, bytes, env, during) => if i < |a.chans| { LineRead(a, bytes, env, during, lane); }
    case TimerFired(tid, first, during) => LineTimeout(a, tid, first, during, lane);
    case Disconnected(i, each, after) => if i < |a.chans| { LineDisconnect(a, each, after, lane); }
    case Unref =>
      if a.refs > 0 {
        LineSame(a, a.(refs := a.refs - 1), lane);
        if a.refs == 1 { LineClose(a.(refs := 0), lane); }
      }
  }

  lemma AllLineStep(a: Att, act: Action)
    requires Inv(a) && AllInLine(a) && !act.Attach?
    ensures AllInLine(Step(a, act))
  {
    hide Inv, InLine, Step;
    LineStep(a, act, Requests);
    LineStep(a, act, Indications);
    LineStep(a, act, Writes);
    LineStep(a, act, Own);
  }

  lemma {:induction false} LineRun(a: Att, acts: seq<Action>)
    requires Inv(a) && AllInLine(a) && PlainRun(acts) && NoAttach(acts)
    ensures AllInLine(Run(a, acts))
    decreases |acts|
  {
    hide Inv, Step, AllInLine, Plain, PlainRun, NoAttach;
    if acts != [] {
      RunTail(acts);
      InvStep(a, acts[0]);
      AllLineStep(a, acts[0]);
      LineRun(Step(a, acts[0]), acts[1..]);
    }
  }

  lemma {:induction false} OrderedPair(wire: seq<WireEvent>, lane: Lane, i: nat, j: nat)
    requires InOrder(wire, lane) && i < j < |wire| && On(wire[i], lane) && On(wire[j], lane)
    ensures wire[i].serial <= wire[j].serial && LastOf(wire, lane) >= wire[j].serial
    decreases |wire|
  {
    var before := wire[..|wire| - 1];
    if j < |wire| - 1 {
      OrderedPair(before, lane, i, j);
    } else {
      LastBound(before, lane, i);
    }
  }

  lemma {:induction false} LastBound(wire: seq<WireEvent>, lane: Lane, i: nat)
    requires InOrder(wire, lane) && i < |wire| && On(wire[i], lane)
    ensures LastOf(wire, lane) >= wire[i].serial
    decreases |wire|
  {
    if i < |wire| - 1 { LastBound(wire[..|wire| - 1], lane, i); }
  }

  // On one channel everything sent through a queue is written in the order it was sent; only a request
  // can be written again, and a retry repeats the last one.
  lemma WrittenInSendOrder(link: Link, ioMtu: u16, level: int, crypto: bool, acts: seq<Action>, lane: Lane, i: nat, j: nat)
    requires NewAtt(link, ioMtu, level, crypto).Some? && PlainRun(acts) && NoAttach(acts)
    requires var w := Run(NewAtt(link, ioMtu, level, crypto).value, acts).wire; i < j < |w| && On(w[i], lane) && On(w[j], lane)
    ensures var w := Run(NewAtt(link, ioMtu, level, crypto).value, acts).wire; w[i].serial <= w[j].serial
  {
    var a := NewAtt(link, ioMtu, level, crypto).value;
    hide Inv, AllInLine, InOrder, LastOf, Run, Plain, NewAtt;
    InvNew(link, ioMtu, level, crypto);
    NewInLine(link, ioMtu, level, crypto);
    LineRun(a, acts);
    InLineOrdered(Run(a, acts), lane);
    OrderedPair(Run(a, acts).wire, lane, i, j);
  }

  lemma NewInLine(link: Link, ioMtu: u16, level: int, crypto: bool)
    requires NewAtt(link, ioMtu, level, crypto).Some?
    ensures AllInLine(NewAtt(link, ioMtu, level, crypto).value)
  {
    var a := NewAtt(link, ioMtu, level, crypto).value;
    EmptyInLine(a, Requests);
    EmptyInLine(a, Indications);
    EmptyInLine(a, Writes);
    EmptyInLine(a, Own);
    hide InLine, NewAtt;
  }

  lemma EmptyInLine(a: Att, lane: Lane)
    requires a.wire == [] && |a.chans| <= 1 && Line(a, lane) == []
    ensures InLine(a, lane)
  {
    hide Line;
  }

  lemma InLineOrdered(a: Att, lane: Lane)
    requires AllInLine(a)
    ensures InOrder(a.wire, lane)
  {
    hide InOrder, LastOf, Ascending;
  }
}
