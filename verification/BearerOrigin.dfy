// Where the answers come from.  A response callback is told that its request was lost, or it is told
// what the peer sent in this very turn while the request was pending on the channel that received it.

module BearerOrigin {
  import opened Wire
  import opened Opcodes
  import opened BearerSpec
  import opened BearerBooks
  import opened BearerSound
  import opened BearerPlaces
  import opened BearerTalk
  import opened BearerRuns
  import opened BearerTheorems

  // ---- Growing histories ---------------------------------------------------------------------

  // Told of a timeout, a disconnection, a failed write or a response that is none of its own.
  predicate Lost(e: LifeEvent) { e.Called? && e.rsp == ERROR_RSP && e.data == [] }

  // From x to y callbacks were told of a loss, or `told` happened.
  ghost predicate Grows(x: seq<LifeEvent>, y: seq<LifeEvent>, told: Option<LifeEvent>) {
    x <= y && forall j :: |x| <= j < |y| && y[j].Called? ==> Lost(y[j]) || told == Some(y[j])
  }

  // Only callbacks of operation k ran.
  ghost predicate GrowsFor(x: seq<LifeEvent>, y: seq<LifeEvent>, k: nat) {
    x <= y && forall j :: |x| <= j < |y| && y[j].Called? ==> y[j].serial == k
  }

  // No callback ran.
  ghost predicate Silent(x: seq<LifeEvent>, y: seq<LifeEvent>) {
    x <= y && forall j :: |x| <= j < |y| ==> !y[j].Called?
  }

  lemma GrowsTwice(x: seq<LifeEvent>, y: seq<LifeEvent>, z: seq<LifeEvent>, told: Option<LifeEvent>)
    requires Grows(x, y, told) && Grows(y, z, told)
    ensures Grows(x, z, told)
  {
    assert forall j :: |x| <= j < |y| ==> z[j] == y[j];
  }

  lemma SilentTwice(x: seq<LifeEvent>, y: seq<LifeEvent>, z: seq<LifeEvent>)
    requires Silent(x, y) && Silent(y, z)
    ensures Silent(x, z)
  {
    assert forall j :: |x| <= j < |y| ==> z[j] == y[j];
  }

  lemma SilentGrows(x: seq<LifeEvent>, y: seq<LifeEvent>, told: Option<LifeEvent>)
    requires Silent(x, y)
    ensures Grows(x, y, told)
  {
  }

  // A silent stretch before or after adds nothing.
  lemma GrowsSilent(x: seq<LifeEvent>, y: seq<LifeEvent>, z: seq<LifeEvent>, k: nat)
    requires GrowsFor(x, y, k) && Silent(y, z)
    ensures GrowsFor(x, z, k)
  {
    assert forall j :: |x| <= j < |y| ==> z[j] == y[j];
  }

  // ---- What runs no callback -----------------------------------------------------------------

  lemma {:induction false} QuietDestroyOps(a: Att, ops: seq<Op>)
    ensures Silent(a.life, DestroyOps(a, ops).life)
    decreases |ops|
  {
    if ops != [] {
      var b := DestroyOp(a, ops[0]);
      assert Silent(a.life, b.life);
      QuietDestroyOps(b, ops[1..]);
      hide Silent, DestroyOp;
      SilentTwice(a.life, b.life, DestroyOps(b, ops[1..]).life);
    }
  }

  lemma QuietDestroyQueues(a: Att)
    ensures Silent(a.life, DestroyQueues(a).life)
  {
    hide DestroyOps, Silent;
    QuietDestroyOps(a.(reqQ := []), a.reqQ);
    var a1 := DestroyOps(a.(reqQ := []), a.reqQ);
    QuietDestroyOps(a1.(indQ := []), a1.indQ);
    var a2 := DestroyOps(a1.(indQ := []), a1.indQ);
    QuietDestroyOps(a2.(writeQ := []), a2.writeQ);
    SilentTwice(a.life, a1.life, a2.life);
    SilentTwice(a.life, a2.life, DestroyQueues(a).life);
  }

  lemma {:induction false} QuietStripFrom(a: Att, i: nat)
    requires i <= |a.chans|
    ensures Silent(a.life, StripFrom(a, i).life)
    decreases |a.chans| - i
  {
    if i < |a.chans| {
      var b := StripSlot(StripSlot(a, i, Req), i, Ind);
      assert Silent(a.life, b.life);
      QuietStripFrom(b, i + 1);
      hide Silent, StripSlot;
      SilentTwice(a.life, b.life, StripFrom(b, i + 1).life);
    }
  }

  lemma QuietChanCancel(a: Att, i: nat, id: nat)
    requires i < |a.chans|
    ensures Silent(a.life, ChanCancel(a, i, id).0.life)
  {
  }

  lemma {:induction false} QuietCancelOn(a: Att, i: nat, id: nat)
    requires i <= |a.chans|
    ensures Silent(a.life, CancelOnChans(a, i, id).0.life)
    decreases |a.chans| - i
  {
    if i < |a.chans| {
      QuietChanCancel(a, i, id);
      hide ChanCancel;
      if !ChanCancel(a, i, id).1 { QuietCancelOn(a, i + 1, id); }
    }
  }

  lemma QuietCancel(a: Att, id: nat)
    ensures Silent(a.life, DoCancel(a, id).0.life)
  {
    hide CancelOnChans, Without, WakeAll, DestroyOp, Silent;
    QuietCancelOn(a, 0, id);
    var j, k, m := FindId(a.reqQ, id), FindId(a.indQ, id), FindId(a.writeQ, id);
    assert Silent(a.life, a.life) by { SilentSame(a.life); }
    if j < |a.reqQ| { QuietDropped(a, a.(reqQ := Without(a.reqQ, j)), a.reqQ[j]); }
    if k < |a.indQ| { QuietDropped(a, a.(indQ := Without(a.indQ, k)), a.indQ[k]); }
    if m < |a.writeQ| { QuietDropped(a, a.(writeQ := Without(a.writeQ, m)), a.writeQ[m]); }
  }

  lemma SilentSame(x: seq<LifeEvent>)
    ensures Silent(x, x)
  {
  }

  lemma QuietDropped(a: Att, b: Att, op: Op)
    requires b.life == a.life
    ensures Silent(a.life, WakeAll(DestroyOp(b, op)).life)
  {
  }

  lemma QuietSend(a: Att, opcode: byte, payload: seq<byte>, callback: bool, destroy: bool)
    ensures Silent(a.life, DoSend(a, opcode, payload, callback, destroy).life)
  {
    hide OpTypeOf;
  }

  lemma QuietCall(a: Att, call: Call)
    ensures Silent(a.life, DoCall(a, call).life)
  {
    hide DoSend, DoCancel, OpTypeOf, DestroyQueues, StripFrom;
    match call
    case Send(opcode, payload, callback, destroy) => QuietSend(a, opcode, payload, callback, destroy);
    case Cancel(id) => QuietCancel(a, id);
    case CancelAll =>
      QuietDestroyQueues(a);
      QuietStripFrom(DestroyQueues(a), 0);
      SilentTwice(a.life, DestroyQueues(a).life, DoCancelAll(a).life);
    case _ =>
  }

  lemma {:induction false} QuietRunCalls(a: Att, calls: seq<Call>)
    ensures Silent(a.life, RunCalls(a, calls).life)
    decreases |calls|
  {
    if calls == [] {
    } else {
      QuietCall(a, calls[0]);
      QuietRunCalls(DoCall(a, calls[0]), calls[1..]);
      hide Silent, DoCall;
      SilentTwice(a.life, DoCall(a, calls[0]).life, RunCalls(a, calls).life);
    }
  }

  lemma QuietSlots(a: Att, c: Chan)
    ensures Silent(a.life, FreeChan(a, c).life)
  {
    var b := DestroySlot(DestroySlot(a, c.pendingReq), c.pendingInd);
    assert Silent(a.life, b.life);
    QuietDestroyOps(b, c.queue);
    hide Silent, DestroySlot, DestroyOps;
    SilentTwice(a.life, b.life, DestroyOps(b, c.queue).life);
  }

  lemma {:induction false} QuietFreeChans(a: Att)
    ensures Silent(a.life, FreeChans(a).life)
    decreases |a.chans|
  {
    if a.chans != [] {
      var a0, c := a.(chans := a.chans[1..]), a.chans[0];
      QuietSlots(a0, c);
      QuietFreeChans(FreeChan(a0, c));
      hide Silent, FreeChan;
      SilentTwice(a.life, FreeChan(a0, c).life, FreeChans(a).life);
    }
  }

  lemma QuietUnref(a: Att)
    ensures Silent(a.life, DoUnref(a).life)
  {
    hide DoCancelAll, FreeChans, Silent;
    var a0 := a.(refs := 0, notify := []);
    QuietCall(a0, CancelAll);
    QuietFreeChans(DoCancelAll(a0));
    SilentSame(a.life);
    SilentTwice(a.life, DoCancelAll(a0).life, FreeChans(DoCancelAll(a0)).life);
  }

  // ---- What runs a callback ------------------------------------------------------------------

  // The operation's callback, if it has one, is told this.
  function Telling(op: Op, rsp: byte, data: seq<byte>): Option<LifeEvent> {
    if op.callback then Some(Called(op.serial, op.opcode, rsp, data)) else None
  }

  function TellingSlot(o: Option<Op>, rsp: byte, data: seq<byte>): Option<LifeEvent> {
    if o.Some? then Telling(o.value, rsp, data) else None
  }

  lemma TellsOne(a: Att, op: Op, rsp: byte, data: seq<byte>, during: seq<Call>)
    ensures Grows(a.life, CallAndRun(a, op, rsp, data, during).life, Telling(op, rsp, data))
    ensures GrowsFor(a.life, CallAndRun(a, op, rsp, data, during).life, op.serial)
  {
    var a1, told := CallOp(a, op, rsp, data), Telling(op, rsp, data);
    assert Grows(a.life, a1.life, told) && GrowsFor(a.life, a1.life, op.serial);
    var calls := if op.callback then during else [];
    QuietRunCalls(a1, calls);
    hide Grows, GrowsFor, Silent, RunCalls;
    SilentGrows(a1.life, RunCalls(a1, calls).life, told);
    GrowsSilent(a.life, a1.life, RunCalls(a1, calls).life, op.serial);
    GrowsTwice(a.life, a1.life, RunCalls(a1, calls).life, told);
  }

  // Told of a loss, whoever else is told what.
  lemma TellsLoss(a: Att, op: Op, during: seq<Call>, told: Option<LifeEvent>)
    ensures Grows(a.life, CallAndRun(a, op, ERROR_RSP, [], during).life, told)
  {
    TellsOne(a, op, ERROR_RSP, [], during);
    hide CallAndRun;
  }

  lemma TellsDisc(a: Att, op: Op, during: map<nat, seq<Call>>, told: Option<LifeEvent>)
    ensures Grows(a.life, DiscOp(a, op, during).life, told)
  {
    var b := CallAndRun(a, op, ERROR_RSP, [], CallsOf(during, op));
    TellsLoss(a, op, CallsOf(during, op), told);
    assert Silent(b.life, DestroyOp(b, op).life);
    hide CallAndRun, DestroyOp, Grows, Silent;
    SilentGrows(b.life, DestroyOp(b, op).life, told);
    GrowsTwice(a.life, b.life, DestroyOp(b, op).life, told);
  }

  lemma {:induction false} TellsDiscOps(a: Att, ops: seq<Op>, during: map<nat, seq<Call>>, told: Option<LifeEvent>)
    ensures Grows(a.life, DiscOps(a, ops, during).life, told)
    decreases |ops|
  {
    if ops != [] {
      TellsDisc(a, ops[0], during, told);
      TellsDiscOps(DiscOp(a, ops[0], during), ops[1..], during, told);
      hide Grows, DiscOp;
      GrowsTwice(a.life, DiscOp(a, ops[0], during).life, DiscOps(a, ops, during).life, told);
    }
  }

  lemma TellsDiscQueues(a: Att, during: map<nat, seq<Call>>, told: Option<LifeEvent>)
    ensures Grows(a.life, DiscQueues(a, during).life, told)
  {
    hide Grows, DiscOps;
    TellsDiscOps(a.(reqQ := []), a.reqQ, during, told);
    var a1 := DiscOps(a.(reqQ := []), a.reqQ, during);
    TellsDiscOps(a1.(indQ := []), a1.indQ, during, told);
    var a2 := DiscOps(a1.(indQ := []), a1.indQ, during);
    TellsDiscOps(a2.(writeQ := []), a2.writeQ, during, told);
    GrowsTwice(a.life, a1.life, a2.life, told);
    GrowsTwice(a.life, a2.life, DiscQueues(a, during).life, told);
  }

  lemma TellsDiscSlot(a: Att, o: Option<Op>, during: map<nat, seq<Call>>, told: Option<LifeEvent>)
    ensures Grows(a.life, DiscSlot(a, o, during).life, told)
  {
    if o.Some? { TellsDisc(a, o.value, during, told); }
    hide DiscOp;
  }

  lemma TellsDisconnect(a: Att, i: nat, during: map<nat, seq<Call>>, after: seq<Call>, told: Option<LifeEvent>)
    requires i < |a.chans|
    ensures Grows(a.life, DoDisconnect(a, i, during, after).life, told)
  {
    hide Grows, Silent, DiscQueues, DiscSlot, DestroyOps, RunCalls;
    var c := a.chans[i];
    var a0 := a.(chans := a.chans[..i] + a.chans[i + 1..], wire := a.wire + [Closed(c.cid)]);
    var a1 := DiscQueues(a0, during);
    var a2 := DiscSlot(a1, c.pendingReq, during);
    var a3 := DiscSlot(a2, c.pendingInd, during);
    var a4 := DestroyOps(a3, c.queue);
    TellsDiscQueues(a0, during, told);
    TellsDiscSlot(a1, c.pendingReq, during, told);
    TellsDiscSlot(a2, c.pendingInd, during, told);
    QuietDestroyOps(a3, c.queue);
    SilentGrows(a3.life, a4.life, told);
    QuietRunCalls(a4, after);
    SilentGrows(a4.life, RunCalls(a4, after).life, told);
    GrowsTwice(a.life, a1.life, a2.life, told);
    GrowsTwice(a.life, a2.life, a3.life, told);
    GrowsTwice(a.life, a3.life, a4.life, told);
    GrowsTwice(a.life, a4.life, RunCalls(a4, after).life, told);
  }

  lemma TellsWrite(a: Att, i: nat, written: int, during: seq<Call>, told: Option<LifeEvent>)
    requires i < |a.chans|
    ensures Grows(a.life, DoWrite(a, i, written, during).life, told)
  {
    hide PickNext, CallAndRun, DestroyOp, AfterWrite, Grows, Silent;
    var (next, a1) := PickNext(a, i);
    QuietPick(a, i);
    if next.Some? {
      var op := next.value;
      var b := CallAndRun(a1, op, ERROR_RSP, [], during);
      TellsLoss(a1, op, during, told);
      QuietDestroyOp(b, op);
      SilentGrows(b.life, DestroyOp(b, op).life, told);
      GrowsTwice(a.life, b.life, DestroyOp(b, op).life, told);
      QuietAfterWrite(a1, i, op);
      SilentGrows(a.life, AfterWrite(a1, i, op).life, told);
    } else {
      SilentSame(a.life);
      SilentGrows(a.life, a.life, told);
    }
  }

  lemma QuietPick(a: Att, i: nat)
    requires i < |a.chans|
    ensures PickNext(a, i).1.life == a.life
  {
  }

  lemma QuietDestroyOp(a: Att, op: Op)
    ensures Silent(a.life, DestroyOp(a, op).life)
  {
  }

  lemma QuietAfterWrite(a: Att, i: nat, op: Op)
    requires i < |a.chans|
    ensures Silent(a.life, AfterWrite(a, i, op).life)
  {
  }

  lemma TellsFinish(a: Att, i: nat, ty: OpType, rsp: byte, data: seq<byte>, during: seq<Call>)
    requires i < |a.chans| && Slot(a.chans[i], ty).Some?
    ensures var op := Slot(a.chans[i], ty).value;
            && Grows(a.life, Finish(a, i, ty, rsp, data, during).life, Telling(op, rsp, data))
            && GrowsFor(a.life, Finish(a, i, ty, rsp, data, during).life, op.serial)
  {
    var op := Slot(a.chans[i], ty).value;
    var told := Telling(op, rsp, data);
    var entered := a.(chans := a.chans[i := WithSlot(a.chans[i], ty, Some(op.(callback := false)))]);
    TellsOne(entered, op, rsp, data, during);
    var a1 := CallAndRun(entered, op, rsp, data, during);
    var b := Finish(a, i, ty, rsp, data, during);
    hide CallAndRun;
    assert Silent(a1.life, b.life);
    hide Grows, GrowsFor, Silent, Finish;
    SilentGrows(a1.life, b.life, told);
    GrowsSilent(a.life, a1.life, b.life, op.serial);
    GrowsTwice(a.life, a1.life, b.life, told);
  }

  // What a read can tell: the pending request its response, the pending indication its confirmation.
  function Tells(c: Chan, pdu: seq<byte>): Option<LifeEvent> {
    if pdu == [] then None
    else match OpTypeOf(pdu[0])
      case Rsp => TellingSlot(c.pendingReq, pdu[0], pdu[1..])
      case Conf => TellingSlot(c.pendingInd, HANDLE_CONF, [])
      case _ => None
  }

  // What a channel reads of the bytes that arrived.
  function ReadOf(c: Chan, bytes: seq<byte>): seq<byte> { if |bytes| <= c.mtu then bytes else bytes[..c.mtu] }

  lemma TellsRsp(a: Att, i: nat, opcode: byte, body: seq<byte>, env: RxEnv, during: seq<Call>)
    requires i < |a.chans|
    ensures Grows(a.life, HandleRsp(a, i, opcode, body, env, during).life, TellingSlot(a.chans[i].pendingReq, opcode, body))
    ensures var o := a.chans[i].pendingReq; o.Some? ==> GrowsFor(a.life, HandleRsp(a, i, opcode, body, env, during).life, o.value.serial)
  {
    hide Finish, NamedRequest, ChangeSecurity;
    if a.chans[i].pendingReq.Some? {
      TellsFinish(a, i, Req, opcode, body, during);
      TellsFinish(a, i, Req, ERROR_RSP, [], during);
    }
  }

  lemma TellsConf(a: Att, i: nat, body: seq<byte>, during: seq<Call>)
    requires i < |a.chans|
    ensures Grows(a.life, HandleConf(a, i, body, during).life, TellingSlot(a.chans[i].pendingInd, HANDLE_CONF, []))
  {
    hide Finish;
    if a.chans[i].pendingInd.Some? { TellsFinish(a, i, Ind, HANDLE_CONF, [], during); }
  }

  lemma QuietNotify(a: Att, i: nat, opcode: byte, env: RxEnv, during: seq<Call>)
    requires i < |a.chans|
    ensures Silent(a.life, HandleNotify(a, i, opcode, env, during).life)
  {
    hide RunCalls, DoSend, OpTypeOf, HasHandler;
    var a1 := a.(wire := a.wire + [Delivered(a.chans[i].cid, opcode)]);
    QuietRunCalls(a1.(wire := a1.wire + [Handled(a.chans[i].cid, opcode)]), during);
    QuietSend(a1, ERROR_RSP, [opcode, 0, 0, ECODE_REQUEST_NOT_SUPPORTED], false, false);
  }

  lemma TellsRead(a: Att, i: nat, bytes: seq<byte>, env: RxEnv, during: seq<Call>)
    requires i < |a.chans|
    ensures Grows(a.life, DoRead(a, i, bytes, env, during).life, Tells(a.chans[i], ReadOf(a.chans[i], bytes)))
  {
    hide HandleRsp, HandleConf, HandleNotify, OpTypeOf;
    var c := a.chans[i];
    var pdu := ReadOf(c, bytes);
    if |pdu| >= 1 {
      match OpTypeOf(pdu[0])
      case Rsp => TellsRsp(a, i, pdu[0], pdu[1..], env, during);
      case Conf => TellsConf(a, i, pdu[1..], during);
      case Req => QuietNotify(a.(chans := a.chans[i := c.(inReq := true)]), i, pdu[0], env, during);
      case _ => QuietNotify(a, i, pdu[0], env, during);
    }
  }

  lemma TellsTimeOut(a: Att, i: nat, ty: OpType, first: seq<Call>, during: seq<Call>, told: Option<LifeEvent>)
    requires i < |a.chans|
    ensures Grows(a.life, TimeOut(a, i, ty, first, during).life, told)
  {
    if Slot(a.chans[i], ty).Some? {
      var op := Slot(a.chans[i], ty).value;
      var a0 := Release(a, i, op, ty, ByTimeout);
      var a1 := RunCalls(a0, first);
      var a2 := CallAndRun(a1, op, ERROR_RSP, [], during);
      var a3 := DestroyOp(a2, op.(timer := 0));
      QuietRunCalls(a0, first);
      TellsLoss(a1, op, during, told);
      assert Silent(a2.life, a3.life);
      hide RunCalls, CallAndRun, DestroyOp, Grows, Silent;
      SilentGrows(a0.life, a1.life, told);
      SilentGrows(a2.life, a3.life, told);
      GrowsTwice(a.life, a1.life, a2.life, told);
      GrowsTwice(a.life, a2.life, a3.life, told);
    }
  }

  // ---- Every turn ----------------------------------------------------------------------------

  // What a turn can tell beside losses.
  function ToldBy(a: Att, act: Action): Option<LifeEvent> {
    if act.Received? && act.i < |a.chans| then Tells(a.chans[act.i], ReadOf(a.chans[act.i], act.bytes)) else None
  }

  // In any state and whatever the callbacks call back: a callback that runs is told of a loss, or it is
  // the pending operation's and is told what this turn read.
  lemma RepliesComeFromThePeer(a: Att, act: Action)
    ensures Grows(a.life, Step(a, act).life, ToldBy(a, act))
  {
    hide DoCall, DoWrite, DoRead, DoTimeout, DoDisconnect, DoUnref, Tells, ReadOf;
    var told := ToldBy(a, act);
    match act
    case Api(call) => QuietCall(a, call);
    case WriterReady(i, written, during) => if i < |a.chans| { TellsWrite(a, i, written, during, told); }
    case Received(i, bytes, env, during) => if i < |a.chans| { TellsRead(a, i, bytes, env, during); }
    case TimerFired(tid, first, during) => TellsTimer(a, tid, first, during, told);
    case Disconnected(i, during, after) => if i < |a.chans| { TellsDisconnect(a, i, during, after, told); }
    case Unref => QuietUnref(a);
    case _ =>
  }

  lemma TellsTimer(a: Att, tid: nat, first: seq<Call>, during: seq<Call>, told: Option<LifeEvent>)
    ensures Grows(a.life, DoTimeout(a, tid, first, during).life, told)
  {
    hide TimeOut, SlotHasId;
    if tid in a.timers {
      var a0 := a.(timers := a.timers - {tid});
      var i := FindChan(a.chans, a.timers[tid].cid);
      if i < |a.chans| {
        TellsTimeOut(a0, i, Req, first, during, told);
        TellsTimeOut(a0, i, Ind, first, during, told);
      }
    }
  }

  // So in a reachable state an answer that is no loss is the answer to the request with the bytes it was
  // accepted with, the last one written on the channel it arrives on.
  lemma AnswersTheWrittenRequest(a: Att, act: Action, j: nat)
    requires Reachable(a) && |a.life| <= j < |Step(a, act).life|
    requires var e := Step(a, act).life[j]; e.Called? && !Lost(e) && e.rsp != HANDLE_CONF
    ensures act.Received? && act.i < |a.chans|
    ensures var e := Step(a, act).life[j]; var c := a.chans[act.i]; var o := c.pendingReq;
            && ReadOf(c, act.bytes) == [e.rsp] + e.data
            && o.Some? && o.value.serial == e.serial && o.value.pdu == TallyOf(a.life, e.serial).pdu
            && StoryOf(a.wire, c.cid).req == Busy(e.serial)
  {
    hide Step, Inv, Reachable, ToldBy, ReadOf, StoryOf, TallyOf;
    RepliesComeFromThePeer(a, act);
    ReachableInv(a);
    ToldResponse(a, act, Step(a, act).life[j]);
    PendingBooked(a, act.i);
  }

  lemma ToldResponse(a: Att, act: Action, e: LifeEvent)
    requires ToldBy(a, act) == Some(e) && e.Called? && e.rsp != HANDLE_CONF
    ensures act.Received? && act.i < |a.chans|
    ensures var c := a.chans[act.i]; var o := c.pendingReq;
            ReadOf(c, act.bytes) == [e.rsp] + e.data && o.Some? && o.value.callback && o.value.serial == e.serial && OpTypeOf(e.rsp).Rsp?
  {
    hide OpTypeOf, ReadOf;
    var pdu := ReadOf(a.chans[act.i], act.bytes);
    assert pdu == [pdu[0]] + pdu[1..];
  }

  lemma PendingBooked(a: Att, i: nat)
    requires Inv(a) && i < |a.chans| && a.chans[i].pendingReq.Some?
    ensures var op := a.chans[i].pendingReq.value;
            && StageOf(a.life, op.serial).Alive? && StageOf(a.life, op.serial).pdu == op.pdu
            && TallyOf(a.life, op.serial).pdu == op.pdu && op.pdu != [] && op.pdu[0] == op.opcode && op.serial < a.nextSerial
            && StoryOf(a.wire, a.chans[i].cid).req == Busy(op.serial)
  {
    var op := a.chans[i].pendingReq.value;
    SlotInPool(a, i, Req, op);
    assert op in Pool(a) + multiset{};
    assert OpBooked(op, LedgerOf(a));
    StageTally(a.life, op.serial);
    assert Fits(StoryOf(a.wire, a.chans[i].cid), a.chans[i]);
  }
}
