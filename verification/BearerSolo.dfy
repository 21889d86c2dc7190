// One channel, as libble uses the engine (attrib/gattrib.c creates one and attaches no more): when a
// wake-up is lost, and when none is.

module BearerSolo {
  import opened Wire
  import opened Opcodes
  import opened BearerSpec
  import opened BearerSound
  import opened BearerPlaces
  import opened BearerTalk
  import opened BearerRuns
  import opened BearerTheorems

  // ---- No lost wake-up -----------------------------------------------------------------------

  // An idle writer has nothing it could write now.
  ghost predicate NothingWritable(a: Att, c: Chan) {
    c.queue == [] && a.writeQ == [] && (a.reqQ == [] || c.pendingReq.Some?) && (a.indQ == [] || c.pendingInd.Some?)
  }

  ghost predicate Settled(a: Att) {
    a.chans != [] && !a.chans[0].shut && !a.chans[0].writerActive ==> NothingWritable(a, a.chans[0])
  }

  // The channel could take nothing from this queue.
  predicate TooLong(q: seq<Op>, mtu: u16) { q == [] || |q[0].pdu| > mtu }

  // A writer offered now would find something to write, but only heads longer than its MTU.
  ghost predicate Blocked(a: Att, c: Chan) {
    && c.queue == [] && TooLong(a.writeQ, c.mtu)
    && (c.pendingReq.Some? || TooLong(a.reqQ, c.mtu)) && (c.pendingInd.Some? || TooLong(a.indQ, c.mtu))
    && !NothingWritable(a, c)
  }

  // The one kind of turn that loses a wake-up.
  ghost predicate Stalls(a: Att, act: Action) {
    act.WriterReady? && act.i < |a.chans| && a.chans[act.i].writerActive && !a.chans[act.i].shut && Blocked(a, a.chans[act.i])
  }

  // One channel and, unless m is 0, its MTU the largest seen and at most m.
  ghost predicate Solo(a: Att, m: nat) {
    |a.chans| <= 1 && (m > 0 ==> a.mtu <= m && (a.chans != [] ==> a.chans[0].mtu == a.mtu))
  }

  // With `live` false, only the part that does not speak of the writer.
  ghost predicate Awake(a: Att, m: nat, live: bool) { Solo(a, m) && (live ==> Settled(a)) }

  // The largest MTU asked for so far, and that no call asks for less; m is 0 where the MTU does not
  // matter.
  function PeakCall(m: nat, call: Call): nat {
    if m > 0 && call.SetMtu? && m < call.mtu && DEFAULT_LE_MTU <= call.mtu then call.mtu else m
  }

  function Peak(m: nat, calls: seq<Call>): nat
    decreases |calls|
  {
    if calls == [] then m else Peak(PeakCall(m, calls[0]), calls[1..])
  }

  predicate Rises(m: nat, call: Call) { m > 0 && call.SetMtu? ==> call.mtu < DEFAULT_LE_MTU || m <= call.mtu }

  predicate Rising(m: nat, calls: seq<Call>)
    decreases |calls|
  {
    calls != [] ==> Rises(m, calls[0]) && Rising(PeakCall(m, calls[0]), calls[1..])
  }

  function CallsIn(act: Action): seq<Call> {
    match act
    case Api(call) => [call]
    case WriterReady(_, _, during) => during
    case Received(_, _, _, during) => during
    case TimerFired(_, first, during) => first + during
    case _ => []
  }

  predicate RisingRun(m: nat, acts: seq<Action>)
    decreases |acts|
  {
    acts != [] ==>
      !acts[0].Attach? && Rising(m, CallsIn(acts[0])) && RisingRun(Peak(m, CallsIn(acts[0])), acts[1..])
  }

  lemma {:induction false} PeakGrows(m: nat, calls: seq<Call>)
    ensures m <= Peak(m, calls) && (m == 0 ==> Peak(m, calls) == 0)
    decreases |calls|
  {
    if calls != [] { PeakGrows(PeakCall(m, calls[0]), calls[1..]); }
  }

  lemma {:induction false} PeakNone(calls: seq<Call>)
    ensures Peak(0, calls) == 0 && Rising(0, calls)
    decreases |calls|
  {
    if calls != [] { PeakNone(calls[1..]); }
  }

  lemma {:induction false} PeakConcat(m: nat, a: seq<Call>, b: seq<Call>)
    ensures Peak(m, a + b) == Peak(Peak(m, a), b)
    ensures Rising(m, a + b) <==> Rising(m, a) && Rising(Peak(m, a), b)
    decreases |a|
  {
    if a == [] {
      assert a + b == b;
    } else {
      assert (a + b)[1..] == a[1..] + b;
      PeakConcat(PeakCall(m, a[0]), a[1..], b);
    }
  }

  lemma AwakeWakeAll(a: Att, m: nat)
    requires Solo(a, m)
    ensures Awake(WakeAll(a), m, true)
  {
  }

  lemma AwakeWake(a: Att, m: nat)
    requires Solo(a, m) && |a.chans| == 1
    ensures Awake(Wake(a, 0), m, true)
  {
  }

  lemma AwakeSend(a: Att, opcode: byte, payload: seq<byte>, callback: bool, destroy: bool, m: nat, live: bool)
    requires Awake(a, m, live)
    ensures Awake(DoSend(a, opcode, payload, callback, destroy), m, live)
  {
    hide WakeAll, OpTypeOf;
    if a.chans != [] {
      match CreateOp(a, opcode, payload, callback, destroy)
      case None =>
      case Some(op) =>
        AwakeWakeAll(Enqueue(Accept(a, op.(id := NextId(a))).(nextSendId := NextId(a) + 1), op.(id := NextId(a))), m);
    }
  }

  lemma AwakeChanSend(a: Att, i: nat, opcode: byte, payload: seq<byte>, callback: bool, destroy: bool, m: nat, live: bool)
    requires Awake(a, m, live)
    ensures Awake(DoChanSend(a, i, opcode, payload, callback, destroy), m, live)
  {
    hide OpTypeOf;
  }

  lemma AwakeCancel(a: Att, id: nat, m: nat, live: bool)
    requires Awake(a, m, live)
    ensures Awake(DoCancel(a, id).0, m, live)
  {
    hide WakeAll, ChanCancel, Settled;
    if id != 0 {
      if a.chans != [] {
        CancelSolo(a, id);
        AwakeChanCancel(a, id, m, live);
      }
      hide CancelOnChans, Without;
      var j, k, n := FindId(a.reqQ, id), FindId(a.indQ, id), FindId(a.writeQ, id);
      if j < |a.reqQ| { AwakeWakeAll(DestroyOp(a.(reqQ := Without(a.reqQ, j)), a.reqQ[j]), m); }
      if k < |a.indQ| { AwakeWakeAll(DestroyOp(a.(indQ := Without(a.indQ, k)), a.indQ[k]), m); }
      if n < |a.writeQ| { AwakeWakeAll(DestroyOp(a.(writeQ := Without(a.writeQ, n)), a.writeQ[n]), m); }
    }
  }

  lemma CancelSolo(a: Att, id: nat)
    requires |a.chans| == 1
    ensures CancelOnChans(a, 0, id) == if ChanCancel(a, 0, id).1 then ChanCancel(a, 0, id) else (a, false)
  {
    hide ChanCancel;
    assert CancelOnChans(a, 1, id) == (a, false);
  }

  lemma AwakeChanCancel(a: Att, id: nat, m: nat, live: bool)
    requires Awake(a, m, live) && |a.chans| == 1
    ensures Awake(ChanCancel(a, 0, id).0, m, live)
  {
    hide Wake;
    var c := a.chans[0];
    var j := FindId(c.queue, id);
    if j < |c.queue| {
      AwakeWake(DestroyOp(a.(chans := a.chans[0 := c.(queue := Without(c.queue, j))]), c.queue[j]), m);
    }
  }

  lemma AwakeCancelAll(a: Att, m: nat, live: bool)
    requires Awake(a, m, live)
    ensures Awake(DoCancelAll(a), m, live)
  {
    hide DestroyQueues;
    DestroyQueuesFrame(a);
    var b := DestroyQueues(a);
    if b.chans != [] {
      assert StripFrom(b, 0) == StripSlot(StripSlot(b, 0, Req), 0, Ind);
    }
  }

  lemma DestroyQueuesFrame(a: Att)
    ensures var b := DestroyQueues(a);
            b.chans == a.chans && b.mtu == a.mtu && b.reqQ == [] && b.indQ == [] && b.writeQ == []
  {
    hide DestroyOps;
    var a1 := DestroyOps(a.(reqQ := []), a.reqQ);
    var a2 := DestroyOps(a1.(indQ := []), a1.indQ);
    DestroyOpsFrame(a.(reqQ := []), a.reqQ);
    DestroyOpsFrame(a1.(indQ := []), a1.indQ);
    DestroyOpsFrame(a2.(writeQ := []), a2.writeQ);
    DestroyOpsMtu(a.(reqQ := []), a.reqQ);
    DestroyOpsMtu(a1.(indQ := []), a1.indQ);
    DestroyOpsMtu(a2.(writeQ := []), a2.writeQ);
  }

  lemma {:induction false} DestroyOpsMtu(a: Att, ops: seq<Op>)
    ensures DestroyOps(a, ops).mtu == a.mtu
    decreases |ops|
  {
    if ops != [] { DestroyOpsMtu(DestroyOp(a, ops[0]), ops[1..]); }
  }

  lemma AwakeCall(a: Att, call: Call, m: nat, live: bool)
    requires Awake(a, m, live) && Rises(m, call)
    ensures Awake(DoCall(a, call), PeakCall(m, call), live)
  {
    hide DoSend, DoChanSend, DoCancel, DoCancelAll;
    match call
    case Send(opcode, payload, callback, destroy) => AwakeSend(a, opcode, payload, callback, destroy, m, live);
    case ChanSend(i, opcode, payload, callback, destroy) => AwakeChanSend(a, i, opcode, payload, callback, destroy, m, live);
    case Cancel(id) => AwakeCancel(a, id, m, live);
    case CancelAll => AwakeCancelAll(a, m, live);
    case SetMtu(mtu) =>
    case SetSecurity(level, setOk) =>
  }

  lemma {:induction false} AwakeRunCalls(a: Att, calls: seq<Call>, m: nat, live: bool)
    requires Awake(a, m, live) && Rising(m, calls)
    ensures Awake(RunCalls(a, calls), Peak(m, calls), live)
    decreases |calls|
  {
    hide Awake, DoCall;
    if calls != [] {
      AwakeCall(a, calls[0], m, live);
      AwakeRunCalls(DoCall(a, calls[0]), calls[1..], PeakCall(m, calls[0]), live);
    }
  }

  lemma AwakeFinish(a: Att, ty: OpType, rsp: byte, data: seq<byte>, during: seq<Call>, m: nat)
    requires Awake(a, m, true) && Rising(m, during) && |a.chans| == 1
    ensures Awake(Finish(a, 0, ty, rsp, data, during), Peak(m, during), true)
  {
    hide RunCalls, Wake;
    match Slot(a.chans[0], ty)
    case None => PeakGrows(m, during);
    case Some(op) =>
      var entered := a.(chans := a.chans[0 := WithSlot(a.chans[0], ty, Some(op.(callback := false)))]);
      var calls := if op.callback then during else [];
      PeakGrows(m, during);
      AwakeRunCalls(CallOp(entered, op, rsp, data), calls, m, true);
      AwakeRunCalls(CallOp(entered, op, rsp, data), [], m, true);
      var a1 := CallAndRun(entered, op, rsp, data, during);
      assert RunCalls(CallOp(entered, op, rsp, data), []) == CallOp(entered, op, rsp, data) by { RunNone(CallOp(entered, op, rsp, data)); }
      assert Awake(a1, Peak(m, during), true);
      match Slot(a1.chans[0], ty)
      case None =>
      case Some(op1) => AwakeWake(Release(DestroyOp(a1, op1), 0, op1, ty, ByResponse), Peak(m, during));
  }

  lemma RunNone(a: Att)
    ensures RunCalls(a, []) == a
  {
  }

  lemma AwakeHandleRsp(a: Att, opcode: byte, body: seq<byte>, env: RxEnv, during: seq<Call>, m: nat)
    requires Awake(a, m, true) && Rising(m, during) && |a.chans| == 1
    ensures Awake(HandleRsp(a, 0, opcode, body, env, during), Peak(m, during), true)
  {
    hide Finish, Wake, NamedRequest, RaisedLevel;
    PeakGrows(m, during);
    var c := a.chans[0];
    match c.pendingReq
    case None =>
    case Some(op) =>
      var raised := if opcode == ERROR_RSP && |body| == 4 then ChangeSecurity(c, body[3], env) else None;
      if raised.Some? {
        AwakeWake(Retry(a, 0, op, raised.value, c.link.Local? || env.getOk), m);
      }
      AwakeFinish(a, Req, opcode, body, during, m);
      AwakeFinish(a, Req, ERROR_RSP, [], during, m);
  }

  lemma AwakeHandleNotify(a: Att, opcode: byte, env: RxEnv, during: seq<Call>, m: nat)
    requires Awake(a, m, true) && Rising(m, during) && |a.chans| == 1
    ensures Awake(HandleNotify(a, 0, opcode, env, during), Peak(m, during), true)
  {
    hide RunCalls, DoSend, OpTypeOf;
    PeakGrows(m, during);
    var a1 := a.(wire := a.wire + [Delivered(a.chans[0].cid, opcode)]);
    AwakeRunCalls(a1.(wire := a1.wire + [Handled(a.chans[0].cid, opcode)]), during, m, true);
    AwakeSend(a1, ERROR_RSP, [opcode, 0, 0, ECODE_REQUEST_NOT_SUPPORTED], false, false, m, true);
  }

  lemma AwakeRead(a: Att, bytes: seq<byte>, env: RxEnv, during: seq<Call>, m: nat)
    requires Awake(a, m, true) && Rising(m, during) && |a.chans| == 1
    ensures Awake(DoRead(a, 0, bytes, env, during), Peak(m, during), true)
  {
    hide HandleRsp, HandleNotify, Finish, OpTypeOf;
    PeakGrows(m, during);
    var c := a.chans[0];
    var pdu := if |bytes| <= c.mtu then bytes else bytes[..c.mtu];
    if |pdu| >= 1 {
      match OpTypeOf(pdu[0])
      case Rsp => AwakeHandleRsp(a, pdu[0], pdu[1..], env, during, m);
      case Conf => AwakeFinish(a, Ind, HANDLE_CONF, [], during, m);
      case Req => AwakeHandleNotify(a.(chans := a.chans[0 := c.(inReq := true)]), pdu[0], env, during, m);
      case _ => AwakeHandleNotify(a, pdu[0], env, during, m);
    }
  }

  // An active writer stays active until it finds nothing to write.
  lemma AwakeWrite(a: Att, written: int, during: seq<Call>, m: nat)
    requires Awake(a, m, true) && Rising(m, during) && Kept(a) && PlainCalls(during)
    requires |a.chans| == 1 && a.chans[0].writerActive && (m > 0 || a.chans[0].shut || !Blocked(a, a.chans[0]))
    ensures Awake(DoWrite(a, 0, written, during), Peak(m, during), true)
  {
    hide Kept, CallAndRun, PickNext, NothingWritable, OpTypeOf;
    PeakGrows(m, during);
    KeptPick(a);
    var (next, a1) := PickNext(a, 0);
    match next
    case None => if m > 0 { PickNone(a); } PickBlocked(a);
    case Some(op) =>
      if written == 0 {
        AwakeUnsent(a1, op, during, m);
      }
  }

  lemma AwakeUnsent(a: Att, op: Op, during: seq<Call>, m: nat)
    requires Awake(a, m, true) && Rising(m, during) && Kept(a) && PlainCalls(during)
    requires |a.chans| == 1 && a.chans[0].writerActive
    ensures Awake(CallAndRun(a, op, ERROR_RSP, [], during), Peak(m, during), true)
    ensures CallAndRun(a, op, ERROR_RSP, [], during).chans[0].writerActive
  {
    hide RunCalls, Kept, Rising;
    PeakGrows(m, during);
    var b := CallOp(a, op, ERROR_RSP, []);
    if op.callback { AwakeRunCalls(b, during, m, true); } else { RunNone(b); }
    KeepCallAndRun(a, op, ERROR_RSP, [], during);
  }

  lemma KeptPick(a: Att)
    requires Kept(a) && |a.chans| == 1
    ensures var b := PickNext(a, 0).1;
            Kept(b) && b.mtu == a.mtu && b.chans[0] == a.chans[0].(queue := b.chans[0].queue)
  {
    hide Places, Talk, Quiet;
    KeepPick(a, 0);
    KeptQuiet(a, PickNext(a, 0).1);
  }

  lemma PickNone(a: Att)
    requires Kept(a) && |a.chans| == 1 && a.chans[0].mtu == a.mtu && PickNext(a, 0).0.None?
    ensures var b := a.(chans := a.chans[0 := a.chans[0].(writerActive := false)]); NothingWritable(b, b.chans[0])
  {
  }

  // With nothing to pick, being blocked is what separates a stall from a rest.
  lemma PickBlocked(a: Att)
    requires |a.chans| == 1 && PickNext(a, 0).0.None?
    ensures var b := a.(chans := a.chans[0 := a.chans[0].(writerActive := false)]);
            NothingWritable(b, b.chans[0]) <==> !Blocked(a, a.chans[0])
  {
  }

  lemma AwakeTimeout(a: Att, tid: nat, first: seq<Call>, during: seq<Call>, m: nat)
    requires Awake(a, m, true) && Rising(m, first) && Rising(Peak(m, first), during)
    ensures Awake(DoTimeout(a, tid, first, during), Peak(Peak(m, first), during), true)
  {
    hide RunCalls;
    PeakGrows(m, first);
    PeakGrows(Peak(m, first), during);
    if tid in a.timers {
      var a0 := a.(timers := a.timers - {tid});
      if a.chans != [] {
        AwakeTimeOut(a0, Req, first, during, m);
        AwakeTimeOut(a0, Ind, first, during, m);
      }
    }
  }

  lemma AwakeTimeOut(a: Att, ty: OpType, first: seq<Call>, during: seq<Call>, m: nat)
    requires Awake(a, m, true) && Rising(m, first) && Rising(Peak(m, first), during) && |a.chans| == 1
    ensures Awake(TimeOut(a, 0, ty, first, during), Peak(Peak(m, first), during), true)
  {
    hide RunCalls;
    PeakGrows(m, first);
    PeakGrows(Peak(m, first), during);
    if Slot(a.chans[0], ty).Some? {
      var op := Slot(a.chans[0], ty).value;
      var a1 := Release(a, 0, op, ty, ByTimeout);
      AwakeRunCalls(a1, first, m, false);
      var b := CallOp(RunCalls(a1, first), op, ERROR_RSP, []);
      AwakeRunCalls(b, during, Peak(m, first), false);
      RunNone(b);
    }
  }

  lemma {:induction false} FreeChansMtu(a: Att)
    ensures FreeChans(a).mtu == a.mtu
    decreases |a.chans|
  {
    if a.chans != [] {
      var c, a0 := a.chans[0], a.(chans := a.chans[1..]);
      DestroyOpsMtu(DestroySlot(DestroySlot(a0, c.pendingReq), c.pendingInd), c.queue);
      FreeChansMtu(FreeChan(a0, c));
    }
  }

  lemma AwakeStep(a: Att, act: Action, m: nat)
    requires Inv(a) && Awake(a, m, true) && Plain(act) && !act.Attach? && Rising(m, CallsIn(act))
    requires m > 0 || !Stalls(a, act)
    ensures Awake(Step(a, act), Peak(m, CallsIn(act)), true)
  {
    hide Sound, Kept, DoCall, DoWrite, DoRead, DoTimeout, DoDisconnect, FreeChans, DoCancelAll;
    match act
    case Api(call) => AwakeCall(a, call, m, true); assert Peak(m, [call]) == PeakCall(m, call);
    case Register(_) | Unregister(_) | UnregisterAll =>
    case WriterReady(i, written, during) =>
      PeakGrows(m, during);
      if i < |a.chans| && a.chans[i].writerActive { AwakeWrite(a, written, during, m); }
    case Received(i, bytes, env, during) =>
      PeakGrows(m, during);
      if i < |a.chans| { AwakeRead(a, bytes, env, during, m); }
    case TimerFired(tid, first, during) =>
      PeakConcat(m, first, during);
      AwakeTimeout(a, tid, first, during, m);
    case Disconnected(i, each, after) => if i < |a.chans| { DisconnectDrains(a, each, after); }
    case Ref =>
    case Unref =>
      var a0 := a.(refs := 0, notify := []);
      AwakeCancelAll(a0, m, true);
      FreeChansMtu(DoCancelAll(a0));
  }

  lemma {:induction false} AwakeRun(a: Att, acts: seq<Action>, m: nat)
    requires Inv(a) && Awake(a, m, true) && m > 0 && PlainRun(acts) && RisingRun(m, acts)
    ensures Settled(Run(a, acts))
    decreases |acts|
  {
    hide Inv, Step, Settled, Solo, Plain, Rising, Stalls;
    if acts != [] {
      PeakGrows(m, CallsIn(acts[0]));
      AwakeStep(a, acts[0], m);
      InvStep(a, acts[0]);
      AwakeRun(Step(a, acts[0]), acts[1..], Peak(m, CallsIn(acts[0])));
    }
  }

  // No lost wake-up: on a single channel that is not shut down and whose MTU is never lowered, an
  // idle writer means there is nothing the channel could write.
  lemma NoLostWakeup(link: Link, ioMtu: u16, level: int, crypto: bool, acts: seq<Action>)
    requires NewAtt(link, ioMtu, level, crypto).Some? && PlainRun(acts)
    requires RisingRun(NewAtt(link, ioMtu, level, crypto).value.mtu, acts)
    ensures Settled(Run(NewAtt(link, ioMtu, level, crypto).value, acts))
  {
    InvNew(link, ioMtu, level, crypto);
    AwakeRun(NewAtt(link, ioMtu, level, crypto).value, acts, NewAtt(link, ioMtu, level, crypto).value.mtu);
  }

  // ---- When the MTU is lowered ---------------------------------------------------------------

  // Exactly one kind of turn loses a wake-up: the writer is offered while the head of every queue it
  // may take from is longer than the channel's MTU.
  lemma LostExactlyWhenBlocked(a: Att, act: Action)
    requires Inv(a) && |a.chans| <= 1 && Settled(a) && Plain(act) && !act.Attach?
    ensures |Step(a, act).chans| <= 1 && (Settled(Step(a, act)) <==> !Stalls(a, act))
  {
    hide Inv, Plain;
    if Stalls(a, act) {
      StallUnsettles(a, act.written, act.during);
    } else {
      hide Step, Settled;
      PeakNone(CallsIn(act));
      AwakeStep(a, act, 0);
    }
  }

  lemma StallUnsettles(a: Att, written: int, during: seq<Call>)
    requires |a.chans| == 1 && !a.chans[0].shut && Blocked(a, a.chans[0])
    ensures DoWrite(a, 0, written, during) == a.(chans := a.chans[0 := a.chans[0].(writerActive := false)])
    ensures !Settled(DoWrite(a, 0, written, during))
  {
    PickBlocked(a);
  }

  predicate NoAttach(acts: seq<Action>) { forall k :: 0 <= k < |acts| ==> !acts[k].Attach? }

  ghost predicate AlwaysSettled(a: Att, acts: seq<Action>)
    decreases |acts|
  {
    Settled(a) && (acts != [] ==> AlwaysSettled(Step(a, acts[0]), acts[1..]))
  }

  ghost predicate NeverStalls(a: Att, acts: seq<Action>)
    decreases |acts|
  {
    acts != [] ==> !Stalls(a, acts[0]) && NeverStalls(Step(a, acts[0]), acts[1..])
  }

  lemma RunTail(acts: seq<Action>)
    requires acts != [] && PlainRun(acts) && NoAttach(acts)
    ensures Plain(acts[0]) && !acts[0].Attach? && PlainRun(acts[1..]) && NoAttach(acts[1..])
  {
    hide Plain;
  }

  // So a run loses no wake-up at any point if and only if none of its offers is blocked.
  lemma {:induction false} SettledExactly(a: Att, acts: seq<Action>)
    requires Inv(a) && |a.chans| <= 1 && Settled(a) && PlainRun(acts) && NoAttach(acts)
    ensures AlwaysSettled(a, acts) <==> NeverStalls(a, acts)
    decreases |acts|
  {
    hide Inv, Step, Settled, Stalls, Plain, PlainRun, NoAttach;
    if acts != [] {
      RunTail(acts);
      InvStep(a, acts[0]);
      LostExactlyWhenBlocked(a, acts[0]);
      if !Stalls(a, acts[0]) {
        SettledExactly(Step(a, acts[0]), acts[1..]);
      }
    }
  }

  // A wake-up once lost does not come back with the MTU: bt_att_set_mtu wakes nobody.
  lemma MtuRepairsNothing(a: Att, mtu: u16)
    requires |a.chans| <= 1
    ensures Settled(DoSetMtu(a, mtu)) <==> Settled(a)
  {
  }

  // Such a run: a write accepted at MTU 100 blocks the writer at 30, and stays behind an idle writer
  // when the MTU is back at 100 and it would fit.
  lemma LoweredMtuStalls(ioMtu: u16, level: int, payload: seq<byte>)
    requires |payload| == 48
    ensures var a := NewAtt(Le, ioMtu, level, false); var acts := StallingRun(payload);
            && a.Some? && PlainRun(acts) && NoAttach(acts)
            && var b := Run(a.value, acts);
               && Reachable(b) && !Settled(b) && b.chans != [] && !b.chans[0].shut && !b.chans[0].writerActive
               && |b.writeQ| == 1 && |b.writeQ[0].pdu| == 49 <= b.chans[0].mtu
  {
    var a, acts := NewAtt(Le, ioMtu, level, false).value, StallingRun(payload);
    var a2 := DoSend(DoSetMtu(a, 100), WRITE_CMD, payload, false, false);
    QueuedWrite(a, payload);
    var a3 := DoSetMtu(a2, 30);
    StallUnsettles(a3, 49, []);
    var a4 := DoWrite(a3, 0, 49, []);
    var b := DoSetMtu(a4, 100);
    hide DoSend, DoWrite, NewAtt, Reachable;
    StalledEnd(a3, a4, b);
    StallingPlain(payload);
    StallingSteps(a, payload);
    assert Runs(Le, ioMtu, level, false, acts, b);
    assert Reachable(b) by { ReachableBy(Le, ioMtu, level, false, acts, b); }
  }

  function StallingRun(payload: seq<byte>): seq<Action> {
    [Api(SetMtu(100)), Api(Send(WRITE_CMD, payload, false, false)), Api(SetMtu(30)), WriterReady(0, 49, []), Api(SetMtu(100))]
  }

  lemma ReachableBy(link: Link, ioMtu: u16, level: int, crypto: bool, acts: seq<Action>, a: Att)
    requires PlainRun(acts) && Runs(link, ioMtu, level, crypto, acts, a)
    ensures Reachable(a)
  {
  }

  // The state after the write was accepted.
  ghost predicate HoldsOne(a: Att, mtu: u16) {
    && |a.chans| == 1 && a.chans[0].mtu == mtu && !a.chans[0].shut && a.chans[0].writerActive && a.chans[0].queue == []
    && a.reqQ == [] && a.indQ == [] && |a.writeQ| == 1 && |a.writeQ[0].pdu| == 49
  }

  lemma QueuedWrite(a: Att, payload: seq<byte>)
    requires |payload| == 48 && exists ioMtu: u16, level: int :: NewAtt(Le, ioMtu, level, false) == Some(a)
    ensures HoldsOne(DoSend(DoSetMtu(a, 100), WRITE_CMD, payload, false, false), 100)
  {
  }

  lemma StalledEnd(a3: Att, a4: Att, b: Att)
    requires HoldsOne(a3, 30) && a4 == a3.(chans := a3.chans[0 := a3.chans[0].(writerActive := false)]) && b == DoSetMtu(a4, 100)
    ensures !Settled(b) && b.chans != [] && !b.chans[0].shut && !b.chans[0].writerActive && b.writeQ == a3.writeQ && b.chans[0].mtu == 100
  {
  }

  lemma StallingSteps(a: Att, payload: seq<byte>)
    requires |payload| == 48 && |DoSetMtu(DoSend(DoSetMtu(a, 100), WRITE_CMD, payload, false, false), 30).chans| == 1
    requires DoSetMtu(DoSend(DoSetMtu(a, 100), WRITE_CMD, payload, false, false), 30).chans[0].writerActive
    ensures Run(a, StallingRun(payload))
            == DoSetMtu(DoWrite(DoSetMtu(DoSend(DoSetMtu(a, 100), WRITE_CMD, payload, false, false), 30), 0, 49, []), 100)
  {
    hide DoSend, DoSetMtu, DoWrite, Run, OpTypeOf;
    RunFive(a, Api(SetMtu(100)), Api(Send(WRITE_CMD, payload, false, false)), Api(SetMtu(30)), WriterReady(0, 49, []), Api(SetMtu(100)));
  }

  lemma StallingPlain(payload: seq<byte>)
    ensures PlainRun(StallingRun(payload)) && NoAttach(StallingRun(payload))
  {
  }

  lemma RunFive(a: Att, r: Action, s: Action, t: Action, u: Action, v: Action)
    ensures Run(a, [r, s, t, u, v]) == Step(Step(Step(Step(Step(a, r), s), t), u), v)
  {
    RunFirst(a, r, [s, t, u, v]);
    RunFour(Step(a, r), s, t, u, v);
    hide Run, Step;
    assert [r] + [s, t, u, v] == [r, s, t, u, v];
  }
}
