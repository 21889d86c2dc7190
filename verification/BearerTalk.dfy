// What each channel has said so far: at most one request and one indication outstanding, and at
// most one incoming request being served.

module BearerTalk {
  import opened Wire
  import opened Opcodes
  import opened BearerSpec
  import opened BearerSound
  import opened BearerPlaces

  datatype Turn = Idle | Busy(serial: nat) | Clash

  // The history of one channel: the outstanding request and indication, requests taken from the
  // peer, responses given to it, and security retries since the level was last set explicitly (or
  // could not be read).
  datatype Story = Story(req: Turn, ind: Turn, taken: nat, given: nat, retries: nat)

  const BLANK: Story := Story(Idle, Idle, 0, 0, 0)

  function CountRetry(n: nat, how: How): nat {
    match how case ByRetry(sure) => if sure then n + 1 else 0 case _ => n
  }

  // How often the level can still have been raised.
  function Rank(level: int): (r: nat) {
    if level < SEC_MEDIUM then 0 else if level < SEC_HIGH then 1 else if level < SEC_FIPS then 2 else 3
  }

  function Start(t: Turn, k: nat): Turn { if t.Idle? then Busy(k) else Clash }

  function Stop(t: Turn, k: nat): Turn { if t == Busy(k) then Idle else Clash }

  function Reset(t: Turn): Turn { if t.Clash? then Clash else Idle }

  function NextStory(s: Story, e: WireEvent, cid: nat): Story {
    if e.cid != cid then s
    else match e
      case Wrote(_, k, _, ty, _) =>
        if ty.Req? then s.(req := Start(s.req, k))
        else if ty.Ind? then s.(ind := Start(s.ind, k))
        else if ty.Rsp? then s.(given := s.given + 1)
        else s
      case Ended(_, k, ty, how) =>
        if ty.Ind? then s.(ind := Stop(s.ind, k)) else s.(req := Stop(s.req, k), retries := CountRetry(s.retries, how))
      case SecuritySet(_) => s.(retries := 0)
      case Delivered(_, opcode) => if OpTypeOf(opcode).Req? then s.(taken := s.taken + 1) else s
      case Closed(_) => s.(req := Reset(s.req), ind := Reset(s.ind))
      case _ => s
  }

  function StoryOf(wire: seq<WireEvent>, cid: nat): Story {
    if wire == [] then BLANK
    else NextStory(StoryOf(wire[..|wire| - 1], cid), wire[|wire| - 1], cid)
  }

  lemma StorySnoc(wire: seq<WireEvent>, e: WireEvent)
    ensures forall cid: nat {:trigger StoryOf(wire + [e], cid)} ::
              StoryOf(wire + [e], cid) == NextStory(StoryOf(wire, cid), e, cid)
  {
    assert (wire + [e])[..|wire|] == wire;
  }

  function TurnOf(o: Option<Op>): Turn { match o case None => Idle case Some(op) => Busy(op.serial) }

  ghost predicate Fits(s: Story, c: Chan) {
    && s.req == TurnOf(c.pendingReq)
    && s.ind == TurnOf(c.pendingInd)
    && s.taken <= s.given + (if c.inReq then 1 else 0)
    && s.retries <= Rank(Level(c))
  }

  ghost predicate Orderly(s: Story) { !s.req.Clash? && !s.ind.Clash? && s.taken <= s.given + 1 && s.retries <= 3 }

  // Every channel, attached or closed, has an orderly history that agrees with its present state.
  ghost predicate Talk(a: Att) {
    && (forall cid: nat :: Orderly(StoryOf(a.wire, cid)))
    && (forall i :: 0 <= i < |a.chans| ==> Fits(StoryOf(a.wire, a.chans[i].cid), a.chans[i]))
    && (forall cid: nat :: cid >= a.nextCid ==> StoryOf(a.wire, cid) == BLANK)
  }

  lemma TalkQuiet(a: Att, b: Att)
    requires Talk(a) && Quiet(a, b)
    ensures Talk(b)
  {
    forall i | 0 <= i < |b.chans| ensures Fits(StoryOf(b.wire, b.chans[i].cid), b.chans[i]) {
      assert Still(a.chans[i], b.chans[i]);
      assert Fits(StoryOf(a.wire, a.chans[i].cid), a.chans[i]);
    }
  }

  // One event on channel i, which ends up fitting its history.
  lemma TalkStep(a: Att, b: Att, i: nat, e: WireEvent)
    requires Talk(a) && Places(a) && i < |a.chans|
    requires |b.chans| == |a.chans| && b.nextCid == a.nextCid && b.wire == a.wire + [e]
    requires forall k :: 0 <= k < |a.chans| && k != i ==> b.chans[k] == a.chans[k]
    requires e.cid == a.chans[i].cid == b.chans[i].cid
    requires Orderly(NextStory(StoryOf(a.wire, e.cid), e, e.cid))
    requires Fits(NextStory(StoryOf(a.wire, e.cid), e, e.cid), b.chans[i])
    ensures Talk(b)
  {
    StorySnoc(a.wire, e);
    forall k | 0 <= k < |b.chans| ensures Fits(StoryOf(b.wire, b.chans[k].cid), b.chans[k]) {
      if k != i {
        assert a.chans[k].cid != a.chans[i].cid;
        assert Fits(StoryOf(a.wire, a.chans[k].cid), a.chans[k]);
      }
    }
    assert ChanOk(a.chans[i], a);
  }

  // ---- Event-loop steps ----------------------------------------------------------------------

  ghost predicate Kept(a: Att) { Places(a) && Talk(a) }

  lemma QuietCalm(a: Att, b: Att)
    requires Quiet(a, b)
    ensures Calm(a, b)
  {
  }

  lemma CalmTrans(a: Att, b: Att, c: Att)
    requires Calm(a, b) && Calm(b, c)
    ensures Calm(a, c)
  {
  }

  lemma KeptCalmRefl(a: Att)
    ensures Calm(a, a)
  {
  }

  lemma PlacesSetSecurity(a: Att, level: int, setOk: bool)
    requires Places(a)
    ensures Places(DoSetSecurity(a, level, setOk)) && Calm(a, DoSetSecurity(a, level, setOk))
  {
    hide OpOk;
  }

  lemma KeepSetSecurity(a: Att, level: int, setOk: bool)
    requires Kept(a)
    ensures Kept(DoSetSecurity(a, level, setOk)) && Calm(a, DoSetSecurity(a, level, setOk))
  {
    hide Places, Calm, OpTypeOf, Rank;
    PlacesSetSecurity(a, level, setOk);
    if a.chans != [] {
      var t := |a.chans| - 1;
      var c := a.chans[t];
      assert Fits(StoryOf(a.wire, c.cid), c) && Orderly(StoryOf(a.wire, c.cid));
      if level >= SEC_AUTO && level <= SEC_HIGH && SetChanSecurity(c, level, setOk).Some? {
        TalkStep(a, DoSetSecurity(a, level, setOk), t, SecuritySet(c.cid));
      }
    }
  }

  lemma KeptCall(a: Att, call: Call)
    requires Kept(a) && PlainCall(call)
    ensures Kept(DoCall(a, call)) && Calm(a, DoCall(a, call))
  {
    hide Places, Talk, Quiet, Calm, DoCancelAll, DoSend, DoChanSend, DoCancel, DoSetMtu, DoSetSecurity;
    if call.SetSecurity? {
      KeepSetSecurity(a, call.level, call.setOk);
    } else {
      KeepDoCall(a, call);
      KeptQuiet(a, DoCall(a, call));
      QuietCalm(a, DoCall(a, call));
    }
  }

  lemma {:induction false} KeepRunCalls(a: Att, calls: seq<Call>)
    requires Kept(a) && PlainCalls(calls)
    ensures Kept(RunCalls(a, calls)) && Calm(a, RunCalls(a, calls))
    decreases |calls|
  {
    hide DoCall, Kept, Calm;
    if calls == [] {
      KeptCalmRefl(a);
    } else {
      KeptCall(a, calls[0]);
      KeepRunCalls(DoCall(a, calls[0]), calls[1..]);
      CalmTrans(a, DoCall(a, calls[0]), RunCalls(a, calls));
    }
  }

  lemma KeepCallAndRun(a: Att, op: Op, rsp: byte, data: seq<byte>, during: seq<Call>)
    requires Kept(a) && PlainCalls(during)
    ensures var b := CallAndRun(a, op, rsp, data, during); Kept(b) && Calm(a, b)
  {
    hide RunCalls, Calm, Quiet, Places, Talk;
    var b := CallOp(a, op, rsp, data);
    KeepCall(a, op, rsp, data);
    KeptQuiet(a, b);
    QuietCalm(a, b);
    KeepRunCalls(b, if op.callback then during else []);
    CalmTrans(a, b, CallAndRun(a, op, rsp, data, during));
  }

  lemma KeptQuiet(a: Att, b: Att)
    requires Kept(a) && Places(b) && Quiet(a, b)
    ensures Kept(b)
  {
    TalkQuiet(a, b);
  }

  // What pick_next_send_op hands out: a request or an indication only for an empty slot.
  ghost predicate Pickable(a: Att, i: nat, op: Op)
    requires i < |a.chans|
  {
    && OpOk(op, a.mtu) && op.timer == 0
    && (op.ty.Req? || op.ty.Ind? ==> op.id != 0 && Slot(a.chans[i], op.ty).None?)
  }

  lemma KeepPick(a: Att, i: nat)
    requires Places(a) && i < |a.chans|
    ensures var (next, b) := PickNext(a, i);
            Places(b) && Quiet(a, b) && (next.Some? ==> Pickable(a, i, next.value) && Pickable(b, i, next.value))
  {
    hide OpOk;
    var c := a.chans[i];
    assert ChanOk(c, a);
    var (next, b) := PickNext(a, i);
    if next.Some? {
      PickedOk(a, i);
      if c.queue != [] {
        forall k | 0 <= k < |a.chans| ensures ChanOk(b.chans[k], b) && Still(a.chans[k], b.chans[k]) {
          assert ChanOk(a.chans[k], a);
        }
        KeepChans(a, b);
      } else {
        SharedTails(a, b);
      }
    }
  }

  // A shared queue loses its head.
  lemma SharedTails(a: Att, b: Att)
    requires Places(a)
    requires b == a.(reqQ := b.reqQ, indQ := b.indQ, writeQ := b.writeQ)
    requires b.reqQ == a.reqQ || (a.reqQ != [] && b.reqQ == a.reqQ[1..])
    requires b.indQ == a.indQ || (a.indQ != [] && b.indQ == a.indQ[1..])
    requires b.writeQ == a.writeQ || (a.writeQ != [] && b.writeQ == a.writeQ[1..])
    ensures Places(b) && Quiet(a, b)
  {
    hide OpOk;
  }

  lemma PickedOk(a: Att, i: nat)
    requires Places(a) && i < |a.chans| && PickNext(a, i).0.Some?
    ensures Pickable(a, i, PickNext(a, i).0.value) && Pickable(PickNext(a, i).1, i, PickNext(a, i).0.value)
  {
    hide OpTypeOf;
    assert ChanOk(a.chans[i], a);
  }

  lemma KeepShut(a: Att, i: nat)
    requires Kept(a) && i < |a.chans|
    ensures Kept(ShutChan(a, i))
  {
    hide OpOk;
    var c := a.chans[i];
    assert Fits(StoryOf(a.wire, c.cid), c) && Orderly(StoryOf(a.wire, c.cid));
    TalkStep(a, ShutChan(a, i), i, ShutDown(c.cid));
  }

  lemma KeepAfterWrite(a: Att, i: nat, op: Op)
    requires Kept(a) && i < |a.chans| && Pickable(a, i, op)
    ensures Kept(AfterWrite(a, i, op))
  {
    hide OpTypeOf;
    var c, b := a.chans[i], AfterWrite(a, i, op);
    assert ChanOk(c, a);
    assert Fits(StoryOf(a.wire, c.cid), c) && Orderly(StoryOf(a.wire, c.cid));
    TalkStep(a, b, i, Wrote(c.cid, op.serial, op.id, op.ty, op.pdu));
    PlacesAfterWrite(a, i, op);
  }

  lemma PlacesAfterWrite(a: Att, i: nat, op: Op)
    requires Places(a) && i < |a.chans| && Pickable(a, i, op)
    ensures Places(AfterWrite(a, i, op))
  {
    hide OpTypeOf;
    var b := AfterWrite(a, i, op);
    forall k | 0 <= k < |a.chans| ensures ChanOk(b.chans[k], b) {
      assert ChanOk(a.chans[k], a);
    }
  }

  lemma KeepWrite(a: Att, i: nat, written: int, during: seq<Call>)
    requires Kept(a) && i < |a.chans| && PlainCalls(during)
    ensures Kept(DoWrite(a, i, written, during))
  {
    hide Places, Quiet, Talk, PickNext, AfterWrite, CallAndRun;
    KeepPick(a, i);
    var (next, a1) := PickNext(a, i);
    KeptQuiet(a, a1);
    match next
    case None => KeepIdle(a, i);
    case Some(op) =>
      if written == 0 {
        KeepCallAndRun(a1, op, ERROR_RSP, [], during);
        var a2 := CallAndRun(a1, op, ERROR_RSP, [], during);
        KeepDestroy(a2, op);
        KeptQuiet(a2, DestroyOp(a2, op));
      } else {
        KeepAfterWrite(a1, i, op);
      }
  }

  lemma KeepIdle(a: Att, i: nat)
    requires Kept(a) && i < |a.chans|
    ensures Kept(a.(chans := a.chans[i := a.chans[i].(writerActive := false)]))
  {
    hide OpOk;
  }

  lemma KeepRelease(a: Att, i: nat, op: Op, ty: OpType, how: How)
    requires Kept(a) && i < |a.chans| && Slot(a.chans[i], ty).Some? && Slot(a.chans[i], ty).value.serial == op.serial
    requires !how.ByRetry?
    ensures Kept(Release(a, i, op, ty, how))
  {
    hide OpOk, Rank;
    var c := a.chans[i];
    assert Fits(StoryOf(a.wire, c.cid), c) && Orderly(StoryOf(a.wire, c.cid));
    TalkStep(a, Release(a, i, op, ty, how), i, Ended(c.cid, op.serial, ty, how));
  }

  lemma KeepFinish(a: Att, i: nat, ty: OpType, rsp: byte, data: seq<byte>, during: seq<Call>)
    requires Kept(a) && i < |a.chans| && PlainCalls(during) && Slot(a.chans[i], ty).Some?
    ensures Kept(Finish(a, i, ty, rsp, data, during))
    ensures var op := Slot(a.chans[i], ty).value;
            var entered := a.(chans := a.chans[i := WithSlot(a.chans[i], ty, Some(op.(callback := false)))]);
            Slot(CallAndRun(entered, op, rsp, data, during).chans[i], ty).Some?
  {
    hide CallAndRun, OpTypeOf, Wake, Release, Talk;
    var op := Slot(a.chans[i], ty).value;
    var entered := a.(chans := a.chans[i := WithSlot(a.chans[i], ty, Some(op.(callback := false)))]);
    KeepEnter(a, i, ty, op);
    KeepCallAndRun(entered, op, rsp, data, during);
    var a1 := CallAndRun(entered, op, rsp, data, during);
    assert SlotStill(Slot(entered.chans[i], ty), Slot(a1.chans[i], ty));
    var op1 := Slot(a1.chans[i], ty).value;
    KeepDestroy(a1, op1);
    KeptQuiet(a1, DestroyOp(a1, op1));
    KeepRelease(DestroyOp(a1, op1), i, op1, ty, ByResponse);
    var b := Release(DestroyOp(a1, op1), i, op1, ty, ByResponse);
    KeepWake(b, i);
    KeptQuiet(b, Wake(b, i));
  }

  lemma KeepEnter(a: Att, i: nat, ty: OpType, op: Op)
    requires Kept(a) && i < |a.chans| && Slot(a.chans[i], ty) == Some(op)
    ensures var b := a.(chans := a.chans[i := WithSlot(a.chans[i], ty, Some(op.(callback := false)))]);
            Kept(b) && Quiet(a, b)
  {
    var b := a.(chans := a.chans[i := WithSlot(a.chans[i], ty, Some(op.(callback := false)))]);
    hide Talk, OpTypeOf;
    forall k | 0 <= k < |a.chans| ensures ChanOk(b.chans[k], b) && Still(a.chans[k], b.chans[k]) {
      assert ChanOk(a.chans[k], a);
    }
    KeepChans(a, b);
    KeptQuiet(a, b);
  }

  // A retry uses up one step of the security budget.
  lemma RaisedRank(c: Chan, ecode: byte, env: RxEnv)
    requires ChangeSecurity(c, ecode, env).Some?
    ensures var d := ChangeSecurity(c, ecode, env).value;
            d == c.(secLevel := d.secLevel, sockLevel := d.sockLevel)
            && (c.link.Local? || env.getOk ==> Rank(Level(d)) >= Rank(Level(c)) + 1)
  {
  }

  lemma KeepRetry(a: Att, i: nat, op: Op, c: Chan, sure: bool)
    requires Kept(a) && i < |a.chans| && a.chans[i].pendingReq == Some(op)
    requires c == a.chans[i].(secLevel := c.secLevel, sockLevel := c.sockLevel)
    requires sure ==> Rank(Level(c)) >= Rank(Level(a.chans[i])) + 1
    ensures Kept(Retry(a, i, op, c, sure))
  {
    hide OpTypeOf, Rank;
    var b := Retry(a, i, op, c, sure);
    var d := a.chans[i];
    assert Fits(StoryOf(a.wire, d.cid), d) && Orderly(StoryOf(a.wire, d.cid));
    RankBound(Level(c));
    TalkStep(a, b, i, Ended(d.cid, op.serial, Req, ByRetry(sure)));
    PlacesRetry(a, i, op, c, sure);
  }

  lemma RankBound(level: int)
    ensures Rank(level) <= 3
  {
  }

  lemma PlacesRetry(a: Att, i: nat, op: Op, c: Chan, sure: bool)
    requires Places(a) && i < |a.chans| && a.chans[i].pendingReq == Some(op)
    requires c == a.chans[i].(secLevel := c.secLevel, sockLevel := c.sockLevel)
    ensures Places(Retry(a, i, op, c, sure))
  {
    hide OpTypeOf;
    var b := Retry(a, i, op, c, sure);
    forall k | 0 <= k < |a.chans| ensures ChanOk(b.chans[k], b) && b.chans[k].cid == a.chans[k].cid {
      assert ChanOk(a.chans[k], a);
    }
  }

  lemma KeepHandleRsp(a: Att, i: nat, opcode: byte, body: seq<byte>, env: RxEnv, during: seq<Call>)
    requires Kept(a) && i < |a.chans| && PlainCalls(during)
    ensures Kept(HandleRsp(a, i, opcode, body, env, during))
  {
    hide Kept, Finish, Retry, Wake, ShutChan, NamedRequest, ChangeSecurity, Rank;
    var c := a.chans[i];
    match c.pendingReq
    case None => KeepShut(a, i);
    case Some(op) =>
      var raised := if opcode == ERROR_RSP && |body| == 4 then ChangeSecurity(c, body[3], env) else None;
      if raised.Some? {
        var sure := c.link.Local? || env.getOk;
        RaisedRank(c, body[3], env);
        KeepRetry(a, i, op, raised.value, sure);
        KeepWoken(Retry(a, i, op, raised.value, sure), i);
      }
      KeepFinish(a, i, Req, opcode, body, during);
      KeepFinish(a, i, Req, ERROR_RSP, [], during);
  }

  lemma KeepWoken(a: Att, i: nat)
    requires Kept(a) && i < |a.chans|
    ensures Kept(Wake(a, i))
  {
    KeepWake(a, i);
    KeptQuiet(a, Wake(a, i));
  }

  lemma KeepDelivered(a: Att, i: nat, opcode: byte)
    requires Kept(a) && i < |a.chans|
    requires OpTypeOf(opcode).Req? ==> !a.chans[i].inReq
    ensures var c := a.chans[i];
            var a1 := if OpTypeOf(opcode).Req? then a.(chans := a.chans[i := c.(inReq := true)]) else a;
            Kept(a1.(wire := a1.wire + [Delivered(c.cid, opcode)]))
  {
    hide OpOk, Rank, OpTypeOf, StoryOf;
    var c := a.chans[i];
    var a1 := if OpTypeOf(opcode).Req? then a.(chans := a.chans[i := c.(inReq := true)]) else a;
    assert Fits(StoryOf(a.wire, c.cid), c) && Orderly(StoryOf(a.wire, c.cid));
    TalkStep(a, a1.(wire := a1.wire + [Delivered(c.cid, opcode)]), i, Delivered(c.cid, opcode));
  }

  lemma KeepHandled(a: Att, i: nat, opcode: byte)
    requires Kept(a) && i < |a.chans|
    ensures Kept(a.(wire := a.wire + [Handled(a.chans[i].cid, opcode)]))
  {
    hide OpOk, Rank, OpTypeOf, StoryOf;
    var c := a.chans[i];
    assert Fits(StoryOf(a.wire, c.cid), c) && Orderly(StoryOf(a.wire, c.cid));
    TalkStep(a, a.(wire := a.wire + [Handled(c.cid, opcode)]), i, Handled(c.cid, opcode));
  }

  lemma KeptRefs(a: Att, refs: nat)
    requires Kept(a)
    ensures Kept(a.(refs := refs))
  {
    hide OpOk, StoryOf;
  }

  // handle_notify, once the delivery is on record
  lemma KeepHandleNotify(a: Att, i: nat, opcode: byte, env: RxEnv, during: seq<Call>)
    requires i < |a.chans| && PlainCalls(during)
    requires Kept(a.(wire := a.wire + [Delivered(a.chans[i].cid, opcode)]))
    ensures Kept(HandleNotify(a, i, opcode, env, during))
  {
    hide Places, Talk, Quiet, RunCalls, DoSend, OpTypeOf;
    var a1 := a.(wire := a.wire + [Delivered(a.chans[i].cid, opcode)]);
    KeepHandled(a1, i, opcode);
    var a2 := a1.(wire := a1.wire + [Handled(a.chans[i].cid, opcode)]);
    KeepRunCalls(a2, during);
    KeptRefs(a1, a.refs + 1);
    KeepSend(a1, ERROR_RSP, [opcode, 0, 0, ECODE_REQUEST_NOT_SUPPORTED], false, false);
    KeptQuiet(a1, RespondNotSupported(a1, opcode));
  }

  lemma KeepRead(a: Att, i: nat, bytes: seq<byte>, env: RxEnv, during: seq<Call>)
    requires Kept(a) && i < |a.chans| && PlainCalls(during)
    ensures Kept(DoRead(a, i, bytes, env, during))
  {
    hide Kept, HandleRsp, HandleNotify, Finish, ShutChan, OpTypeOf;
    var c := a.chans[i];
    var pdu := if |bytes| <= c.mtu then bytes else bytes[..c.mtu];
    if |pdu| >= 1 {
      match OpTypeOf(pdu[0])
      case Rsp => KeepHandleRsp(a, i, pdu[0], pdu[1..], env, during);
      case Conf =>
        KeepShut(a, i);
        if c.pendingInd.Some? { KeepFinish(a, i, Ind, HANDLE_CONF, [], during); }
      case Req =>
        if c.inReq {
          KeepShut(a, i);
        } else {
          KeepDelivered(a, i, pdu[0]);
          KeepHandleNotify(a.(chans := a.chans[i := c.(inReq := true)]), i, pdu[0], env, during);
        }
      case _ =>
        KeepDelivered(a, i, pdu[0]);
        KeepHandleNotify(a, i, pdu[0], env, during);
    }
  }
}
