// What the engine guarantees in every reachable state, in plain terms of its two histories.

module BearerTheorems {
  import opened Wire
  import opened Opcodes
  import opened BearerSpec
  import opened BearerBooks
  import opened BearerSound
  import opened BearerTalk
  import opened BearerRuns

  // ---- Counting one operation's events -------------------------------------------------------

  datatype Tally = Tally(accepts: nat, pdu: seq<byte>, wantsCall: bool, wantsDestroy: bool, calls: nat, destroys: nat, frees: nat)

  function Tick(t: Tally, e: LifeEvent, k: nat): Tally {
    if e.serial != k then t
    else match e
      case Accepted(_, _, pdu, callback, destroy) =>
        t.(accepts := t.accepts + 1, pdu := pdu, wantsCall := callback, wantsDestroy := destroy)
      case Called(_, _, _, _) => t.(calls := t.calls + 1)
      case Destroyed(_) => t.(destroys := t.destroys + 1)
      case Freed(_) => t.(frees := t.frees + 1)
  }

  function TallyOf(life: seq<LifeEvent>, k: nat): Tally {
    if life == [] then Tally(0, [], false, false, 0, 0, 0) else Tick(TallyOf(life[..|life| - 1], k), life[|life| - 1], k)
  }

  function One(b: bool): nat { if b then 1 else 0 }

  lemma {:induction false} StageTally(life: seq<LifeEvent>, k: nat)
    requires !StageOf(life, k).Broken?
    ensures var t := TallyOf(life, k);
            match StageOf(life, k)
            case Unborn => t.accepts == t.calls == t.destroys == t.frees == 0
            case Alive(_, pdu, callback, destroy) =>
              t.accepts == 1 && t.pdu == pdu && t.frees == 0 && t.calls + One(callback) <= One(t.wantsCall)
              && t.destroys + One(destroy) == One(t.wantsDestroy)
            case Gone =>
              t.accepts == 1 && t.frees == 1 && t.calls <= One(t.wantsCall) && t.destroys == One(t.wantsDestroy)
  {
    if life != [] {
      StageTally(life[..|life| - 1], k);
    }
  }

  lemma {:induction false} BrokenStays(life: seq<LifeEvent>, n: nat, k: nat)
    requires n <= |life| && StageOf(life[..n], k).Broken?
    ensures StageOf(life, k).Broken?
    decreases |life| - n
  {
    if n < |life| {
      assert life[..n + 1][..n] == life[..n];
      BrokenStays(life, n + 1, k);
    } else {
      assert life[..n] == life;
    }
  }

  predicate Over(e: LifeEvent, k: nat) { e == Destroyed(k) || e == Freed(k) }

  // Once its destroy handler has run or it is freed, an operation stays silent.
  lemma {:induction false} SilentAfter(life: seq<LifeEvent>, i: nat, n: nat, k: nat)
    requires i < n <= |life| && Over(life[i], k) && !StageOf(life, k).Broken?
    ensures var s := StageOf(life[..n], k); s.Gone? || (s.Alive? && !s.callback)
    decreases n
  {
    assert life[..n][..n - 1] == life[..n - 1];
    if StageOf(life[..n], k).Broken? { BrokenStays(life, n, k); }
    if n > i + 1 {
      SilentAfter(life, i, n - 1, k);
    }
  }

  lemma NoCallAfter(life: seq<LifeEvent>, i: nat, j: nat, k: nat)
    requires i < j < |life| && Over(life[i], k) && !StageOf(life, k).Broken?
    ensures !(life[j].Called? && life[j].serial == k)
  {
    SilentAfter(life, i, j, k);
    assert life[..j + 1][..j] == life[..j];
    if StageOf(life[..j + 1], k).Broken? { BrokenStays(life, j + 1, k); }
  }

  lemma CalledAnswers(life: seq<LifeEvent>, j: nat)
    requires j < |life| && life[j].Called? && !StageOf(life, life[j].serial).Broken?
    ensures Answers(life[j].rsp, life[j].opcode)
    ensures var pdu := TallyOf(life[..j], life[j].serial).pdu; pdu != [] && pdu[0] == life[j].opcode
  {
    assert life[..j + 1][..j] == life[..j];
    if StageOf(life[..j + 1], life[j].serial).Broken? { BrokenStays(life, j + 1, life[j].serial); }
    StageTally(life[..j], life[j].serial);
  }

  // ---- Theorems over all runs ----------------------------------------------------------------

  ghost predicate Reachable(a: Att) {
    exists link: Link, ioMtu: u16, level: int, crypto: bool, acts: seq<Action> {:trigger Runs(link, ioMtu, level, crypto, acts, a)} ::
      PlainRun(acts) && Runs(link, ioMtu, level, crypto, acts, a)
  }

  ghost predicate Runs(link: Link, ioMtu: u16, level: int, crypto: bool, acts: seq<Action>, a: Att) {
    NewAtt(link, ioMtu, level, crypto).Some? && a == Run(NewAtt(link, ioMtu, level, crypto).value, acts)
  }

  lemma ReachableInv(a: Att)
    requires Reachable(a)
    ensures Inv(a)
  {
    var link: Link, ioMtu: u16, level: int, crypto: bool, acts: seq<Action> :|
      PlainRun(acts) && Runs(link, ioMtu, level, crypto, acts, a);
    InvNew(link, ioMtu, level, crypto);
    InvRun(NewAtt(link, ioMtu, level, crypto).value, acts);
  }

  // Conservation: an accepted operation is in exactly one place until it is freed, with the bytes it was
  // accepted with, and then nowhere.
  lemma Conservation(a: Att, k: nat)
    requires Reachable(a)
    ensures k < a.nextSerial <==> TallyOf(a.life, k).accepts == 1
    ensures Holds(Pool(a), k) <==> k < a.nextSerial && TallyOf(a.life, k).frees == 0
    ensures forall o :: o in Pool(a) ==> Pool(a)[o] == 1 && o.pdu == TallyOf(a.life, o.serial).pdu
    ensures forall o, o1 :: o in Pool(a) && o1 in Pool(a) && o.serial == o1.serial ==> o == o1
  {
    ReachableInv(a);
    assert Pool(a) + multiset{} == Pool(a);
    StageTally(a.life, k);
    if Holds(Pool(a), k) {
      var o :| o in Pool(a) && o.serial == k;
      assert OpBooked(o, LedgerOf(a));
    }
    forall o | o in Pool(a) ensures Pool(a)[o] == 1 && o.pdu == TallyOf(a.life, o.serial).pdu {
      assert OpBooked(o, LedgerOf(a));
      StageTally(a.life, o.serial);
    }
  }

  // Exactly-once completion.
  lemma HandlersRunOnce(a: Att, k: nat)
    requires Reachable(a)
    ensures var t := TallyOf(a.life, k);
            t.calls <= One(t.wantsCall) && t.destroys <= One(t.wantsDestroy) && t.frees <= 1
            && (t.frees == 1 ==> t.destroys == One(t.wantsDestroy))
    ensures forall i, j :: 0 <= i < j < |a.life| && Over(a.life[i], k) ==> !(a.life[j].Called? && a.life[j].serial == k)
  {
    ReachableInv(a);
    StageTally(a.life, k);
    forall i, j | 0 <= i < j < |a.life| && Over(a.life[i], k) ensures !(a.life[j].Called? && a.life[j].serial == k) {
      NoCallAfter(a.life, i, j, k);
    }
  }

  // A callback is told an error, the response to the request it was accepted with or the confirmation of
  // that indication.
  lemma CallbacksGetTheirAnswer(a: Att, j: nat)
    requires Reachable(a) && j < |a.life| && a.life[j].Called?
    ensures var pdu := TallyOf(a.life[..j], a.life[j].serial).pdu; pdu != [] && Answers(a.life[j].rsp, pdu[0])
  {
    ReachableInv(a);
    assert !StageOf(a.life, a.life[j].serial).Broken?;
    CalledAnswers(a.life, j);
  }

  lemma {:induction false} FreeChansQueues(a: Att)
    ensures var b := FreeChans(a); b.reqQ == a.reqQ && b.indQ == a.indQ && b.writeQ == a.writeQ && b.nextSerial == a.nextSerial
    decreases |a.chans|
  {
    if a.chans != [] {
      var c, a0 := a.chans[0], a.(chans := a.chans[1..]);
      DestroyOpsFrame(DestroySlot(DestroySlot(a0, c.pendingReq), c.pendingInd), c.queue);
      FreeChansQueues(FreeChan(a0, c));
    }
  }

  lemma {:induction false} DestroyOpsFrame(a: Att, ops: seq<Op>)
    ensures var b := DestroyOps(a, ops);
            && b.reqQ == a.reqQ && b.indQ == a.indQ && b.writeQ == a.writeQ && b.nextSerial == a.nextSerial
            && b.wire == a.wire && b.mtu == a.mtu
    decreases |ops|
  {
    if ops != [] { DestroyOpsFrame(DestroyOp(a, ops[0]), ops[1..]); }
  }

  lemma {:induction false} StripFromFrame(a: Att, i: nat)
    requires i <= |a.chans|
    ensures var b := StripFrom(a, i); b.reqQ == a.reqQ && b.indQ == a.indQ && b.writeQ == a.writeQ && b.nextSerial == a.nextSerial
    decreases |a.chans| - i
  {
    if i < |a.chans| { StripFromFrame(StripSlot(StripSlot(a, i, Req), i, Ind), i + 1); }
  }

  lemma CloseEmpties(a: Att)
    ensures Pool(DoClose(a)) == multiset{} && DoClose(a).nextSerial == a.nextSerial
  {
    var a0 := a.(notify := []);
    DestroyOpsFrame(a0.(reqQ := []), a0.reqQ);
    var a1 := DestroyOps(a0.(reqQ := []), a0.reqQ);
    DestroyOpsFrame(a1.(indQ := []), a1.indQ);
    var a2 := DestroyOps(a1.(indQ := []), a1.indQ);
    DestroyOpsFrame(a2.(writeQ := []), a2.writeQ);
    StripFromFrame(DestroyQueues(a0), 0);
    FreeChansQueues(DoCancelAll(a0));
    assert Pools(DoClose(a).chans) == [];
  }

  // Teardown: every operation ever accepted is freed exactly once and its destroy handler, if it
  // had one, has run exactly once.
  lemma TeardownCompletes(a: Att, k: nat)
    requires Reachable(a) && k < a.nextSerial
    ensures var t := TallyOf(DoClose(a).life, k); t.frees == 1 && t.destroys == One(t.wantsDestroy) && t.calls <= One(t.wantsCall)
  {
    ReachableInv(a);
    InvClose(a);
    CloseEmpties(a);
    AllFreed(DoClose(a), k);
  }

  // The last reference: whoever drops it frees the bearer, with everything on it.
  lemma LastUnrefCompletes(a: Att, k: nat)
    requires Reachable(a) && a.refs == 1 && k < a.nextSerial
    ensures var t := TallyOf(Step(a, Unref).life, k); t.frees == 1 && t.destroys == One(t.wantsDestroy) && t.calls <= One(t.wantsCall)
  {
    hide Sound, Kept, DoClose, Pool, TallyOf;
    var a0 := a.(refs := 0);
    ReachableInv(a);
    InvRefs(a, 0);
    InvClose(a0);
    CloseEmpties(a0);
    UnrefTwo(a);
    AllFreed(DoClose(a0), k);
  }

  // ---- References ----------------------------------------------------------------------------

  // A PDU that can_read_data hands to handle_notify.
  predicate Noticed(c: Chan, pdu: seq<byte>) {
    pdu != [] && !OpTypeOf(pdu[0]).Rsp? && !OpTypeOf(pdu[0]).Conf? && !(OpTypeOf(pdu[0]).Req? && c.inReq)
  }

  // A signed PDU reaches a handler, and its signature does not check out.
  predicate Forged(a: Att, act: Action) {
    && act.Received? && act.i < |a.chans|
    && var c := a.chans[act.i];
       var pdu := if |act.bytes| <= c.mtu then act.bytes else act.bytes[..c.mtu];
       Noticed(c, pdu) && HasHandler(a.notify, pdu[0]) && Signed(pdu[0]) && a.crypto && !act.env.signedOk
  }

  function RefChange(a: Att, act: Action): int {
    if act.Ref? then 1 else if act.Unref? then -1 else if Forged(a, act) then 1 else 0
  }

  lemma RefsStep(a: Att, act: Action)
    requires a.refs > 0
    ensures Step(a, act).refs == a.refs + RefChange(a, act)
  {
    hide DoCall, DoWrite, DoTimeout, DoDisconnect, DoAttach, DoClose, HandleRsp, HandleConf, OpTypeOf, HasHandler, RunCalls, RespondNotSupported;
  }

  // The references the owners of the bearer took and dropped, and the failed signature checks.
  function Owned(acts: seq<Action>): int {
    if acts == [] then 0 else (if acts[0].Ref? then 1 else if acts[0].Unref? then -1 else 0) + Owned(acts[1..])
  }

  function Forgeries(a: Att, acts: seq<Action>): nat
    decreases |acts|
  {
    if acts == [] then 0 else (if Forged(a, acts[0]) then 1 else 0) + Forgeries(Step(a, acts[0]), acts[1..])
  }

  ghost predicate StaysReferenced(a: Att, acts: seq<Action>)
    decreases |acts|
  {
    a.refs > 0 && (acts != [] ==> StaysReferenced(Step(a, acts[0]), acts[1..]))
  }

  lemma {:induction false} RefsRun(a: Att, acts: seq<Action>)
    requires StaysReferenced(a, acts)
    ensures Run(a, acts).refs == a.refs + Owned(acts) + Forgeries(a, acts)
    decreases |acts|
  {
    hide Step, OpTypeOf, HasHandler;
    if acts != [] {
      RefsStep(a, acts[0]);
      RefsRun(Step(a, acts[0]), acts[1..]);
    }
  }

  lemma UnrefTwo(b: Att)
    requires b.refs > 0
    ensures Step(b, Unref) == if b.refs == 1 then DoClose(b.(refs := 0)) else b.(refs := b.refs - 1)
  {
    hide DoClose;
  }

  // The owners' last reference frees the bearer if and only if no signature check has failed; after one
  // that did, nothing is freed, whatever was accepted.
  lemma LastReferenceGoes(link: Link, ioMtu: u16, level: int, crypto: bool, acts: seq<Action>)
    requires NewAtt(link, ioMtu, level, crypto).Some? && StaysReferenced(NewAtt(link, ioMtu, level, crypto).value, acts)
    requires Owned(acts) == 0
    ensures var a := NewAtt(link, ioMtu, level, crypto).value; var b := Run(a, acts); var c := Step(b, Unref);
            if Forgeries(a, acts) == 0 then b.refs == 1 && c == DoClose(b.(refs := 0)) else c == b.(refs := Forgeries(a, acts))
  {
    hide Run, DoClose, Forgeries, StaysReferenced, Owned;
    var a := NewAtt(link, ioMtu, level, crypto).value;
    RefsRun(a, acts);
    var b := Run(a, acts);
    UnrefTwo(b);
  }

  // A disconnection of the only channel completes every operation too, whatever the callbacks and
  // the disconnect handlers call: with no channel left, nothing is accepted any more.
  lemma DisconnectCompletes(a: Att, k: nat, each: map<nat, seq<Call>>, after: seq<Call>)
    requires Reachable(a) && |a.chans| == 1
    ensures DoDisconnect(a, 0, each, after).nextSerial == a.nextSerial
    ensures k < a.nextSerial ==>
              var t := TallyOf(DoDisconnect(a, 0, each, after).life, k);
              t.frees == 1 && t.destroys == One(t.wantsDestroy) && t.calls <= One(t.wantsCall)
  {
    ReachableInv(a);
    SoundDisconnect(a, 0, each, after);
    DisconnectEmpties(a, each, after);
    if k < a.nextSerial {
      AllFreed(DoDisconnect(a, 0, each, after), k);
    }
  }

  // Once nothing is left in the pool, every operation accepted so far has been freed.
  lemma AllFreed(b: Att, k: nat)
    requires Sound(b, multiset{}) && Pool(b) == multiset{} && k < b.nextSerial
    ensures var t := TallyOf(b.life, k); t.frees == 1 && t.destroys == One(t.wantsDestroy) && t.calls <= One(t.wantsCall)
  {
    assert Pool(b) + multiset{} == Pool(b);
    assert !Holds(Pool(b), k);
    StageTally(b.life, k);
  }

  // Without a channel a call can take operations out, never put one in.
  ghost predicate Drained(a: Att, b: Att) {
    && b.chans == [] && b.nextSerial == a.nextSerial && b.wire == a.wire && b.mtu == a.mtu
    && (a.reqQ == [] ==> b.reqQ == []) && (a.indQ == [] ==> b.indQ == []) && (a.writeQ == [] ==> b.writeQ == [])
  }

  lemma DrainCall(a: Att, call: Call)
    requires a.chans == []
    ensures Drained(a, DoCall(a, call))
  {
    match call
    case Cancel(id) => DrainCancel(a, id);
    case CancelAll =>
      hide DestroyOps;
      DestroyOpsFrame(a.(reqQ := []), a.reqQ);
      var a1 := DestroyOps(a.(reqQ := []), a.reqQ);
      DestroyOpsFrame(a1.(indQ := []), a1.indQ);
      var a2 := DestroyOps(a1.(indQ := []), a1.indQ);
      DestroyOpsFrame(a2.(writeQ := []), a2.writeQ);
    case _ =>
  }

  lemma DrainCancel(a: Att, id: nat)
    requires a.chans == []
    ensures Drained(a, DoCancel(a, id).0)
  {
    assert CancelOnChans(a, 0, id) == (a, false);
    hide CancelOnChans, Without;
  }

  lemma {:induction false} DrainCalls(a: Att, calls: seq<Call>)
    requires a.chans == []
    ensures Drained(a, RunCalls(a, calls))
    decreases |calls|
  {
    hide DoCall;
    if calls != [] {
      DrainCall(a, calls[0]);
      DrainCalls(DoCall(a, calls[0]), calls[1..]);
    }
  }

  lemma DrainDisc(a: Att, op: Op, each: map<nat, seq<Call>>)
    requires a.chans == []
    ensures Drained(a, DiscOp(a, op, each))
  {
    hide RunCalls;
    var b := CallOp(a, op, ERROR_RSP, []);
    DrainCalls(b, if op.callback then CallsOf(each, op) else []);
  }

  lemma {:induction false} DrainOps(a: Att, ops: seq<Op>, each: map<nat, seq<Call>>)
    requires a.chans == []
    ensures Drained(a, DiscOps(a, ops, each))
    decreases |ops|
  {
    hide DiscOp;
    if ops != [] {
      DrainDisc(a, ops[0], each);
      DrainOps(DiscOp(a, ops[0], each), ops[1..], each);
    }
  }

  lemma DrainQueues(a: Att, each: map<nat, seq<Call>>)
    requires a.chans == []
    ensures var b := DiscQueues(a, each); Drained(a, b) && b.reqQ == [] && b.indQ == [] && b.writeQ == []
  {
    hide DiscOps;
    DrainOps(a.(reqQ := []), a.reqQ, each);
    var a1 := DiscOps(a.(reqQ := []), a.reqQ, each);
    DrainOps(a1.(indQ := []), a1.indQ, each);
    var a2 := DiscOps(a1.(indQ := []), a1.indQ, each);
    DrainOps(a2.(writeQ := []), a2.writeQ, each);
  }

  lemma EmptyPool(a: Att)
    requires a.chans == [] && a.reqQ == [] && a.indQ == [] && a.writeQ == []
    ensures Pool(a) == multiset{}
  {
    assert Pools(a.chans) == [];
  }

  // What is left after the only channel is gone.
  lemma DisconnectDrains(a: Att, each: map<nat, seq<Call>>, after: seq<Call>)
    requires |a.chans| == 1
    ensures var b := DoDisconnect(a, 0, each, after);
            && b.chans == [] && b.reqQ == [] && b.indQ == [] && b.writeQ == [] && b.mtu == a.mtu
            && b.nextSerial == a.nextSerial && b.wire == a.wire + [Closed(a.chans[0].cid)]
  {
    hide DiscQueues, DestroyOps, DiscOp, RunCalls;
    var c := a.chans[0];
    var a0 := a.(chans := a.chans[..0] + a.chans[1..], wire := a.wire + [Closed(c.cid)]);
    DrainQueues(a0, each);
    var a3 := DiscQueues(a0, each);
    DrainSlot(a3, c.pendingReq, each);
    var a4 := DiscSlot(a3, c.pendingReq, each);
    DrainSlot(a4, c.pendingInd, each);
    var a5 := DiscSlot(a4, c.pendingInd, each);
    DestroyOpsFrame(a5, c.queue);
    DrainCalls(DestroyOps(a5, c.queue), after);
  }

  lemma DrainSlot(a: Att, o: Option<Op>, each: map<nat, seq<Call>>)
    requires a.chans == []
    ensures Drained(a, DiscSlot(a, o, each))
  {
    hide DiscOp;
    if o.Some? { DrainDisc(a, o.value, each); }
  }

  lemma DisconnectEmpties(a: Att, each: map<nat, seq<Call>>, after: seq<Call>)
    requires |a.chans| == 1
    ensures Pool(DoDisconnect(a, 0, each, after)) == multiset{} && DoDisconnect(a, 0, each, after).nextSerial == a.nextSerial
  {
    hide DoDisconnect, Pool;
    DisconnectDrains(a, each, after);
    EmptyPool(DoDisconnect(a, 0, each, after));
  }

  // A run that loses a reference: one forged command, and the only owner's bt_att_unref frees nothing.
  lemma ForgedCommandLeaks(ioMtu: u16, level: int)
    ensures var a := NewAtt(Le, ioMtu, level, true); var acts := LeakingActs();
            && a.Some? && PlainRun(acts + [Unref]) && Owned(acts) == 0 && StaysReferenced(a.value, acts)
            && Forgeries(a.value, acts) == 1 && Step(Run(a.value, acts), Unref).refs == 1
  {
    var a := NewAtt(Le, ioMtu, level, true).value;
    var s, t := LeakingActs()[0], LeakingActs()[1];
    var a1 := Step(a, s);
    assert a1.notify == [SIGNED_WRITE_CMD];
    assert OpcodeMatch(a1.notify[0], SIGNED_WRITE_CMD);
    assert Forged(a1, t) && !Forged(a, s);
    assert LeakingActs() == [s, t] && [s, t][1..] == [t] && [t][1..] == [];
    RefsStep(a, s);
    RefsStep(a1, t);
    hide Step;
    assert StaysReferenced(Step(a1, t), []);
    assert StaysReferenced(a1, [t]);
    assert Owned([t]) == 0;
    assert Forgeries(Step(a1, t), []) == 0;
    assert Forgeries(a1, [t]) == 1;
    LastReferenceGoes(Le, ioMtu, level, true, [s, t]);
  }

  function LeakingActs(): seq<Action> {
    [Register(SIGNED_WRITE_CMD), Received(0, [SIGNED_WRITE_CMD], RxEnv(true, true, false), [])]
  }

  // ---- Calls that say true and do nothing ----------------------------------------------------

  // The original channel has this MTU, or this security level.
  predicate HasMtu(a: Att, mtu: u16) { a.chans != [] && a.chans[|a.chans| - 1].mtu == mtu }

  predicate HasLevel(a: Att, level: int) { a.chans != [] && Level(a.chans[|a.chans| - 1]) == level }

  // bt_att_set_mtu says true without setting the MTU if and only if there is no channel and the MTU is
  // one it takes: the error number it returns is read as true.
  lemma SetMtuFalseSuccess(a: Att, mtu: u16)
    ensures MtuTaken(a, mtu) && !HasMtu(DoSetMtu(a, mtu), mtu) <==> a.chans == [] && mtu >= DEFAULT_LE_MTU
    ensures a.chans == [] ==> DoSetMtu(a, mtu) == a
  {
  }

  // The same of bt_att_set_security.
  lemma SetSecurityFalseSuccess(a: Att, level: int, setOk: bool)
    ensures SecurityTaken(a, level, setOk) && !HasLevel(DoSetSecurity(a, level, setOk), level)
            <==> a.chans == [] && SEC_AUTO <= level <= SEC_HIGH
    ensures a.chans == [] ==> DoSetSecurity(a, level, setOk) == a
  {
  }

  // A bearer without a channel: the only one went down.
  lemma ChannellessFalseSuccess(ioMtu: u16, level: int, crypto: bool, mtu: u16, wanted: int)
    requires mtu >= DEFAULT_LE_MTU && SEC_AUTO <= wanted <= SEC_HIGH
    ensures var a := NewAtt(Le, ioMtu, level, crypto); var acts := [Disconnected(0, map[], [])];
            && a.Some? && PlainRun(acts)
            && var b := Run(a.value, acts);
               && Reachable(b) && b.chans == []
               && MtuTaken(b, mtu) && !HasMtu(DoSetMtu(b, mtu), mtu)
               && SecurityTaken(b, wanted, true) && !HasLevel(DoSetSecurity(b, wanted, true), wanted)
  {
    var a, acts := NewAtt(Le, ioMtu, level, crypto).value, [Disconnected(0, map[], [])];
    DisconnectDrains(a, map[], []);
    hide DoDisconnect;
    RunFirst(a, acts[0], []);
    assert [acts[0]] + [] == acts;
    var b := Run(a, acts);
    assert b == DoDisconnect(a, 0, map[], []);
    assert Runs(Le, ioMtu, level, crypto, acts, b);
    SetMtuFalseSuccess(b, mtu);
    SetSecurityFalseSuccess(b, wanted, true);
  }

  // ---- The sequential protocol ---------------------------------------------------------------

  function TurnAt(s: Story, ty: OpType): Turn { if ty.Ind? then s.ind else s.req }

  lemma {:induction false} ClashStays(wire: seq<WireEvent>, n: nat, cid: nat, ty: OpType)
    requires n <= |wire| && TurnAt(StoryOf(wire[..n], cid), ty).Clash?
    ensures TurnAt(StoryOf(wire, cid), ty).Clash?
    decreases |wire| - n
  {
    if n < |wire| {
      assert wire[..n + 1][..n] == wire[..n];
      ClashStays(wire, n + 1, cid, ty);
    } else {
      assert wire[..n] == wire;
    }
  }

  predicate Ends(e: WireEvent, cid: nat, k: nat, ty: OpType) {
    e.cid == cid && (e.Closed? || (e.Ended? && e.serial == k && e.ty.Ind? == ty.Ind?))
  }

  predicate Writes(e: WireEvent, cid: nat, ty: OpType) { e.Wrote? && e.cid == cid && e.ty == ty }

  lemma {:induction false} BusyUntilEnded(wire: seq<WireEvent>, i: nat, n: nat, cid: nat, ty: OpType)
    requires i < n <= |wire| && (ty == Req || ty == Ind) && Writes(wire[i], cid, ty)
    requires !TurnAt(StoryOf(wire, cid), ty).Clash?
    requires forall m :: i < m < n ==> !Ends(wire[m], cid, wire[i].serial, ty)
    ensures TurnAt(StoryOf(wire[..n], cid), ty) == Busy(wire[i].serial)
    decreases n
  {
    assert wire[..n][..n - 1] == wire[..n - 1];
    if TurnAt(StoryOf(wire[..n], cid), ty).Clash? { ClashStays(wire, n, cid, ty); }
    if n > i + 1 {
      BusyUntilEnded(wire, i, n - 1, cid, ty);
    }
  }

  lemma ReachableOrderly(a: Att, cid: nat)
    requires Reachable(a)
    ensures Orderly(StoryOf(a.wire, cid))
  {
    ReachableInv(a);
  }

  // Sequential protocol: between two requests (or two indications) written on one channel, the
  // first was answered, timed out, given back for a retry, or the channel closed.
  lemma OneOutstanding(a: Att, i: nat, j: nat, cid: nat, ty: OpType)
    requires Reachable(a) && (ty == Req || ty == Ind)
    requires i < j < |a.wire| && Writes(a.wire[i], cid, ty) && Writes(a.wire[j], cid, ty)
    ensures exists m :: i < m < j && Ends(a.wire[m], cid, a.wire[i].serial, ty)
  {
    hide Reachable;
    ReachableOrderly(a, cid);
    var w := a.wire;
    if forall m :: i < m < j ==> !Ends(w[m], cid, w[i].serial, ty) {
      BusyUntilEnded(w, i, j, cid, ty);
      assert w[..j + 1][..j] == w[..j];
      ClashStays(w, j + 1, cid, ty);
    }
  }

  // Why dedicated channel queues must hold no request and no indication: pick_next_send_op does not
  // look at the pending slots before popping them.  Exactly a request written from there while one is
  // pending, or an indication while one is, overlaps another.
  lemma ChannelQueueSkipsTheCheck(a: Att, i: nat)
    requires i < |a.chans| && a.chans[i].queue != [] && Fits(StoryOf(a.wire, a.chans[i].cid), a.chans[i])
    ensures var b := DoWrite(a, i, 1, []); var c := a.chans[i]; var op := c.queue[0];
            && (StoryOf(b.wire, c.cid).req.Clash? <==> op.ty.Req? && c.pendingReq.Some?)
            && (StoryOf(b.wire, c.cid).ind.Clash? <==> op.ty.Ind? && c.pendingInd.Some?)
  {
    var op := a.chans[i].queue[0];
    OwnWritten(a, i);
    hide DoWrite, StoryOf, Rank;
    StorySnoc(a.wire, Wrote(a.chans[i].cid, op.serial, op.id, op.ty, op.pdu));
  }

  lemma OwnWritten(a: Att, i: nat)
    requires i < |a.chans| && a.chans[i].queue != []
    ensures var op := a.chans[i].queue[0];
            DoWrite(a, i, 1, []).wire == a.wire + [Wrote(a.chans[i].cid, op.serial, op.id, op.ty, op.pdu)]
  {
  }

  // A run that does it: a request (or indication) is sent and written, a second one is queued on the
  // channel and written too, and nothing has ended in between.
  lemma OverlappingRun(ioMtu: u16, level: int, opcode: byte)
    requires OpTypeOf(opcode).Req? || OpTypeOf(opcode).Ind?
    ensures var a := NewAtt(Le, ioMtu, level, false); var acts := OverlapActs(opcode); var ty := OpTypeOf(opcode);
            && a.Some? && !PlainRun(acts)
            && var b := Run(a.value, acts);
               && b.wire == [Wrote(0, 0, 1, ty, [opcode]), Wrote(0, 1, 0, ty, [opcode])]
               && TurnAt(StoryOf(b.wire, 0), ty).Clash?
  {
    var a, ty, acts := NewAtt(Le, ioMtu, level, false).value, OpTypeOf(opcode), OverlapActs(opcode);
    var op, op1 := Op(0, 1, 0, ty, opcode, [opcode], true, true), Op(1, 0, 0, ty, opcode, [opcode], true, true);
    var a1, a2, a3 := Step(a, acts[0]), Step(Step(a, acts[0]), acts[1]), Step(Step(Step(a, acts[0]), acts[1]), acts[2]);
    var a4 := Step(a3, acts[3]);
    OverlapSent(a, opcode, op);
    OverlapWritten(a1, op);
    OverlapQueued(a2, opcode, op, op1);
    OverlapAgain(a3, op1);
    assert !Plain(acts[2]);
    RunFour(a, acts[0], acts[1], acts[2], acts[3]);
    assert acts == [acts[0], acts[1], acts[2], acts[3]];
    hide Step, Run;
    var w := Wrote(0, 0, 1, ty, [opcode]);
    StorySnoc([], w);
    StorySnoc([w], Wrote(0, 1, 0, ty, [opcode]));
    assert [] + [w] == [w] && [w] + [Wrote(0, 1, 0, ty, [opcode])] == [w, Wrote(0, 1, 0, ty, [opcode])];
  }

  function OverlapActs(opcode: byte): seq<Action> {
    [Api(Send(opcode, [], true, true)), WriterReady(0, 1, []), Api(ChanSend(0, opcode, [], true, true)), WriterReady(0, 1, [])]
  }

  // An idle LE bearer with one channel, and one whose channel is ready to write.
  ghost predicate OneChan(a: Att, wire: seq<WireEvent>) {
    |a.chans| == 1 && a.mtu >= DEFAULT_LE_MTU && a.chans[0].mtu >= DEFAULT_LE_MTU && a.chans[0].cid == 0 && a.wire == wire
  }

  lemma OverlapSent(a: Att, opcode: byte, op: Op)
    requires OneChan(a, []) && a.chans[0].queue == [] && a.reqQ == [] && a.indQ == [] && a.writeQ == [] && a.nextSerial == 0 && a.nextSendId == 0
    requires a.chans[0].pendingReq.None? && a.chans[0].pendingInd.None?
    requires (OpTypeOf(opcode).Req? || OpTypeOf(opcode).Ind?) && op == Op(0, 1, 0, OpTypeOf(opcode), opcode, [opcode], true, true)
    ensures var b := Step(a, Api(Send(opcode, [], true, true)));
            && OneChan(b, []) && b.nextSerial == 1 && b.chans[0].writerActive && b.chans[0].queue == [] && b.writeQ == []
            && b.chans[0].pendingReq.None? && b.chans[0].pendingInd.None?
            && b.reqQ == (if op.ty.Req? then [op] else []) && b.indQ == (if op.ty.Ind? then [op] else [])
  {
    hide OpTypeOf;
    assert [opcode] + [] == [opcode];
  }

  lemma OverlapWritten(a: Att, op: Op)
    requires OneChan(a, []) && a.nextSerial == 1 && a.chans[0].writerActive && a.chans[0].queue == [] && a.writeQ == []
    requires a.chans[0].pendingReq.None? && a.chans[0].pendingInd.None? && (op.ty.Req? || op.ty.Ind?) && |op.pdu| == 1
    requires a.reqQ == (if op.ty.Req? then [op] else []) && a.indQ == (if op.ty.Ind? then [op] else [])
    ensures var b := Step(a, WriterReady(0, 1, []));
            && OneChan(b, [Wrote(0, op.serial, op.id, op.ty, op.pdu)]) && b.nextSerial == 1 && b.chans[0].queue == []
            && b.chans[0].writerActive
  {
  }

  lemma OverlapQueued(a: Att, opcode: byte, op: Op, op1: Op)
    requires OneChan(a, [Wrote(0, op.serial, op.id, op.ty, op.pdu)]) && a.nextSerial == 1 && a.chans[0].queue == []
    requires a.chans[0].writerActive
    requires (OpTypeOf(opcode).Req? || OpTypeOf(opcode).Ind?) && op1 == Op(1, 0, 0, OpTypeOf(opcode), opcode, [opcode], true, true)
    ensures var b := Step(a, Api(ChanSend(0, opcode, [], true, true)));
            OneChan(b, a.wire) && b.chans[0].queue == [op1] && b.chans[0].writerActive
  {
    hide OpTypeOf;
    assert [opcode] + [] == [opcode];
  }

  lemma OverlapAgain(a: Att, op1: Op)
    requires OneChan(a, a.wire) && a.chans[0].queue == [op1] && a.chans[0].writerActive && (op1.ty.Req? || op1.ty.Ind?)
    ensures Step(a, WriterReady(0, 1, [])).wire == a.wire + [Wrote(0, op1.serial, op1.id, op1.ty, op1.pdu)]
  {
  }

  lemma RunFirst(a: Att, act: Action, rest: seq<Action>)
    ensures Run(a, [act] + rest) == Run(Step(a, act), rest)
  {
    hide Step;
    assert ([act] + rest)[1..] == rest;
  }

  lemma RunEnd(a: Att)
    ensures Run(a, []) == a
  {
  }

  lemma RunFour(a: Att, r: Action, s: Action, t: Action, u: Action)
    ensures Run(a, [r, s, t, u]) == Step(Step(Step(Step(a, r), s), t), u)
  {
    var a1 := Step(a, r);
    var a2 := Step(a1, s);
    var a3 := Step(a2, t);
    RunFirst(a, r, [s, t, u]);
    RunFirst(a1, s, [t, u]);
    RunFirst(a2, t, [u]);
    RunFirst(a3, u, []);
    hide Run, Step;
    assert [r] + [s, t, u] == [r, s, t, u] && [s] + [t, u] == [s, t, u] && [t] + [u] == [t, u] && [u] + [] == [u];
    RunEnd(Step(a3, u));
  }

  // Incoming requests are served one at a time: at every point of every run, the requests taken
  // from a channel exceed the responses written to it by at most one.
  lemma {:induction false} TakenOneAtATime(a: Att, cid: nat)
    requires Reachable(a)
    ensures StoryOf(a.wire, cid).taken <= StoryOf(a.wire, cid).given + 1
    ensures forall i :: 0 <= i < |a.chans| && a.chans[i].cid == cid && !a.chans[i].inReq ==>
              StoryOf(a.wire, cid).taken <= StoryOf(a.wire, cid).given
  {
    ReachableInv(a);
    assert Orderly(StoryOf(a.wire, cid));
    forall i | 0 <= i < |a.chans| && a.chans[i].cid == cid && !a.chans[i].inReq
      ensures StoryOf(a.wire, cid).taken <= StoryOf(a.wire, cid).given {
      assert Fits(StoryOf(a.wire, a.chans[i].cid), a.chans[i]);
    }
  }

  // A second request before the response shuts the channel down and is not delivered.
  lemma SecondRequestShutsDown(a: Att, i: nat, bytes: seq<byte>, env: RxEnv, during: seq<Call>)
    requires i < |a.chans| && a.chans[i].inReq && 1 <= |bytes| <= a.chans[i].mtu && OpTypeOf(bytes[0]).Req?
    ensures var b := DoRead(a, i, bytes, env, during);
            b.chans[i].shut && b.wire == a.wire + [ShutDown(a.chans[i].cid)] && b.life == a.life && Pool(b) == Pool(a)
  {
    PoolStill(a, i, a.chans[i].(shut := true));
    PoolSameParts(SetChan(a, i, a.chans[i].(shut := true)), ShutChan(a, i));
  }

  // A request no handler takes is answered by exactly one Request Not Supported error.
  lemma UnhandledRequestIsRefused(a: Att, i: nat, bytes: seq<byte>, env: RxEnv, during: seq<Call>)
    requires i < |a.chans| && !a.chans[i].inReq && 1 <= |bytes| <= a.chans[i].mtu && OpTypeOf(bytes[0]).Req?
    requires !HasHandler(a.notify, bytes[0]) && a.mtu >= DEFAULT_LE_MTU
    ensures var b := DoRead(a, i, bytes, env, during);
            |b.writeQ| == |a.writeQ| + 1 && b.writeQ[..|a.writeQ|] == a.writeQ
            && b.writeQ[|a.writeQ|].pdu == [ERROR_RSP, bytes[0], 0, 0, ECODE_REQUEST_NOT_SUPPORTED]
            && b.reqQ == a.reqQ && b.indQ == a.indQ && b.chans[i].inReq
            && b.wire == a.wire + [Delivered(a.chans[i].cid, bytes[0])]
  {
  }

  // ---- Security retries ----------------------------------------------------------------------

  // At most three retries on a channel between explicit security changes.
  lemma RetriesBounded(a: Att, cid: nat)
    requires Reachable(a)
    ensures StoryOf(a.wire, cid).retries <= 3
  {
    ReachableInv(a);
    assert Orderly(StoryOf(a.wire, cid));
  }

  // A retry raises the level and puts the same operation, handlers and all, at the head of the
  // request queue; no handler runs.
  lemma RetryIsLossless(a: Att, i: nat, body: seq<byte>, env: RxEnv, during: seq<Call>)
    requires i < |a.chans| && a.chans[i].pendingReq.Some? && |body| == 4
    requires ChangeSecurity(a.chans[i], body[3], env).Some?
    ensures var b, op := HandleRsp(a, i, ERROR_RSP, body, env, during), a.chans[i].pendingReq.value;
            b.reqQ == [op.(timer := 0)] + a.reqQ && b.chans[i].pendingReq.None? && b.life == a.life
            && b.chans[i].writerActive
    ensures var b := HandleRsp(a, i, ERROR_RSP, body, env, during);
            a.chans[i].link.Local? || env.getOk ==> Rank(Level(b.chans[i])) > Rank(Level(a.chans[i]))
  {
    RaisedRank(a.chans[i], body[3], env);
  }

  // Channels are listed newest first, so the tail is the earliest attached one left.
  lemma TailIsOldest(a: Att, i: nat)
    requires Reachable(a) && i < |a.chans|
    ensures a.chans[|a.chans| - 1].cid <= a.chans[i].cid
  {
    ReachableInv(a);
  }
}
