// The engine over whole runs: timeouts, disconnection and teardown, and the theorems about every
// reachable state.

module BearerRuns {
  import opened Wire
  import opened Opcodes
  import opened BearerSpec
  import opened BearerBooks
  import opened BearerSound
  import opened BearerPlaces
  import opened BearerTalk

  ghost predicate Inv(a: Att) { Sound(a, multiset{}) && Kept(a) }

  // ---- Timeouts ------------------------------------------------------------------------------

  lemma {:induction false} InChansPool(chans: seq<Chan>, o: Op) returns (i: nat)
    requires o in ChansPool(chans)
    ensures i < |chans| && o in ChanPool(chans[i])
  {
    var ps := Pools(chans);
    i := InSum(ps, o);
  }

  lemma {:induction false} InSum<T>(ms: seq<multiset<T>>, o: T) returns (i: nat)
    requires o in Sum(ms)
    ensures i < |ms| && o in ms[i]
    decreases |ms|
  {
    if o in ms[0] {
      i := 0;
    } else {
      i := InSum(ms[1..], o);
      i := i + 1;
    }
  }

  // An operation with a timer sits in a slot.
  lemma TimedInSlot(a: Att, o: Op) returns (i: nat, ty: OpType)
    requires Places(a) && o in Pool(a) && o.timer != 0
    ensures i < |a.chans| && (ty == Req || ty == Ind) && Slot(a.chans[i], ty) == Some(o) && o.ty == ty
  {
    hide OpOk, Sum, ChanPool;
    assert o !in a.reqQ && o !in a.indQ && o !in a.writeQ;
    assert o in ChansPool(a.chans);
    hide Pool, SharedPool, ChansPool;
    i := InChansPool(a.chans, o);
    assert ChanOk(a.chans[i], a);
    hide Places;
    ty := TimedInChan(a, a.chans[i], o);
  }

  lemma TimedInChan(a: Att, c: Chan, o: Op) returns (ty: OpType)
    requires ChanOk(c, a) && o in ChanPool(c) && o.timer != 0
    ensures (ty == Req || ty == Ind) && Slot(c, ty) == Some(o) && o.ty == ty
  {
    hide OpOk;
    assert o !in c.queue;
    ty := if c.pendingReq == Some(o) then Req else Ind;
  }

  lemma SlotInPool(a: Att, i: nat, ty: OpType, o: Op)
    requires i < |a.chans| && Slot(a.chans[i], ty) == Some(o)
    ensures o in Pool(a)
  {
    PoolSlot(a, i, ty, None);
    assert o in SlotPool(Some(o));
  }

  // Whatever timer fires, timeout_cb finds the operation that timer was armed for, on the channel
  // it was armed on: no timer outlives its operation and no other operation can be hit.
  lemma TimerHitsItsOperation(a: Att, tid: nat) returns (op: Op, i: nat, ty: OpType)
    requires Inv(a) && tid in a.timers
    ensures op.timer == tid != 0 && op in Pool(a) && (ty == Req || ty == Ind) && op.ty == ty
    ensures i == FindChan(a.chans, a.timers[tid].cid) < |a.chans|
    ensures Slot(a.chans[i], ty) == Some(op) && SlotHasId(a.chans[i], ty, a.timers[tid].opId)
    ensures ty == Ind ==> !SlotHasId(a.chans[i], Req, a.timers[tid].opId)
  {
    hide Talk, OpOk, Pool;
    var p := Pool(a);
    assert p + multiset{} == p;
    assert HoldsTimer(p, tid);
    op :| op in p && op.timer == tid;
    assert OpBooked(op, LedgerOf(a));
    var k;
    k, ty := TimedInSlot(a, op);
    assert ChanOk(a.chans[k], a);
    i := FindChan(a.chans, a.timers[tid].cid);
    assert i == k;
    if ty == Ind && SlotHasId(a.chans[i], Req, a.timers[tid].opId) {
      var other := a.chans[i].pendingReq.value;
      SlotInPool(a, i, Req, other);
      assert false;
    }
  }

  lemma SoundTimeOut(a: Att, i: nat, ty: OpType, op: Op, first: seq<Call>, during: seq<Call>)
    requires Sound(a, multiset{}) && i < |a.chans| && Slot(a.chans[i], ty) == Some(op) && op.timer != 0
    ensures Sound(TimeOut(a.(timers := a.timers - {op.timer}), i, ty, first, during), multiset{})
  {
    hide Books, Wake, RunCalls, Pool;
    var none: multiset<Op> := multiset{};
    SoundRelease(a, i, op, ty, ByTimeout, none);
    var b := Release(a, i, op, ty, ByTimeout);
    var b0 := Release(a.(timers := a.timers - {op.timer}), i, op, ty, ByTimeout);
    var op0 := op.(timer := 0);
    Assoc(Pool(b), none, multiset{op});
    BookDisarm(Pool(b) + none, LedgerOf(b), op);
    PoolSameParts(b, b0);
    Assoc(Pool(b), none, multiset{op0});
    assert LedgerOf(b0) == LedgerOf(b).(timers := DropTimer(b.timers, op.timer));
    assert Sound(b0, none + multiset{op0});
    hide Sound;
    SoundRunCalls(b0, first, none + multiset{op0});
    SoundTimedOut(RunCalls(b0, first), i, op, during);
  }

  lemma SoundTimedOut(b: Att, i: nat, op: Op, during: seq<Call>)
    requires i < |b.chans| && Sound(b, multiset{} + multiset{op.(timer := 0)})
    ensures Sound(ShutChan(DestroyOp(CallAndRun(b, op, ERROR_RSP, [], during), op.(timer := 0)), i), multiset{})
  {
    hide Sound, RunCalls, ShutChan;
    var op0 := op.(timer := 0);
    SoundCallAndRun(b, op0, ERROR_RSP, [], during, multiset{});
    var b1 := CallAndRun(b, op, ERROR_RSP, [], during);
    assert b1 == CallAndRun(b, op0, ERROR_RSP, [], during);
    SoundDestroy(b1, op0.(callback := false), multiset{});
    assert DestroyOp(b1, op0) == DestroyOp(b1, op0.(callback := false));
    SoundShut(DestroyOp(b1, op0), i, multiset{});
  }

  lemma KeepTimeOut(a: Att, i: nat, ty: OpType, first: seq<Call>, during: seq<Call>)
    requires Kept(a) && i < |a.chans| && Slot(a.chans[i], ty).Some? && PlainCalls(first) && PlainCalls(during)
    ensures Kept(TimeOut(a, i, ty, first, during))
  {
    hide Places, Talk, Quiet, CallAndRun, Release, ShutChan, RunCalls;
    var op := Slot(a.chans[i], ty).value;
    KeepRelease(a, i, op, ty, ByTimeout);
    var b := RunCalls(Release(a, i, op, ty, ByTimeout), first);
    KeepRunCalls(Release(a, i, op, ty, ByTimeout), first);
    KeepCallAndRun(b, op, ERROR_RSP, [], during);
    var b1 := CallAndRun(b, op, ERROR_RSP, [], during);
    KeepDestroy(b1, op.(timer := 0));
    KeptQuiet(b1, DestroyOp(b1, op.(timer := 0)));
    KeepShut(DestroyOp(b1, op.(timer := 0)), i);
  }

  lemma KeptFewerTimers(a: Att, tid: nat)
    requires Kept(a)
    ensures Kept(a.(timers := a.timers - {tid}))
  {
    hide OpOk;
  }

  lemma InvTimeout(a: Att, tid: nat, first: seq<Call>, during: seq<Call>)
    requires Inv(a) && PlainCalls(first) && PlainCalls(during)
    ensures Inv(DoTimeout(a, tid, first, during))
  {
    hide Sound, Kept, TimeOut;
    if tid in a.timers {
      var op, i, ty := TimerHitsItsOperation(a, tid);
      KeptFewerTimers(a, tid);
      SoundTimeOut(a, i, ty, op, first, during);
      KeepTimeOut(a.(timers := a.timers - {tid}), i, ty, first, during);
    }
  }

  // ---- Writing -------------------------------------------------------------------------------

  lemma SoundWrite(a: Att, i: nat, written: int, during: seq<Call>)
    requires Inv(a) && i < |a.chans|
    ensures Sound(DoWrite(a, i, written, during), multiset{})
  {
    hide Sound, Talk, Places, PickNext, AfterWrite, RunCalls, CallOp;
    var none: multiset<Op> := multiset{};
    SoundPick(a, i, none);
    KeepPick(a, i);
    var (next, a1) := PickNext(a, i);
    match next
    case None =>
      PoolStill(a, i, a.chans[i].(writerActive := false));
      SoundSame(a, SetChan(a, i, a.chans[i].(writerActive := false)), none);
    case Some(op) =>
      if written == 0 {
        SoundCallAndRun(a1, op, ERROR_RSP, [], during, none);
        var a2 := CallAndRun(a1, op, ERROR_RSP, [], during);
        SoundDestroy(a2, op.(callback := false), none);
        assert DestroyOp(a2, op) == DestroyOp(a2, op.(callback := false));
      } else {
        SoundAfterWrite(a1, i, op, none);
      }
  }

  // ---- Disconnection and teardown ------------------------------------------------------------

  lemma SoundDiscSlot(a: Att, o: Option<Op>, during: map<nat, seq<Call>>, hand: multiset<Op>)
    requires Sound(a, hand + SlotPool(o))
    ensures Sound(DiscSlot(a, o, during), hand)
  {
    hide Sound, DiscOp;
    if o.None? { assert hand + SlotPool(o) == hand; } else { SoundDisc(a, o.value, during, hand); }
  }

  lemma SoundDestroySlot(a: Att, o: Option<Op>, hand: multiset<Op>)
    requires Sound(a, hand + SlotPool(o))
    ensures Sound(DestroySlot(a, o), hand)
  {
    hide Books;
    if o.None? { assert hand + SlotPool(o) == hand; } else { SoundDestroy(a, o.value, hand); }
  }

  // Channel i is detached: its operations are in the hand.
  lemma SoundDetach(a: Att, b: Att, i: nat)
    requires Sound(a, multiset{}) && i < |a.chans|
    requires b.chans == a.chans[..i] + a.chans[i + 1..] && LedgerOf(b) == LedgerOf(a)
    requires b.reqQ == a.reqQ && b.indQ == a.indQ && b.writeQ == a.writeQ
    ensures Sound(b, ChanPool(a.chans[i]))
  {
    hide Books, ChanPool;
    ChansPoolAt(a.chans, i);
    assert Drop(a.chans, i) == b.chans;
    var s, r, c := SharedPool(a), ChansPool(b.chans), ChanPool(a.chans[i]);
    var none: multiset<Op> := multiset{};
    assert s + (c + r) + none == s + r + c;
  }

  lemma SoundDiscQueues(a: Att, during: map<nat, seq<Call>>, hand: multiset<Op>)
    requires Sound(a, hand)
    ensures Sound(DiscQueues(a, during), hand)
  {
    hide Sound, DiscOps;
    TakeShared(a);
    SoundTakeAll(a, a.(reqQ := []), a.reqQ, hand);
    SoundDiscOps(a.(reqQ := []), a.reqQ, during, hand);
    var a1 := DiscOps(a.(reqQ := []), a.reqQ, during);
    TakeShared(a1);
    SoundTakeAll(a1, a1.(indQ := []), a1.indQ, hand);
    SoundDiscOps(a1.(indQ := []), a1.indQ, during, hand);
    var a2 := DiscOps(a1.(indQ := []), a1.indQ, during);
    TakeShared(a2);
    SoundTakeAll(a2, a2.(writeQ := []), a2.writeQ, hand);
    SoundDiscOps(a2.(writeQ := []), a2.writeQ, during, hand);
  }

  lemma HandParts(c: Chan)
    ensures ChanPool(c) == multiset(c.queue) + SlotPool(c.pendingInd) + SlotPool(c.pendingReq)
  {
    Shift(multiset(c.queue), SlotPool(c.pendingReq), SlotPool(c.pendingInd));
  }

  lemma SoundDisconnect(a: Att, i: nat, during: map<nat, seq<Call>>, after: seq<Call>)
    requires Sound(a, multiset{}) && i < |a.chans|
    ensures Sound(DoDisconnect(a, i, during, after), multiset{})
  {
    hide Sound, DiscQueues, DiscSlot, DestroyOps, ChanPool, RunCalls;
    var c := a.chans[i];
    var a0 := a.(chans := a.chans[..i] + a.chans[i + 1..], wire := a.wire + [Closed(c.cid)]);
    SoundDetach(a, a0, i);
    SoundDiscQueues(a0, during, ChanPool(c));
    HandParts(c);
    var a3 := DiscQueues(a0, during);
    SoundDiscSlot(a3, c.pendingReq, during, multiset(c.queue) + SlotPool(c.pendingInd));
    SoundDiscSlot(DiscSlot(a3, c.pendingReq, during), c.pendingInd, during, multiset(c.queue));
    var a4 := DiscSlot(DiscSlot(a3, c.pendingReq, during), c.pendingInd, during);
    assert multiset{} + multiset(c.queue) == multiset(c.queue);
    SoundDestroyOps(a4, c.queue, multiset{});
    var a5 := DestroyOps(a4, c.queue);
    SoundRunCalls(a5, after, multiset{});
    SoundSame(RunCalls(a5, after), RunCalls(a5, after).(notify := []), multiset{});
  }

  lemma {:induction false} KeepDiscOps(a: Att, ops: seq<Op>, during: map<nat, seq<Call>>)
    requires Kept(a) && PlainMap(during)
    ensures Kept(DiscOps(a, ops, during))
    decreases |ops|
  {
    hide Kept, DiscOp, PlainMap;
    if ops != [] {
      KeepDisc(a, ops[0], during);
      KeepDiscOps(DiscOp(a, ops[0], during), ops[1..], during);
    }
  }

  lemma KeepDisc(a: Att, op: Op, during: map<nat, seq<Call>>)
    requires Kept(a) && PlainMap(during)
    ensures Kept(DiscOp(a, op, during))
  {
    hide Places, Talk, Quiet, CallAndRun;
    assert PlainCalls(CallsOf(during, op));
    KeepCallAndRun(a, op, ERROR_RSP, [], CallsOf(during, op));
    var b := CallAndRun(a, op, ERROR_RSP, [], CallsOf(during, op));
    KeepDestroy(b, op);
    KeptQuiet(b, DestroyOp(b, op));
  }

  lemma KeptDetach(a: Att, b: Att, i: nat)
    requires Kept(a) && i < |a.chans|
    requires b == a.(chans := a.chans[..i] + a.chans[i + 1..], wire := a.wire + [Closed(a.chans[i].cid)])
    ensures Kept(b)
  {
    hide OpOk, OpTypeOf;
    var c := a.chans[i];
    StorySnoc(a.wire, Closed(c.cid));
    forall k | 0 <= k < |b.chans| ensures Fits(StoryOf(b.wire, b.chans[k].cid), b.chans[k]) && ChanOk(b.chans[k], b) {
      var j := if k < i then k else k + 1;
      assert b.chans[k] == a.chans[j] && ChanOk(a.chans[j], a);
      assert Fits(StoryOf(a.wire, a.chans[j].cid), a.chans[j]);
      assert a.chans[j].cid != c.cid;
    }
    assert ChanOk(c, a);
  }

  lemma KeptEmptied(a: Att)
    requires Kept(a)
    ensures Kept(a.(reqQ := [])) && Kept(a.(indQ := [])) && Kept(a.(writeQ := []))
  {
    hide OpOk;
  }

  lemma KeptDiscQueues(a: Att, during: map<nat, seq<Call>>)
    requires Kept(a) && PlainMap(during)
    ensures Kept(DiscQueues(a, during))
  {
    hide Kept, DiscOps, PlainMap;
    KeptEmptied(a);
    KeepDiscOps(a.(reqQ := []), a.reqQ, during);
    var a1 := DiscOps(a.(reqQ := []), a.reqQ, during);
    KeptEmptied(a1);
    KeepDiscOps(a1.(indQ := []), a1.indQ, during);
    var a2 := DiscOps(a1.(indQ := []), a1.indQ, during);
    KeptEmptied(a2);
    KeepDiscOps(a2.(writeQ := []), a2.writeQ, during);
  }

  lemma KeptDestroyOps(a: Att, ops: seq<Op>)
    requires Kept(a)
    ensures Kept(DestroyOps(a, ops))
  {
    hide Places, Talk, Quiet;
    KeepDestroyOps(a, ops);
    KeptQuiet(a, DestroyOps(a, ops));
  }

  lemma KeptDestroySlot(a: Att, o: Option<Op>)
    requires Kept(a)
    ensures Kept(DestroySlot(a, o))
  {
    hide Places, Talk, Quiet, DestroyOp;
    if o.Some? {
      KeepDestroy(a, o.value);
      KeptQuiet(a, DestroyOp(a, o.value));
    }
  }

  lemma KeptDiscSlot(a: Att, o: Option<Op>, during: map<nat, seq<Call>>)
    requires Kept(a) && PlainMap(during)
    ensures Kept(DiscSlot(a, o, during))
  {
    hide Kept, DiscOp, PlainMap;
    if o.Some? {
      KeepDisc(a, o.value, during);
    }
  }

  lemma KeptDisconnect(a: Att, i: nat, during: map<nat, seq<Call>>, after: seq<Call>)
    requires Kept(a) && i < |a.chans| && PlainMap(during) && PlainCalls(after)
    ensures Kept(DoDisconnect(a, i, during, after))
  {
    hide Kept, DiscQueues, DiscSlot, DestroyOps, RunCalls, PlainMap, PlainCalls;
    var c := a.chans[i];
    var a0 := a.(chans := a.chans[..i] + a.chans[i + 1..], wire := a.wire + [Closed(c.cid)]);
    KeptDetach(a, a0, i);
    KeptDiscQueues(a0, during);
    var a3 := DiscQueues(a0, during);
    KeptDiscSlot(a3, c.pendingReq, during);
    KeptDiscSlot(DiscSlot(a3, c.pendingReq, during), c.pendingInd, during);
    var a4 := DiscSlot(DiscSlot(a3, c.pendingReq, during), c.pendingInd, during);
    KeptDestroyOps(a4, c.queue);
    KeepRunCalls(DestroyOps(a4, c.queue), after);
    KeptNotify(RunCalls(DestroyOps(a4, c.queue), after), []);
  }

  lemma InvFreeHead(a: Att)
    requires Inv(a) && a.chans != []
    ensures Inv(FreeChan(a.(chans := a.chans[1..]), a.chans[0]))
  {
    hide Sound, Kept, DestroyOps, DestroySlot, ChanPool;
    var c := a.chans[0];
    var none: multiset<Op> := multiset{};
    assert a.chans[1..] == a.chans[..0] + a.chans[1..];
    var closed := [Closed(c.cid)];
    var a0 := a.(chans := a.chans[1..]);
    var k0 := a0.(wire := a.wire + closed);
    SoundDetach(a, a0, 0);
    KeptDetach(a, k0, 0);
    HandParts(c);
    SoundDestroySlot(a0, c.pendingReq, multiset(c.queue) + SlotPool(c.pendingInd));
    KeptDestroySlot(k0, c.pendingReq);
    var a1, k1 := DestroySlot(a0, c.pendingReq), DestroySlot(k0, c.pendingReq);
    SoundDestroySlot(a1, c.pendingInd, multiset(c.queue));
    KeptDestroySlot(k1, c.pendingInd);
    var a2, k2 := DestroySlot(a1, c.pendingInd), DestroySlot(k1, c.pendingInd);
    assert none + multiset(c.queue) == multiset(c.queue);
    SoundDestroyOps(a2, c.queue, none);
    KeptDestroyOps(k2, c.queue);
    DestroySlotWire(a0, c.pendingReq, closed);
    DestroySlotWire(a1, c.pendingInd, closed);
    DestroyOpsWire(a2, c.queue, closed);
    SoundSame(DestroyOps(a2, c.queue), FreeChan(a0, c), none);
  }

  // Destroying operations does not depend on the wire history.
  lemma DestroySlotWire(a: Att, o: Option<Op>, w: seq<WireEvent>)
    ensures DestroySlot(a.(wire := a.wire + w), o) == DestroySlot(a, o).(wire := a.wire + w)
    ensures DestroySlot(a, o).wire == a.wire
  {
  }

  lemma {:induction false} DestroyOpsWire(a: Att, ops: seq<Op>, w: seq<WireEvent>)
    ensures DestroyOps(a.(wire := a.wire + w), ops) == DestroyOps(a, ops).(wire := a.wire + w)
    ensures DestroyOps(a, ops).wire == a.wire
    decreases |ops|
  {
    if ops != [] {
      DestroyOpsWire(DestroyOp(a, ops[0]), ops[1..], w);
    }
  }

  lemma {:induction false} InvFreeChans(a: Att)
    requires Inv(a)
    ensures Inv(FreeChans(a))
    decreases |a.chans|
  {
    hide Inv, FreeChan;
    if a.chans != [] {
      InvFreeHead(a);
      InvFreeChans(FreeChan(a.(chans := a.chans[1..]), a.chans[0]));
    }
  }

  lemma InvCall(a: Att, call: Call)
    requires Inv(a) && PlainCall(call)
    ensures Inv(DoCall(a, call))
  {
    hide Sound, Kept, DoCall;
    SoundDoCall(a, call, multiset{});
    KeptCall(a, call);
  }

  lemma InvClose(a: Att)
    requires Inv(a)
    ensures Inv(DoClose(a))
  {
    hide Sound, Kept, DoCancelAll, FreeChans;
    KeptNotify(a, []);
    SoundSame(a, a.(notify := []), multiset{});
    InvCall(a.(notify := []), CancelAll);
    InvFreeChans(DoCancelAll(a.(notify := [])));
  }

  lemma InvAttach(a: Att, ioMtu: u16, level: int)
    requires Inv(a)
    ensures Inv(DoAttach(a, ioMtu, level))
  {
    hide Inv, Wake, NewChan;
    match NewChan(a.nextCid, Eatt, ioMtu, level)
    case None =>
    case Some(c) =>
      NewChanShape(a.nextCid, ioMtu, level);
      InvAttached(a, c);
  }

  lemma InvAttached(a: Att, c: Chan)
    requires Inv(a) && NewChan(a.nextCid, Eatt, c.mtu, c.sockLevel) == Some(c)
    requires c.queue == [] && c.pendingReq.None? && c.pendingInd.None?
    ensures var b := a.(chans := [c] + a.chans, nextCid := a.nextCid + 1, mtu := if c.mtu > a.mtu then c.mtu else a.mtu);
            Inv(Wake(b, 0))
  {
    hide Sound, Kept, Pool, Wake, LedgerOf, NewChan;
    var b := a.(chans := [c] + a.chans, nextCid := a.nextCid + 1, mtu := if c.mtu > a.mtu then c.mtu else a.mtu);
    KeptAttach(a, b, c);
    NewChanPool(a, b, c);
    LedgerAttach(a, b.chans, b.nextCid, b.mtu);
    SoundSame(a, b, multiset{});
    SoundWake(b, 0, multiset{});
    KeepWoken(b, 0);
  }

  lemma NewChanShape(cid: nat, ioMtu: u16, level: int)
    requires NewChan(cid, Eatt, ioMtu, level).Some?
    ensures var c := NewChan(cid, Eatt, ioMtu, level).value;
            NewChan(cid, Eatt, c.mtu, c.sockLevel) == Some(c) && c.queue == [] && c.pendingReq.None? && c.pendingInd.None?
  {
  }

  lemma LedgerAttach(a: Att, chans: seq<Chan>, nextCid: nat, mtu: u16)
    ensures LedgerOf(a.(chans := chans, nextCid := nextCid, mtu := mtu)) == LedgerOf(a)
  {
  }

  lemma NewChanPool(a: Att, b: Att, c: Chan)
    requires b.chans == [c] + a.chans && b.reqQ == a.reqQ && b.indQ == a.indQ && b.writeQ == a.writeQ
    requires c.queue == [] && c.pendingReq.None? && c.pendingInd.None?
    ensures Pool(b) == Pool(a)
  {
    ChansPoolAt(b.chans, 0);
    assert Drop(b.chans, 0) == a.chans;
    var none: multiset<Op> := multiset{};
    assert ChanPool(c) == none;
    assert none + ChansPool(a.chans) == ChansPool(a.chans);
  }

  lemma KeptAttach(a: Att, b: Att, c: Chan)
    requires Kept(a) && NewChan(a.nextCid, Eatt, c.mtu, c.sockLevel) == Some(c)
    requires b == a.(chans := [c] + a.chans, nextCid := a.nextCid + 1, mtu := if c.mtu > a.mtu then c.mtu else a.mtu)
    ensures Kept(b)
  {
    hide OpTypeOf;
    forall k | 0 <= k < |b.chans| ensures Fits(StoryOf(b.wire, b.chans[k].cid), b.chans[k]) && ChanOk(b.chans[k], b) {
      if k > 0 {
        assert b.chans[k] == a.chans[k - 1] && ChanOk(a.chans[k - 1], a);
        assert Fits(StoryOf(a.wire, a.chans[k - 1].cid), a.chans[k - 1]);
      }
    }
  }

  // ---- Every step, every run -----------------------------------------------------------------

  lemma InvStep(a: Att, act: Action)
    requires Inv(a) && Plain(act)
    ensures Inv(Step(a, act))
  {
    hide Sound, Kept, DoCall, DoWrite, DoRead, DoTimeout, DoDisconnect, DoAttach, DoUnref;
    match act
    case Api(call) => InvCall(a, call);
    case Register(opcode) => InvNotify(a, a.notify + [opcode]);
    case WriterReady(i, written, during) =>
      if i < |a.chans| { SoundWrite(a, i, written, during); KeepWrite(a, i, written, during); }
    case Received(i, bytes, env, during) =>
      KeptPlaces(a);
      if i < |a.chans| { SoundRead(a, i, bytes, env, during, multiset{}); KeepRead(a, i, bytes, env, during); }
    case Unregister(k) => InvNotify(a, Step(a, act).notify);
    case UnregisterAll => InvNotify(a, []);
    case TimerFired(tid, first, during) => InvTimeout(a, tid, first, during);
    case Disconnected(i, during, after) =>
      if i < |a.chans| { SoundDisconnect(a, i, during, after); KeptDisconnect(a, i, during, after); }
    case Attach(ioMtu, level) => InvAttach(a, ioMtu, level);
    case Ref => InvRefs(a, if a.refs == 0 then 0 else a.refs + 1);
    case Unref => InvUnref(a);
  }

  lemma KeptPlaces(a: Att)
    requires Kept(a)
    ensures Places(a)
  {
  }

  lemma KeptNotify(a: Att, notify: seq<byte>)
    requires Kept(a)
    ensures Kept(a.(notify := notify))
  {
    hide OpOk;
  }

  lemma InvRefs(a: Att, refs: nat)
    requires Inv(a)
    ensures Inv(a.(refs := refs))
  {
    hide Sound, Kept;
    SoundSame(a, a.(refs := refs), multiset{});
    KeptRefs(a, refs);
  }

  lemma InvUnref(a: Att)
    requires Inv(a)
    ensures Inv(DoUnref(a))
  {
    hide Inv, DoClose;
    if a.refs > 0 {
      InvRefs(a, a.refs - 1);
      if a.refs == 1 { InvClose(a.(refs := 0)); }
    }
  }

  lemma InvNotify(a: Att, notify: seq<byte>)
    requires Inv(a)
    ensures Inv(a.(notify := notify))
  {
    hide Sound, Kept;
    SoundSame(a, a.(notify := notify), multiset{});
    KeptNotify(a, notify);
  }

  lemma InvNew(link: Link, ioMtu: u16, level: int, crypto: bool)
    requires NewAtt(link, ioMtu, level, crypto).Some?
    ensures Inv(NewAtt(link, ioMtu, level, crypto).value)
  {
    hide Kept;
    var a := NewAtt(link, ioMtu, level, crypto).value;
    var none: multiset<Op> := multiset{};
    NewChanPool(a.(chans := []), a, a.chans[0]);
    assert Pool(a.(chans := [])) == none && none + none == none;
    assert Sound(a, none) by { hide Pool; }
    NewKept(link, ioMtu, level, crypto);
  }

  lemma NewKept(link: Link, ioMtu: u16, level: int, crypto: bool)
    requires NewAtt(link, ioMtu, level, crypto).Some?
    ensures Kept(NewAtt(link, ioMtu, level, crypto).value)
  {
    hide OpOk;
  }

  lemma {:induction false} InvRun(a: Att, acts: seq<Action>)
    requires Inv(a) && PlainRun(acts)
    ensures Inv(Run(a, acts))
    decreases |acts|
  {
    hide Inv, Step;
    if acts != [] {
      InvStep(a, acts[0]);
      InvRun(Step(a, acts[0]), acts[1..]);
    }
  }
}
