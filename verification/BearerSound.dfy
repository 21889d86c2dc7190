// The books stay balanced through every step of the engine.

module BearerSound {
  import opened Wire
  import opened Opcodes
  import opened BearerSpec
  import opened BearerBooks

  // ---- Where operations may be ---------------------------------------------------------------

  ghost predicate OpOk(o: Op, mtu: u16) {
    && o.ty == OpTypeOf(o.opcode)
    && !o.ty.Unknown?
    && 1 <= |o.pdu| <= mtu && o.pdu[0] == o.opcode
    && (o.callback ==> o.ty.Req? || o.ty.Ind?)
  }

  ghost predicate Queued(q: seq<Op>, ty: OpType, mtu: u16) {
    forall k :: 0 <= k < |q| ==> OpOk(q[k], mtu) && q[k].ty == ty && q[k].timer == 0 && q[k].id != 0
  }

  ghost predicate Writable(q: seq<Op>, mtu: u16) {
    forall k :: 0 <= k < |q| ==> OpOk(q[k], mtu) && !q[k].ty.Req? && !q[k].ty.Ind? && q[k].timer == 0
  }

  ghost predicate SlotOk(o: Option<Op>, ty: OpType, cid: nat, a: Att) {
    o.Some? ==> OpOk(o.value, a.mtu) && o.value.ty == ty && 0 < o.value.timer < a.nextTimer && o.value.id != 0
                && (o.value.timer in a.timers ==> a.timers[o.value.timer].cid == cid)
  }

  ghost predicate ChanOk(c: Chan, a: Att) {
    && Writable(c.queue, a.mtu)
    && SlotOk(c.pendingReq, Req, c.cid, a)
    && SlotOk(c.pendingInd, Ind, c.cid, a)
    && DEFAULT_LE_MTU <= c.mtu <= a.mtu
    && c.cid < a.nextCid
  }

  // What API calls leave alone: the pending operations keep everything but their handlers.  Only
  // bt_att_set_security touches the security levels.
  ghost predicate SlotStill(o: Option<Op>, o1: Option<Op>) {
    match o
    case None => o1.None?
    case Some(op) => o1.Some? && o1.value == op.(callback := o1.value.callback, destroy := o1.value.destroy)
  }

  ghost predicate Still(c: Chan, d: Chan) {
    && d.cid == c.cid && d.link == c.link && d.inReq == c.inReq && d.shut == c.shut
    && d.secLevel == c.secLevel && d.sockLevel == c.sockLevel
    && (c.writerActive ==> d.writerActive)
    && SlotStill(c.pendingReq, d.pendingReq) && SlotStill(c.pendingInd, d.pendingInd)
  }

  ghost predicate Quiet(a: Att, b: Att) {
    && b.wire == a.wire && b.notify == a.notify && b.crypto == a.crypto
    && |b.chans| == |a.chans| && b.nextCid == a.nextCid
    && (forall i :: 0 <= i < |a.chans| ==> Still(a.chans[i], b.chans[i]))
  }

  ghost predicate Calm(a: Att, b: Att) {
    && b.notify == a.notify && b.crypto == a.crypto
    && |b.chans| == |a.chans| && b.nextCid == a.nextCid
    && (forall i :: 0 <= i < |a.chans| ==>
          Still(a.chans[i], b.chans[i].(secLevel := a.chans[i].secLevel, sockLevel := a.chans[i].sockLevel)))
  }

  // Requests, indications and the rest each wait in their own place; a pending operation has its
  // timer armed; channels are listed newest first.
  ghost predicate Places(a: Att) {
    && 0 < a.nextTimer
    && Queued(a.reqQ, Req, a.mtu)
    && Queued(a.indQ, Ind, a.mtu)
    && Writable(a.writeQ, a.mtu)
    && (forall i :: 0 <= i < |a.chans| ==> ChanOk(a.chans[i], a))
    && (forall i, j :: 0 <= i < j < |a.chans| ==> a.chans[i].cid > a.chans[j].cid)
  }

  // ---- Pools of changed states ---------------------------------------------------------------

  ghost predicate Sound(a: Att, hand: multiset<Op>) { Books(Pool(a) + hand, LedgerOf(a)) }

  function SetChan(a: Att, i: nat, c: Chan): Att
    requires i < |a.chans|
  {
    a.(chans := a.chans[i := c])
  }

  lemma PoolChan(a: Att, i: nat, c: Chan)
    requires i < |a.chans|
    ensures Pool(a) == SharedPool(a) + RestPool(a.chans, i) + ChanPool(a.chans[i])
    ensures Pool(SetChan(a, i, c)) == SharedPool(a) + RestPool(a.chans, i) + ChanPool(c)
  {
    ChansPoolAt(a.chans, i);
    ChansPoolUpdate(a.chans, i, c);
    var s, r := SharedPool(a), RestPool(a.chans, i);
    assert SharedPool(SetChan(a, i, c)) == s;
    assert s + (ChanPool(a.chans[i]) + r) == s + r + ChanPool(a.chans[i]);
    assert s + (ChanPool(c) + r) == s + r + ChanPool(c);
  }

  // A change of a channel that keeps its operations keeps the pool.
  lemma PoolStill(a: Att, i: nat, c: Chan)
    requires i < |a.chans| && ChanPool(c) == ChanPool(a.chans[i])
    ensures Pool(SetChan(a, i, c)) == Pool(a)
  {
    PoolChan(a, i, c);
  }

  function Emptied(a: Att, i: nat, ty: OpType): Att
    requires i < |a.chans|
  {
    SetChan(a, i, WithSlot(a.chans[i], ty, None))
  }

  lemma Assoc<T>(x: multiset<T>, y: multiset<T>, z: multiset<T>)
    ensures x + (y + z) == x + y + z
  {
  }

  lemma Shift<T>(x: multiset<T>, y: multiset<T>, z: multiset<T>)
    ensures x + y + z == x + z + y
  {
  }

  lemma ChanSlot(c: Chan, ty: OpType, o: Option<Op>)
    ensures ChanPool(WithSlot(c, ty, o)) == ChanPool(WithSlot(c, ty, None)) + SlotPool(o)
  {
    var x, y, z := multiset(c.queue), SlotPool(c.pendingReq), SlotPool(c.pendingInd);
    var n: multiset<Op> := multiset{};
    if ty.Ind? {
      assert x + y + SlotPool(o) == x + y + n + SlotPool(o);
    } else {
      assert x + SlotPool(o) + z == x + n + z + SlotPool(o);
    }
  }

  lemma PoolSlot(a: Att, i: nat, ty: OpType, o: Option<Op>)
    requires i < |a.chans|
    ensures Pool(SetChan(a, i, WithSlot(a.chans[i], ty, o))) == Pool(Emptied(a, i, ty)) + SlotPool(o)
    ensures Pool(a) == Pool(Emptied(a, i, ty)) + SlotPool(Slot(a.chans[i], ty))
  {
    var c := a.chans[i];
    PoolChan(a, i, WithSlot(c, ty, o));
    PoolChan(a, i, WithSlot(c, ty, None));
    ChanSlot(c, ty, o);
    ChanSlot(c, ty, Slot(c, ty));
    assert WithSlot(c, ty, Slot(c, ty)) == c;
    var s, q := SharedPool(a) + RestPool(a.chans, i), ChanPool(WithSlot(c, ty, None));
    Assoc(s, q, SlotPool(o));
    Assoc(s, q, SlotPool(Slot(c, ty)));
  }

  lemma SeqWithout(q: seq<Op>, j: nat)
    requires j < |q|
    ensures multiset(q) == multiset(Without(q, j)) + multiset{q[j]}
  {
    assert q == q[..j] + [q[j]] + q[j + 1..];
  }

  lemma PoolQueue(a: Att, i: nat, q: seq<Op>, op: Op)
    requires i < |a.chans| && multiset(a.chans[i].queue) == multiset(q) + multiset{op}
    ensures Pool(a) == Pool(SetChan(a, i, a.chans[i].(queue := q))) + multiset{op}
  {
    var c := a.chans[i];
    PoolChan(a, i, c.(queue := q));
    var s, x, y, z := SharedPool(a) + RestPool(a.chans, i), multiset(q), SlotPool(c.pendingReq), SlotPool(c.pendingInd);
    assert s + (x + multiset{op} + y + z) == s + (x + y + z) + multiset{op};
  }

  // ---- Steps on one operation ----------------------------------------------------------------

  lemma SoundDestroy(a: Att, op: Op, hand: multiset<Op>)
    requires Sound(a, hand + multiset{op})
    ensures Sound(DestroyOp(a, op), hand)
  {
    assert Pool(a) + (hand + multiset{op}) == Pool(a) + hand + multiset{op};
    BookDestroy(Pool(a) + hand, a, op);
  }

  lemma SoundCall(a: Att, op: Op, rsp: byte, data: seq<byte>, hand: multiset<Op>)
    requires Sound(a, hand + multiset{op}) && Answers(rsp, op.opcode)
    ensures Sound(CallOp(a, op, rsp, data), hand + multiset{op.(callback := false)})
  {
    var p := Pool(a);
    assert p + (hand + multiset{op}) == p + hand + multiset{op};
    BookCall(p + hand, a, op, rsp, data);
    assert p + (hand + multiset{op.(callback := false)}) == p + hand + multiset{op.(callback := false)};
  }

  // Moving an operation out of the pool into the hand, or back.
  lemma SoundMove(a: Att, b: Att, op: Op, hand: multiset<Op>)
    requires LedgerOf(b) == LedgerOf(a) && Pool(a) == Pool(b) + multiset{op}
    ensures Sound(a, hand) <==> Sound(b, hand + multiset{op})
  {
    assert Pool(b) + multiset{op} + hand == Pool(b) + (hand + multiset{op});
  }

  lemma SoundSame(a: Att, b: Att, hand: multiset<Op>)
    requires LedgerOf(b) == LedgerOf(a) && Pool(a) == Pool(b)
    ensures Sound(a, hand) <==> Sound(b, hand)
  {
  }

  lemma SoundWake(a: Att, i: nat, hand: multiset<Op>)
    requires i < |a.chans| && Sound(a, hand)
    ensures Sound(Wake(a, i), hand)
  {
    var c := WakeChan(a.chans[i], a.reqQ == [], a.indQ == [], a.writeQ == []);
    PoolStill(a, i, c);
    assert Wake(a, i) == SetChan(a, i, c);
  }

  lemma SoundWakeAll(a: Att, hand: multiset<Op>)
    requires Sound(a, hand)
    ensures Sound(WakeAll(a), hand)
  {
    ChansPoolSame(a.chans, WakeAll(a).chans);
  }

  lemma {:induction false} SoundDestroyOps(a: Att, ops: seq<Op>, hand: multiset<Op>)
    requires Sound(a, hand + multiset(ops))
    ensures Sound(DestroyOps(a, ops), hand)
    decreases |ops|
  {
    if ops == [] {
      assert hand + multiset(ops) == hand;
    } else {
      assert ops == [ops[0]] + ops[1..];
      var rest := multiset(ops[1..]);
      assert hand + multiset(ops) == hand + rest + multiset{ops[0]};
      SoundDestroy(a, ops[0], hand + rest);
      SoundDestroyOps(DestroyOp(a, ops[0]), ops[1..], hand);
    }
  }

  lemma SoundDisc(a: Att, op: Op, during: map<nat, seq<Call>>, hand: multiset<Op>)
    requires Sound(a, hand + multiset{op})
    ensures Sound(DiscOp(a, op, during), hand)
  {
    hide Sound, RunCalls, CallOp;
    SoundCallAndRun(a, op, ERROR_RSP, [], CallsOf(during, op), hand);
    var b := CallAndRun(a, op, ERROR_RSP, [], CallsOf(during, op));
    SoundDestroy(b, op.(callback := false), hand);
    assert DestroyOp(b, op) == DestroyOp(b, op.(callback := false));
  }

  lemma {:induction false} SoundDiscOps(a: Att, ops: seq<Op>, during: map<nat, seq<Call>>, hand: multiset<Op>)
    requires Sound(a, hand + multiset(ops))
    ensures Sound(DiscOps(a, ops, during), hand)
    decreases |ops|
  {
    hide Sound, DiscOp;
    if ops == [] {
      assert hand + multiset(ops) == hand;
    } else {
      assert ops == [ops[0]] + ops[1..];
      var rest := multiset(ops[1..]);
      assert hand + multiset(ops) == hand + rest + multiset{ops[0]};
      SoundDisc(a, ops[0], during, hand + rest);
      SoundDiscOps(DiscOp(a, ops[0], during), ops[1..], during, hand);
    }
  }

  // Replacing the operation in a slot, when the books accept the replacement.
  lemma SoundSlot(a: Att, b: Att, i: nat, ty: OpType, op: Op, op1: Op, hand: multiset<Op>)
    requires i < |a.chans| && Slot(a.chans[i], ty) == Some(op)
    requires b.chans == a.chans[i := WithSlot(a.chans[i], ty, Some(op1))] && SharedPool(b) == SharedPool(a)
    ensures Pool(a) + hand == Pool(Emptied(a, i, ty)) + hand + multiset{op}
    ensures Pool(b) + hand == Pool(Emptied(a, i, ty)) + hand + multiset{op1}
  {
    PoolSlot(a, i, ty, Some(op1));
    var p := Pool(Emptied(a, i, ty));
    assert Pool(b) == Pool(SetChan(a, i, WithSlot(a.chans[i], ty, Some(op1))));
    Shift(p, multiset{op}, hand);
    Shift(p, multiset{op1}, hand);
  }

  lemma SoundStripSlot(a: Att, i: nat, ty: OpType, hand: multiset<Op>)
    requires i < |a.chans| && Sound(a, hand)
    ensures Sound(StripSlot(a, i, ty), hand)
  {
    match Slot(a.chans[i], ty)
    case None =>
    case Some(op) =>
      var b := StripSlot(a, i, ty);
      SoundSlot(a, b, i, ty, op, Stripped(op), hand);
      BookStrip(Pool(Emptied(a, i, ty)) + hand, a, op);
  }

  // ---- API calls -----------------------------------------------------------------------------

  lemma PoolEnqueue(a: Att, op: Op)
    ensures Pool(Enqueue(a, op)) == Pool(a) + multiset{op}
    ensures LedgerOf(Enqueue(a, op)) == LedgerOf(a)
  {
    SharedEnqueue(a, op);
    hide SharedPool, Pool;
    PoolShared(Enqueue(a, op), a, op);
  }

  // One operation more, in whichever shared queue.
  lemma SharedMore(a: Att, b: Att, op: Op)
    requires || (multiset(b.reqQ) == multiset(a.reqQ) + multiset{op} && b.indQ == a.indQ && b.writeQ == a.writeQ)
             || (b.reqQ == a.reqQ && multiset(b.indQ) == multiset(a.indQ) + multiset{op} && b.writeQ == a.writeQ)
             || (b.reqQ == a.reqQ && b.indQ == a.indQ && multiset(b.writeQ) == multiset(a.writeQ) + multiset{op})
    ensures SharedPool(b) == SharedPool(a) + multiset{op}
  {
    Rotate(multiset(a.reqQ), multiset(a.indQ), multiset(a.writeQ), multiset{op});
  }

  lemma SharedEnqueue(a: Att, op: Op)
    ensures SharedPool(Enqueue(a, op)) == SharedPool(a) + multiset{op} && Enqueue(a, op).chans == a.chans
    ensures LedgerOf(Enqueue(a, op)) == LedgerOf(a)
  {
    hide SharedPool;
    SharedMore(a, Enqueue(a, op), op);
  }

  lemma SoundSend(a: Att, opcode: byte, payload: seq<byte>, callback: bool, destroy: bool, hand: multiset<Op>)
    requires Sound(a, hand)
    ensures Sound(DoSend(a, opcode, payload, callback, destroy), hand)
  {
    hide Books;
    if a.chans != [] {
      match CreateOp(a, opcode, payload, callback, destroy)
      case None =>
      case Some(op) =>
        var id := NextId(a);
        var op1 := op.(id := id);
        BookAccept(Pool(a) + hand, a, op1, id + 1);
        var b := Accept(a, op1).(nextSendId := id + 1);
        PoolEnqueue(b, op1);
        Shift(Pool(a), hand, multiset{op1});
        SoundWakeAll(Enqueue(b, op1), hand);
    }
  }

  lemma PoolSameParts(a: Att, b: Att)
    requires b.chans == a.chans && b.reqQ == a.reqQ && b.indQ == a.indQ && b.writeQ == a.writeQ
    ensures Pool(b) == Pool(a)
  {
  }

  lemma SoundChanSend(a: Att, i: nat, opcode: byte, payload: seq<byte>, callback: bool, destroy: bool, hand: multiset<Op>)
    requires Sound(a, hand)
    ensures Sound(DoChanSend(a, i, opcode, payload, callback, destroy), hand)
  {
    hide Books, Wake, OpTypeOf, Pool;
    if i < |a.chans| {
      match CreateOp(a, opcode, payload, callback, destroy)
      case None =>
      case Some(op) =>
        BookAccept(Pool(a) + hand, a, op, a.nextSendId);
        var c := a.chans[i];
        var b := SetChan(Accept(a, op), i, c.(queue := c.queue + [op]));
        PoolQueue(b, i, c.queue, op);
        var b0 := SetChan(b, i, b.chans[i].(queue := c.queue));
        assert b0.chans == a.chans;
        PoolSameParts(a, b0);
        Shift(Pool(a), hand, multiset{op});
        SoundWake(b, i, hand);
    }
  }

  lemma SoundChanCancel(a: Att, i: nat, id: nat, hand: multiset<Op>)
    requires i < |a.chans| && Sound(a, hand)
    ensures Sound(ChanCancel(a, i, id).0, hand)
  {
    hide Sound, Pool, StripSlot, DestroyOp, Wake;
    var c := a.chans[i];
    SoundStripSlot(a, i, Req, hand);
    SoundStripSlot(a, i, Ind, hand);
    var j := FindId(c.queue, id);
    if j < |c.queue| {
      var b := SetChan(a, i, c.(queue := Without(c.queue, j)));
      SeqWithout(c.queue, j);
      PoolQueue(a, i, Without(c.queue, j), c.queue[j]);
      SoundMove(a, b, c.queue[j], hand);
      SoundDestroy(b, c.queue[j], hand);
      SoundWake(DestroyOp(b, c.queue[j]), i, hand);
    }
  }

  lemma {:induction false} SoundCancelOnChans(a: Att, i: nat, id: nat, hand: multiset<Op>)
    requires i <= |a.chans| && Sound(a, hand)
    ensures Sound(CancelOnChans(a, i, id).0, hand)
    decreases |a.chans| - i
  {
    hide Sound, ChanCancel;
    if i < |a.chans| {
      SoundChanCancel(a, i, id, hand);
      SoundCancelOnChans(a, i + 1, id, hand);
    }
  }

  lemma PoolShared(a: Att, b: Att, op: Op)
    requires b.chans == a.chans && SharedPool(a) == SharedPool(b) + multiset{op}
    ensures Pool(a) == Pool(b) + multiset{op}
  {
    Shift(SharedPool(b), multiset{op}, ChansPool(a.chans));
  }

  // An operation leaves a shared queue.
  lemma SoundDropShared(a: Att, b: Att, op: Op, hand: multiset<Op>)
    requires Sound(a, hand) && b.chans == a.chans && LedgerOf(b) == LedgerOf(a)
    requires SharedPool(a) == SharedPool(b) + multiset{op}
    ensures Sound(WakeAll(DestroyOp(b, op)), hand)
  {
    PoolShared(a, b, op);
    SoundMove(a, b, op, hand);
    SoundDestroy(b, op, hand);
    SoundWakeAll(DestroyOp(b, op), hand);
  }

  lemma TakeOne(a: Att)
    ensures forall j :: 0 <= j < |a.reqQ| ==> SharedPool(a) == SharedPool(a.(reqQ := Without(a.reqQ, j))) + multiset{a.reqQ[j]}
    ensures forall j :: 0 <= j < |a.indQ| ==> SharedPool(a) == SharedPool(a.(indQ := Without(a.indQ, j))) + multiset{a.indQ[j]}
    ensures forall j :: 0 <= j < |a.writeQ| ==> SharedPool(a) == SharedPool(a.(writeQ := Without(a.writeQ, j))) + multiset{a.writeQ[j]}
  {
    var x, y, z := multiset(a.reqQ), multiset(a.indQ), multiset(a.writeQ);
    forall j | 0 <= j < |a.reqQ| ensures SharedPool(a) == SharedPool(a.(reqQ := Without(a.reqQ, j))) + multiset{a.reqQ[j]} {
      SeqWithout(a.reqQ, j);
      Rotate(multiset(Without(a.reqQ, j)), y, z, multiset{a.reqQ[j]});
    }
    forall j | 0 <= j < |a.indQ| ensures SharedPool(a) == SharedPool(a.(indQ := Without(a.indQ, j))) + multiset{a.indQ[j]} {
      SeqWithout(a.indQ, j);
      Rotate(x, multiset(Without(a.indQ, j)), z, multiset{a.indQ[j]});
    }
    forall j | 0 <= j < |a.writeQ| ensures SharedPool(a) == SharedPool(a.(writeQ := Without(a.writeQ, j))) + multiset{a.writeQ[j]} {
      SeqWithout(a.writeQ, j);
      Rotate(x, y, multiset(Without(a.writeQ, j)), multiset{a.writeQ[j]});
    }
  }

  lemma Rotate(x: multiset<Op>, y: multiset<Op>, z: multiset<Op>, o: multiset<Op>)
    ensures x + o + y + z == x + y + z + o
    ensures x + (y + o) + z == x + y + z + o
    ensures x + y + (z + o) == x + y + z + o
  {
  }

  lemma SoundCancel(a: Att, id: nat, hand: multiset<Op>)
    requires Sound(a, hand)
    ensures Sound(DoCancel(a, id).0, hand)
  {
    hide Sound, CancelOnChans, WakeAll, DestroyOp, SharedPool;
    SoundCancelOnChans(a, 0, id, hand);
    TakeOne(a);
    var j, k, m := FindId(a.reqQ, id), FindId(a.indQ, id), FindId(a.writeQ, id);
    if j < |a.reqQ| {
      SoundDropShared(a, a.(reqQ := Without(a.reqQ, j)), a.reqQ[j], hand);
    } else if k < |a.indQ| {
      SoundDropShared(a, a.(indQ := Without(a.indQ, k)), a.indQ[k], hand);
    } else if m < |a.writeQ| {
      SoundDropShared(a, a.(writeQ := Without(a.writeQ, m)), a.writeQ[m], hand);
    }
  }

  lemma {:induction false} SoundStripFrom(a: Att, i: nat, hand: multiset<Op>)
    requires i <= |a.chans| && Sound(a, hand)
    ensures Sound(StripFrom(a, i), hand)
    decreases |a.chans| - i
  {
    hide Sound, StripSlot;
    if i < |a.chans| {
      SoundStripSlot(a, i, Req, hand);
      SoundStripSlot(StripSlot(a, i, Req), i, Ind, hand);
      SoundStripFrom(StripSlot(StripSlot(a, i, Req), i, Ind), i + 1, hand);
    }
  }

  // A whole shared queue moves into the hand.
  lemma SoundTakeAll(a: Att, b: Att, q: seq<Op>, hand: multiset<Op>)
    requires Sound(a, hand) && b.chans == a.chans && LedgerOf(b) == LedgerOf(a)
    requires SharedPool(a) == SharedPool(b) + multiset(q)
    ensures Sound(b, hand + multiset(q))
  {
    var s, c, m := SharedPool(b), ChansPool(a.chans), multiset(q);
    assert s + m + c + hand == s + c + (hand + m);
  }

  lemma TakeShared(a: Att)
    ensures SharedPool(a) == SharedPool(a.(reqQ := [])) + multiset(a.reqQ)
    ensures SharedPool(a) == SharedPool(a.(indQ := [])) + multiset(a.indQ)
    ensures SharedPool(a) == SharedPool(a.(writeQ := [])) + multiset(a.writeQ)
  {
    var x, y, z := multiset(a.reqQ), multiset(a.indQ), multiset(a.writeQ);
    var n: multiset<Op> := multiset{};
    assert x + y + z == n + y + z + x;
    assert x + y + z == x + n + z + y;
    assert x + y + z == x + y + n + z;
  }

  lemma SoundDestroyQueues(a: Att, hand: multiset<Op>)
    requires Sound(a, hand)
    ensures Sound(DestroyQueues(a), hand)
  {
    hide Sound, DestroyOps;
    TakeShared(a);
    SoundTakeAll(a, a.(reqQ := []), a.reqQ, hand);
    SoundDestroyOps(a.(reqQ := []), a.reqQ, hand);
    var a1 := DestroyOps(a.(reqQ := []), a.reqQ);
    TakeShared(a1);
    SoundTakeAll(a1, a1.(indQ := []), a1.indQ, hand);
    SoundDestroyOps(a1.(indQ := []), a1.indQ, hand);
    var a2 := DestroyOps(a1.(indQ := []), a1.indQ);
    TakeShared(a2);
    SoundTakeAll(a2, a2.(writeQ := []), a2.writeQ, hand);
    SoundDestroyOps(a2.(writeQ := []), a2.writeQ, hand);
  }

  lemma SoundSetMtu(a: Att, mtu: u16, hand: multiset<Op>)
    requires Sound(a, hand)
    ensures Sound(DoSetMtu(a, mtu), hand)
  {
    if a.chans != [] {
      var t := |a.chans| - 1;
      PoolStill(a, t, a.chans[t].(mtu := mtu));
    }
  }

  lemma SoundSetSecurity(a: Att, level: int, setOk: bool, hand: multiset<Op>)
    requires Sound(a, hand)
    ensures Sound(DoSetSecurity(a, level, setOk), hand)
  {
    hide Sound, Pool;
    if SEC_AUTO <= level <= SEC_HIGH && a.chans != [] {
      var t := |a.chans| - 1;
      match SetChanSecurity(a.chans[t], level, setOk)
      case None =>
      case Some(c) =>
        var b := DoSetSecurity(a, level, setOk);
        PoolStill(a, t, c);
        PoolSameParts(SetChan(a, t, c), b);
        SoundSame(a, b, hand);
    }
  }

  lemma SoundDoCall(a: Att, call: Call, hand: multiset<Op>)
    requires Sound(a, hand)
    ensures Sound(DoCall(a, call), hand)
  {
    hide Sound, DoSend, DoChanSend, DoCancel, DestroyQueues, StripFrom, DoSetMtu, DoSetSecurity;
    match call
    case Send(opcode, payload, callback, destroy) => SoundSend(a, opcode, payload, callback, destroy, hand);
    case ChanSend(i, opcode, payload, callback, destroy) => SoundChanSend(a, i, opcode, payload, callback, destroy, hand);
    case Cancel(id) => SoundCancel(a, id, hand);
    case CancelAll => SoundDestroyQueues(a, hand); SoundStripFrom(DestroyQueues(a), 0, hand);
    case SetMtu(mtu) => SoundSetMtu(a, mtu, hand);
    case SetSecurity(level, setOk) => SoundSetSecurity(a, level, setOk, hand);
  }

  lemma {:induction false} SoundRunCalls(a: Att, calls: seq<Call>, hand: multiset<Op>)
    requires Sound(a, hand)
    ensures Sound(RunCalls(a, calls), hand)
    decreases |calls|
  {
    hide Sound, DoCall;
    if calls != [] {
      SoundDoCall(a, calls[0], hand);
      SoundRunCalls(DoCall(a, calls[0]), calls[1..], hand);
    }
  }

  // The callback of an operation in the hand.
  lemma SoundCallAndRun(a: Att, op: Op, rsp: byte, data: seq<byte>, during: seq<Call>, hand: multiset<Op>)
    requires Sound(a, hand + multiset{op}) && Answers(rsp, op.opcode)
    ensures Sound(CallAndRun(a, op, rsp, data, during), hand + multiset{op.(callback := false)})
  {
    hide Sound, CallOp, RunCalls;
    SoundCall(a, op, rsp, data, hand);
    SoundRunCalls(CallOp(a, op, rsp, data), if op.callback then during else [], hand + multiset{op.(callback := false)});
  }

  // ---- Event-loop steps ----------------------------------------------------------------------

  lemma SoundPick(a: Att, i: nat, hand: multiset<Op>)
    requires i < |a.chans| && Sound(a, hand)
    ensures var (next, a1) := PickNext(a, i); if next.None? then a1 == a else Sound(a1, hand + multiset{next.value})
  {
    hide Sound, Pool, SharedPool;
    var (next, a1) := PickNext(a, i);
    if next.Some? {
      var op, c := next.value, a.chans[i];
      if c.queue != [] {
        assert c.queue == [op] + c.queue[1..];
        PoolQueue(a, i, c.queue[1..], op);
      } else {
        TakeHeads(a);
        PoolShared(a, a1, op);
      }
      SoundMove(a, a1, op, hand);
    }
  }

  lemma TakeHeads(a: Att)
    ensures a.reqQ != [] ==> SharedPool(a) == SharedPool(a.(reqQ := a.reqQ[1..])) + multiset{a.reqQ[0]}
    ensures a.indQ != [] ==> SharedPool(a) == SharedPool(a.(indQ := a.indQ[1..])) + multiset{a.indQ[0]}
    ensures a.writeQ != [] ==> SharedPool(a) == SharedPool(a.(writeQ := a.writeQ[1..])) + multiset{a.writeQ[0]}
  {
    hide SharedPool;
    TakeOne(a);
    assert a.reqQ != [] ==> Without(a.reqQ, 0) == a.reqQ[1..];
    assert a.indQ != [] ==> Without(a.indQ, 0) == a.indQ[1..];
    assert a.writeQ != [] ==> Without(a.writeQ, 0) == a.writeQ[1..];
  }

  // A written request or indication takes its slot, with a timer armed.
  lemma SoundArm(a: Att, b: Att, i: nat, op: Op, hand: multiset<Op>)
    requires i < |a.chans| && Sound(a, hand + multiset{op})
    requires op.timer == 0 && op.id != 0 && Slot(a.chans[i], op.ty).None?
    requires b.chans == a.chans[i := WithSlot(a.chans[i], op.ty, Some(op.(timer := a.nextTimer)))]
    requires b.reqQ == a.reqQ && b.indQ == a.indQ && b.writeQ == a.writeQ
    requires LedgerOf(b) == LedgerOf(a).(timers := a.timers[a.nextTimer := Timer(a.chans[i].cid, op.id)], nextTimer := a.nextTimer + 1)
    ensures Sound(b, hand)
  {
    hide Books, Pool;
    var c, op1 := a.chans[i], op.(timer := a.nextTimer);
    Assoc(Pool(a), hand, multiset{op});
    BookArm(Pool(a) + hand, LedgerOf(a), op, c.cid);
    PoolSlot(a, i, op.ty, Some(op1));
    PoolSameParts(SetChan(a, i, WithSlot(c, op.ty, Some(op1))), b);
    assert Emptied(a, i, op.ty).chans == a.chans;
    PoolSameParts(a, Emptied(a, i, op.ty));
    Shift(Pool(a), multiset{op1}, hand);
  }

  lemma SoundAfterWrite(a: Att, i: nat, op: Op, hand: multiset<Op>)
    requires i < |a.chans| && Sound(a, hand + multiset{op})
    requires op.ty.Req? || op.ty.Ind? ==> op.timer == 0 && op.id != 0 && Slot(a.chans[i], op.ty).None?
    ensures Sound(AfterWrite(a, i, op), hand)
  {
    var c, b := a.chans[i], AfterWrite(a, i, op);
    var a1 := a.(wire := a.wire + [Wrote(c.cid, op.serial, op.id, op.ty, op.pdu)]);
    hide Sound, Pool, DestroyOp;
    PoolSameParts(a, a1);
    SoundSame(a, a1, hand + multiset{op});
    if op.ty.Req? || op.ty.Ind? {
      SoundArm(a, b, i, op, hand);
    } else if op.ty.Rsp? {
      var a2 := SetChan(a1, i, c.(inReq := false));
      PoolStill(a1, i, c.(inReq := false));
      SoundSame(a1, a2, hand + multiset{op});
      SoundDestroy(a2, op, hand);
    } else {
      SoundDestroy(a1, op, hand);
    }
  }

  lemma SoundShut(a: Att, i: nat, hand: multiset<Op>)
    requires i < |a.chans| && Sound(a, hand)
    ensures Sound(ShutChan(a, i), hand)
  {
    PoolStill(a, i, a.chans[i].(shut := true));
    assert Pool(ShutChan(a, i)) == Pool(SetChan(a, i, a.chans[i].(shut := true)));
  }

  lemma SoundRelease(a: Att, i: nat, op: Op, ty: OpType, how: How, hand: multiset<Op>)
    requires i < |a.chans| && Sound(a, hand) && Slot(a.chans[i], ty) == Some(op)
    ensures Sound(Release(a, i, op, ty, how), hand + multiset{op})
  {
    PoolSlot(a, i, ty, None);
    var b := Release(a, i, op, ty, how);
    assert Pool(b) == Pool(Emptied(a, i, ty));
    SoundMove(a, b, op, hand);
  }

  lemma SoundEnter(a: Att, i: nat, ty: OpType, op: Op, rsp: byte, data: seq<byte>, hand: multiset<Op>)
    requires i < |a.chans| && Sound(a, hand) && Slot(a.chans[i], ty) == Some(op) && Answers(rsp, op.opcode)
    ensures Sound(CallOp(a.(chans := a.chans[i := WithSlot(a.chans[i], ty, Some(op.(callback := false)))]), op, rsp, data), hand)
  {
    hide Books;
    var entered := a.(chans := a.chans[i := WithSlot(a.chans[i], ty, Some(op.(callback := false)))]);
    SoundSlot(a, entered, i, ty, op, op.(callback := false), hand);
    BookCall(Pool(Emptied(a, i, ty)) + hand, entered, op, rsp, data);
    PoolSameParts(entered, CallOp(entered, op, rsp, data));
  }

  lemma SoundLeave(a: Att, i: nat, ty: OpType, op: Op, hand: multiset<Op>)
    requires i < |a.chans| && Sound(a, hand) && Slot(a.chans[i], ty) == Some(op)
    ensures Sound(Wake(Release(DestroyOp(a, op), i, op, ty, ByResponse), i), hand)
  {
    hide Sound, Wake;
    SoundRelease(a, i, op, ty, ByResponse, hand);
    SoundDestroy(Release(a, i, op, ty, ByResponse), op, hand);
    assert Release(DestroyOp(a, op), i, op, ty, ByResponse) == DestroyOp(Release(a, i, op, ty, ByResponse), op);
    SoundWake(Release(DestroyOp(a, op), i, op, ty, ByResponse), i, hand);
  }

  lemma SoundFinish(a: Att, i: nat, ty: OpType, rsp: byte, data: seq<byte>, during: seq<Call>, hand: multiset<Op>)
    requires i < |a.chans| && Sound(a, hand)
    requires Slot(a.chans[i], ty).Some? ==> Answers(rsp, Slot(a.chans[i], ty).value.opcode)
    ensures Sound(Finish(a, i, ty, rsp, data, during), hand)
  {
    hide Sound, RunCalls, Wake, Release, DestroyOp, CallOp, WithSlot, Slot;
    match Slot(a.chans[i], ty)
    case None =>
    case Some(op) =>
      SoundEnter(a, i, ty, op, rsp, data, hand);
      var entered := a.(chans := a.chans[i := WithSlot(a.chans[i], ty, Some(op.(callback := false)))]);
      SoundRunCalls(CallOp(entered, op, rsp, data), if op.callback then during else [], hand);
      var a1 := CallAndRun(entered, op, rsp, data, during);
      match Slot(a1.chans[i], ty)
      case None =>
      case Some(op1) => SoundLeave(a1, i, ty, op1, hand);
  }

  lemma SoundRetry(a: Att, i: nat, op: Op, c: Chan, sure: bool, hand: multiset<Op>)
    requires i < |a.chans| && Sound(a, hand)
    requires a.chans[i].pendingReq == Some(op) && c.pendingReq == Some(op) && ChanPool(c) == ChanPool(a.chans[i])
    ensures Sound(Retry(a, i, op, c, sure), hand)
  {
    var b0 := SetChan(a, i, c);
    PoolStill(a, i, c);
    SoundSame(a, b0, hand);
    SoundRelease(b0, i, op, Req, ByRetry(sure), hand);
    var b1 := Release(b0, i, op, Req, ByRetry(sure));
    var b2 := Retry(a, i, op, c, sure);
    assert b2.chans == b1.chans && b2.reqQ == [op.(timer := 0)] + b1.reqQ;
    hide Sound, Release, Retry, Pool;
    SoundRequeue(b1, b2, op, hand);
  }

  // An operation in the hand loses its timer and goes to the head of the request queue.
  lemma SoundRequeue(a: Att, b: Att, op: Op, hand: multiset<Op>)
    requires Sound(a, hand + multiset{op})
    requires b.chans == a.chans && b.reqQ == [op.(timer := 0)] + a.reqQ && b.indQ == a.indQ && b.writeQ == a.writeQ
    requires LedgerOf(b) == LedgerOf(a).(timers := DropTimer(a.timers, op.timer))
    ensures Sound(b, hand)
  {
    hide Books, Pool, SharedPool;
    var op1 := op.(timer := 0);
    Assoc(Pool(a), hand, multiset{op});
    BookDisarm(Pool(a) + hand, LedgerOf(a), op);
    SharedMore(a, b, op1);
    PoolShared(b, a, op1);
    Shift(Pool(a), multiset{op1}, hand);
  }

  lemma SoundHandleRsp(a: Att, i: nat, opcode: byte, body: seq<byte>, env: RxEnv, during: seq<Call>, hand: multiset<Op>)
    requires i < |a.chans| && Sound(a, hand)
    ensures Sound(HandleRsp(a, i, opcode, body, env, during), hand)
  {
    hide Sound, Finish, Retry, Wake, ShutChan, RaisedLevel, ReqOpcodeOf;
    var c := a.chans[i];
    match c.pendingReq
    case None => SoundShut(a, i, hand);
    case Some(op) =>
      var raised := if opcode == ERROR_RSP && |body| == 4 then ChangeSecurity(c, body[3], env) else None;
      if raised.Some? {
        var sure := c.link.Local? || env.getOk;
        SoundRetry(a, i, op, raised.value, sure, hand);
        SoundWake(Retry(a, i, op, raised.value, sure), i, hand);
      } else if opcode == ERROR_RSP || (ReqOpcodeOf(opcode) != 0 && ReqOpcodeOf(opcode) == op.opcode) {
        SoundFinish(a, i, Req, opcode, body, during, hand);
      }
      SoundFinish(a, i, Req, ERROR_RSP, [], during, hand);
  }

  lemma SoundHandleNotify(a: Att, i: nat, opcode: byte, env: RxEnv, during: seq<Call>, hand: multiset<Op>)
    requires i < |a.chans| && Sound(a, hand)
    ensures Sound(HandleNotify(a, i, opcode, env, during), hand)
  {
    hide Books, RunCalls, DoSend, OpTypeOf;
    var a1 := a.(wire := a.wire + [Delivered(a.chans[i].cid, opcode)]);
    SoundRunCalls(a1.(wire := a1.wire + [Handled(a.chans[i].cid, opcode)]), during, hand);
    SoundSend(a1, ERROR_RSP, [opcode, 0, 0, ECODE_REQUEST_NOT_SUPPORTED], false, false, hand);
  }

  lemma IndOpcode(a: Att, i: nat)
    requires Places(a) && i < |a.chans| && a.chans[i].pendingInd.Some?
    ensures a.chans[i].pendingInd.value.opcode == HANDLE_IND
  {
    assert ChanOk(a.chans[i], a);
  }

  lemma SoundRead(a: Att, i: nat, bytes: seq<byte>, env: RxEnv, during: seq<Call>, hand: multiset<Op>)
    requires i < |a.chans| && Sound(a, hand) && Places(a)
    ensures Sound(DoRead(a, i, bytes, env, during), hand)
  {
    hide Sound, HandleRsp, HandleNotify, Finish, ShutChan, OpTypeOf;
    var c := a.chans[i];
    var pdu := if |bytes| <= c.mtu then bytes else bytes[..c.mtu];
    if |pdu| >= 1 {
      match OpTypeOf(pdu[0])
      case Rsp => SoundHandleRsp(a, i, pdu[0], pdu[1..], env, during, hand);
      case Conf =>
        SoundShut(a, i, hand);
        if c.pendingInd.Some? {
          IndOpcode(a, i);
          SoundFinish(a, i, Ind, HANDLE_CONF, [], during, hand);
        }
      case Req =>
        SoundShut(a, i, hand);
        PoolStill(a, i, c.(inReq := true));
        SoundSame(a, SetChan(a, i, c.(inReq := true)), hand);
        SoundHandleNotify(SetChan(a, i, c.(inReq := true)), i, pdu[0], env, during, hand);
      case _ => SoundHandleNotify(a, i, pdu[0], env, during, hand);
    }
  }
}
