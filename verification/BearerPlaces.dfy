// Operations stay where their type belongs, and API calls leave the channels' protocol state alone.

module BearerPlaces {
  import opened Wire
  import opened Opcodes
  import opened BearerSpec
  import opened BearerSound

  // ---- API calls -----------------------------------------------------------------------------

  lemma KeepDestroy(a: Att, op: Op)
    requires Places(a)
    ensures Places(DestroyOp(a, op)) && Quiet(a, DestroyOp(a, op))
  {
  }

  lemma {:induction false} KeepDestroyOps(a: Att, ops: seq<Op>)
    requires Places(a)
    ensures var b := DestroyOps(a, ops);
            Places(b) && Quiet(a, b) && b.reqQ == a.reqQ && b.indQ == a.indQ && b.writeQ == a.writeQ && b.mtu == a.mtu
    decreases |ops|
  {
    if ops != [] {
      KeepDestroyOps(DestroyOp(a, ops[0]), ops[1..]);
    }
  }

  lemma KeepCall(a: Att, op: Op, rsp: byte, data: seq<byte>)
    requires Places(a)
    ensures Places(CallOp(a, op, rsp, data)) && Quiet(a, CallOp(a, op, rsp, data))
  {
  }

  // Only the channels change, one by one.
  lemma KeepChans(a: Att, b: Att)
    requires Places(a) && |b.chans| == |a.chans|
    requires b.reqQ == a.reqQ && b.indQ == a.indQ && b.writeQ == a.writeQ
    requires b.mtu == a.mtu && b.wire == a.wire && b.notify == a.notify && b.crypto == a.crypto && b.nextCid == a.nextCid && b.nextTimer == a.nextTimer
    requires forall i :: 0 <= i < |a.chans| ==> ChanOk(b.chans[i], b) && Still(a.chans[i], b.chans[i])
    ensures Places(b) && Quiet(a, b)
  {
    forall i, j | 0 <= i < j < |b.chans| ensures b.chans[i].cid > b.chans[j].cid {
      assert Still(a.chans[i], b.chans[i]) && Still(a.chans[j], b.chans[j]);
    }
  }

  lemma KeepStripSlot(a: Att, i: nat, ty: OpType)
    requires i < |a.chans| && Places(a)
    ensures Places(StripSlot(a, i, ty)) && Quiet(a, StripSlot(a, i, ty))
  {
    var b := StripSlot(a, i, ty);
    hide Places, Quiet, OpTypeOf;
    forall k | 0 <= k < |a.chans| ensures ChanOk(b.chans[k], b) && Still(a.chans[k], b.chans[k]) {
      assert ChanOk(a.chans[k], a) by { PlacesChan(a, k); }
    }
    KeepChans(a, b);
  }

  lemma PlacesChan(a: Att, k: nat)
    requires Places(a) && k < |a.chans|
    ensures ChanOk(a.chans[k], a)
  {
  }

  lemma KeepWake(a: Att, i: nat)
    requires i < |a.chans| && Places(a)
    ensures Places(Wake(a, i)) && Quiet(a, Wake(a, i))
  {
  }

  lemma KeepWakeAll(a: Att)
    requires Places(a)
    ensures Places(WakeAll(a)) && Quiet(a, WakeAll(a))
  {
    var b := WakeAll(a);
    hide Places, Quiet, OpTypeOf, OpOk;
    forall k | 0 <= k < |a.chans| ensures ChanOk(b.chans[k], b) && Still(a.chans[k], b.chans[k]) {
      assert ChanOk(a.chans[k], a) by { PlacesChan(a, k); }
    }
    KeepChans(a, b);
  }

  lemma QuietTrans(a: Att, b: Att, c: Att)
    requires Quiet(a, b) && Quiet(b, c)
    ensures Quiet(a, c)
  {
  }

  lemma KeepSend(a: Att, opcode: byte, payload: seq<byte>, callback: bool, destroy: bool)
    requires Places(a)
    ensures var b := DoSend(a, opcode, payload, callback, destroy); Places(b) && Quiet(a, b)
  {
    if a.chans != [] {
      match CreateOp(a, opcode, payload, callback, destroy)
      case None =>
      case Some(op) =>
        hide WakeAll, OpTypeOf;
        var b := Enqueue(Accept(a, op.(id := NextId(a))).(nextSendId := NextId(a) + 1), op.(id := NextId(a)));
        assert Places(b) && Quiet(a, b);
        KeepWakeAll(b);
        QuietTrans(a, b, WakeAll(b));
    }
  }

  lemma KeepChanSend(a: Att, i: nat, opcode: byte, payload: seq<byte>, callback: bool, destroy: bool)
    requires Places(a) && !OpTypeOf(opcode).Req? && !OpTypeOf(opcode).Ind?
    ensures var b := DoChanSend(a, i, opcode, payload, callback, destroy); Places(b) && Quiet(a, b)
  {
    if i < |a.chans| {
      match CreateOp(a, opcode, payload, callback, destroy)
      case None =>
      case Some(op) =>
        hide Wake, OpTypeOf;
        var c := a.chans[i];
        var b := Accept(a, op).(chans := a.chans[i := c.(queue := c.queue + [op])]);
        assert Places(b) && Quiet(a, b);
        KeepWake(b, i);
        QuietTrans(a, b, Wake(b, i));
    }
  }

  lemma KeepChanCancel(a: Att, i: nat, id: nat)
    requires i < |a.chans| && Places(a)
    ensures var b := ChanCancel(a, i, id).0; Places(b) && Quiet(a, b)
  {
    hide StripSlot, Wake, Places, Quiet, DestroyOp;
    KeepStripSlot(a, i, Req);
    KeepStripSlot(a, i, Ind);
    QuietSame(a);
    var j := FindId(a.chans[i].queue, id);
    if j < |a.chans[i].queue| {
      KeepDropQueued(a, i, j);
    }
  }

  lemma KeepDropQueued(a: Att, i: nat, j: nat)
    requires i < |a.chans| && j < |a.chans[i].queue| && Places(a)
    ensures var c := a.chans[i];
            var b := Wake(DestroyOp(a.(chans := a.chans[i := c.(queue := Without(c.queue, j))]), c.queue[j]), i);
            Places(b) && Quiet(a, b)
  {
    hide Wake, OpOk;
    var c := a.chans[i];
    var b := DestroyOp(a.(chans := a.chans[i := c.(queue := Without(c.queue, j))]), c.queue[j]);
    assert ChanOk(c, a);
    assert Places(b) && Quiet(a, b);
    KeepWake(b, i);
    QuietTrans(a, b, Wake(b, i));
  }

  lemma QuietSame(a: Att)
    ensures Quiet(a, a)
  {
  }

  lemma {:induction false} KeepCancelOnChans(a: Att, i: nat, id: nat)
    requires i <= |a.chans| && Places(a)
    ensures var b := CancelOnChans(a, i, id).0; Places(b) && Quiet(a, b)
    decreases |a.chans| - i
  {
    QuietSame(a);
    hide ChanCancel, Places, Quiet;
    if i < |a.chans| {
      KeepChanCancel(a, i, id);
      if !ChanCancel(a, i, id).1 {
        KeepCancelOnChans(a, i + 1, id);
      }
    }
  }

  // An operation leaves a shared queue.
  lemma KeepDropShared(a: Att, b: Att, op: Op)
    requires Places(a) && Places(b) && Quiet(a, b)
    ensures Places(WakeAll(DestroyOp(b, op))) && Quiet(a, WakeAll(DestroyOp(b, op)))
  {
    hide WakeAll, Places, Quiet;
    KeepDestroy(b, op);
    KeepWakeAll(DestroyOp(b, op));
    QuietTrans(b, DestroyOp(b, op), WakeAll(DestroyOp(b, op)));
    QuietTrans(a, b, WakeAll(DestroyOp(b, op)));
  }

  lemma KeepWithout(a: Att)
    requires Places(a)
    ensures forall j :: 0 <= j < |a.reqQ| ==> var b := a.(reqQ := Without(a.reqQ, j)); Places(b) && Quiet(a, b)
    ensures forall j :: 0 <= j < |a.indQ| ==> var b := a.(indQ := Without(a.indQ, j)); Places(b) && Quiet(a, b)
    ensures forall j :: 0 <= j < |a.writeQ| ==> var b := a.(writeQ := Without(a.writeQ, j)); Places(b) && Quiet(a, b)
  {
    hide OpOk;
  }

  lemma KeepCancel(a: Att, id: nat)
    requires Places(a)
    ensures var b := DoCancel(a, id).0; Places(b) && Quiet(a, b)
  {
    KeepWithout(a);
    QuietSame(a);
    hide CancelOnChans, WakeAll, DestroyOp, Places, Quiet, Without;
    KeepCancelOnChans(a, 0, id);
    var j, k, m := FindId(a.reqQ, id), FindId(a.indQ, id), FindId(a.writeQ, id);
    if j < |a.reqQ| {
      KeepDropShared(a, a.(reqQ := Without(a.reqQ, j)), a.reqQ[j]);
    } else if k < |a.indQ| {
      KeepDropShared(a, a.(indQ := Without(a.indQ, k)), a.indQ[k]);
    } else if m < |a.writeQ| {
      KeepDropShared(a, a.(writeQ := Without(a.writeQ, m)), a.writeQ[m]);
    }
  }

  lemma {:induction false} KeepStripFrom(a: Att, i: nat)
    requires i <= |a.chans| && Places(a)
    ensures Places(StripFrom(a, i)) && Quiet(a, StripFrom(a, i))
    decreases |a.chans| - i
  {
    hide StripSlot;
    if i < |a.chans| {
      var b := StripSlot(a, i, Req);
      var c := StripSlot(b, i, Ind);
      KeepStripSlot(a, i, Req);
      KeepStripSlot(b, i, Ind);
      KeepStripFrom(c, i + 1);
      QuietTrans(a, b, c);
      QuietTrans(a, c, StripFrom(c, i + 1));
    }
  }

  lemma KeepDestroyQueues(a: Att)
    requires Places(a)
    ensures var b := DestroyQueues(a); Places(b) && Quiet(a, b) && b.reqQ == [] && b.indQ == [] && b.writeQ == []
  {
    hide DestroyOps, Places, Quiet;
    KeepTaken(a);
    KeepDestroyTaken(a, a.(reqQ := []), a.reqQ);
    var a1 := DestroyOps(a.(reqQ := []), a.reqQ);
    KeepTaken(a1);
    KeepDestroyTaken(a1, a1.(indQ := []), a1.indQ);
    var a2 := DestroyOps(a1.(indQ := []), a1.indQ);
    KeepTaken(a2);
    KeepDestroyTaken(a2, a2.(writeQ := []), a2.writeQ);
    QuietTrans(a, a1, a2);
    QuietTrans(a, a2, DestroyQueues(a));
  }

  // A shared queue is emptied.
  lemma KeepTaken(a: Att)
    requires Places(a)
    ensures Places(a.(reqQ := [])) && Quiet(a, a.(reqQ := []))
    ensures Places(a.(indQ := [])) && Quiet(a, a.(indQ := []))
    ensures Places(a.(writeQ := [])) && Quiet(a, a.(writeQ := []))
  {
    hide OpOk;
  }

  lemma KeepDestroyTaken(a: Att, b: Att, ops: seq<Op>)
    requires Places(b) && Quiet(a, b)
    ensures var c := DestroyOps(b, ops);
            Places(c) && Quiet(a, c) && c.reqQ == b.reqQ && c.indQ == b.indQ && c.writeQ == b.writeQ
  {
    hide DestroyOps, Places, Quiet;
    KeepDestroyOps(b, ops);
    QuietTrans(a, b, DestroyOps(b, ops));
  }

  lemma KeepSetMtu(a: Att, mtu: u16)
    requires Places(a)
    ensures Places(DoSetMtu(a, mtu)) && Quiet(a, DoSetMtu(a, mtu))
  {
    var b := DoSetMtu(a, mtu);
    QueuesGrow(a.reqQ, Req, a.mtu, b.mtu);
    QueuesGrow(a.indQ, Ind, a.mtu, b.mtu);
    QueuesGrow(a.writeQ, Cmd, a.mtu, b.mtu);
    hide Queued, Writable, ChanOk, Still;
    forall i | 0 <= i < |a.chans| ensures ChanOk(b.chans[i], b) && Still(a.chans[i], b.chans[i]) {
      SetMtuChan(a, mtu, i);
    }
  }

  lemma SetMtuChan(a: Att, mtu: u16, i: nat)
    requires Places(a) && i < |a.chans|
    ensures var b := DoSetMtu(a, mtu); ChanOk(b.chans[i], b) && Still(a.chans[i], b.chans[i])
  {
    hide Queued, Writable;
    var b := DoSetMtu(a, mtu);
    assert ChanOk(a.chans[i], a);
    ChanGrows(a.chans[i], b.chans[i], a, b);
    hide ChanOk;
  }

  lemma QueuesGrow(q: seq<Op>, ty: OpType, m: u16, n: u16)
    requires m <= n
    ensures Queued(q, ty, m) ==> Queued(q, ty, n)
    ensures Writable(q, m) ==> Writable(q, n)
  {
    hide OpTypeOf;
  }

  lemma ChanGrows(c: Chan, d: Chan, a: Att, b: Att)
    requires ChanOk(c, a) && d == c.(mtu := d.mtu) && DEFAULT_LE_MTU <= d.mtu <= b.mtu && a.mtu <= b.mtu
    requires b == a.(chans := b.chans, mtu := b.mtu)
    ensures ChanOk(d, b)
  {
    hide OpTypeOf, Writable;
    QueuesGrow(c.queue, Cmd, a.mtu, b.mtu);
  }

  // Every API call but bt_att_set_security.
  lemma KeepDoCall(a: Att, call: Call)
    requires Places(a) && PlainCall(call) && !call.SetSecurity?
    ensures Places(DoCall(a, call)) && Quiet(a, DoCall(a, call))
  {
    hide Places, Quiet, DoSend, DoChanSend, DoCancel, DestroyQueues, StripFrom, DoSetMtu;
    match call
    case Send(opcode, payload, callback, destroy) => KeepSend(a, opcode, payload, callback, destroy);
    case ChanSend(i, opcode, payload, callback, destroy) => KeepChanSend(a, i, opcode, payload, callback, destroy);
    case Cancel(id) => KeepCancel(a, id);
    case CancelAll =>
      KeepDestroyQueues(a);
      KeepStripFrom(DestroyQueues(a), 0);
      QuietTrans(a, DestroyQueues(a), StripFrom(DestroyQueues(a), 0));
    case SetMtu(mtu) => KeepSetMtu(a, mtu);
  }
}
