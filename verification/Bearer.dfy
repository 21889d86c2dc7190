// The ATT bearer engine as the object it is: struct bt_att, updated in place by its API calls and
// event handlers.  Each method is proved to take State() where BearerSpec says.

module Bearer {
  import opened Wire
  import opened Opcodes
  import opened BearerSpec

  lemma RaisedChan(c: Chan, ecode: byte, env: RxEnv)
    requires ChangeSecurity(c, ecode, env).Some?
    ensures ChangeSecurity(c, ecode, env).value.cid == c.cid
  {
  }

  class BtAtt {
    var chans: seq<Chan>
    var mtu: u16
    var reqQ: seq<Op>
    var indQ: seq<Op>
    var writeQ: seq<Op>
    var notify: seq<byte>
    var crypto: bool
    var refs: nat
    var nextSendId: nat
    var nextSerial: nat
    var nextCid: nat
    var nextTimer: nat
    var timers: map<nat, Timer>
    ghost var life: seq<LifeEvent>
    ghost var wire: seq<WireEvent>

    ghost function State(): Att
      reads this
    {
      Att(chans, mtu, reqQ, indQ, writeQ, notify, crypto, refs, nextSendId, nextSerial, nextCid, nextTimer, timers, life, wire)
    }

    // bt_att_new
    constructor (link: Link, ioMtu: u16, level: int, crypto: bool)
      requires NewChan(0, link, ioMtu, level).Some?
      ensures NewAtt(link, ioMtu, level, crypto) == Some(State())
    {
      var c := NewChan(0, link, ioMtu, level).value;
      chans, mtu := [c], c.mtu;
      reqQ, indQ, writeQ, notify, this.crypto, refs := [], [], [], [], crypto, 1;
      nextSendId, nextSerial, nextCid, nextTimer := 0, 0, 1, 1;
      timers, life, wire := map[], [], [];
    }

    // ---- Ending an operation ---------------------------------------------------------------

    // destroy_att_send_op
    method DestroySendOp(op: Op)
      modifies this
      ensures State() == DestroyOp(old(State()), op)
    {
      if op.timer != 0 { timers := timers - {op.timer}; }
      if op.destroy { life := life + [Destroyed(op.serial)]; }
      life := life + [Freed(op.serial)];
      assert life == old(life) + DestroyNote(op) + [Freed(op.serial)];
    }

    // disc_att_send_op
    method DiscSendOp(op: Op, each: map<nat, seq<Call>>)
      modifies this
      ensures State() == DiscOp(old(State()), op, each)
    {
      Callback(op, ERROR_RSP, [], CallsOf(each, op));
      DestroySendOp(op);
    }

    // disc_att_send_op on what a slot of the lost channel held
    method DiscPending(o: Option<Op>, each: map<nat, seq<Call>>)
      modifies this
      ensures State() == DiscSlot(old(State()), o, each)
    {
      hide DiscOp;
      if o.Some? { DiscSendOp(o.value, each); }
    }

    // queue_remove_all(queue, NULL, NULL, destroy_att_send_op) on entries already taken off
    method DestroyAll(ops: seq<Op>)
      modifies this
      ensures State() == DestroyOps(old(State()), ops)
    {
      var k := 0;
      while k < |ops|
        invariant k <= |ops|
        invariant DestroyOps(State(), ops[k..]) == DestroyOps(old(State()), ops)
      {
        DestroySendOp(ops[k]);
        assert ops[k..][1..] == ops[k + 1..];
        k := k + 1;
      }
    }

    // queue_remove_all(queue, NULL, NULL, disc_att_send_op) on entries already taken off
    method DiscAll(ops: seq<Op>, each: map<nat, seq<Call>>)
      modifies this
      ensures State() == DiscOps(old(State()), ops, each)
    {
      hide DiscOp;
      var k := 0;
      while k < |ops|
        invariant k <= |ops|
        invariant DiscOps(State(), ops[k..], each) == DiscOps(old(State()), ops, each)
      {
        DiscSendOp(ops[k], each);
        assert ops[k..][1..] == ops[k + 1..];
        k := k + 1;
      }
    }

    // cancel_att_send_op on the operation in a slot
    method CancelSlot(i: nat, ty: OpType)
      requires i < |chans|
      modifies this
      ensures State() == StripSlot(old(State()), i, ty)
    {
      var o := Slot(chans[i], ty);
      if o.Some? {
        if o.value.destroy { life := life + [Destroyed(o.value.serial)]; }
        assert life == old(life) + DestroyNote(o.value);
        chans := chans[i := WithSlot(chans[i], ty, Some(o.value.(callback := false, destroy := false)))];
      }
    }

    // ---- Writer wake-up --------------------------------------------------------------------

    // wakeup_chan_writer
    method WakeupChanWriter(i: nat)
      requires i < |chans|
      modifies this
      ensures State() == Wake(old(State()), i)
    {
      var c := chans[i];
      if c.writerActive {
        assert chans[i := c] == chans;
        return;
      }
      if c.queue == [] && writeQ == [] {
        if (c.pendingReq.Some? || reqQ == []) && (c.pendingInd.Some? || indQ == []) {
          assert chans[i := c] == chans;
          return;
        }
      }
      chans := chans[i := c.(writerActive := true)];
    }

    // wakeup_writer
    method WakeupWriter()
      modifies this
      ensures State() == WakeAll(old(State()))
    {
      var k := 0;
      ghost var all := WakeAll(State()).chans;
      while k < |chans|
        invariant k <= |chans| == |all|
        invariant State() == old(State()).(chans := chans)
        invariant forall j :: 0 <= j < |all| ==> chans[j] == if j < k then all[j] else old(chans)[j]
      {
        WakeupChanWriter(k);
        k := k + 1;
      }
      assert chans == all;
    }

    // ---- API -------------------------------------------------------------------------------

    // create_att_send_op
    method CreateSendOp(opcode: byte, payload: seq<byte>, callback: bool, destroy: bool) returns (op: Option<Op>)
      ensures op == CreateOp(State(), opcode, payload, callback, destroy)
    {
      var ty := OpTypeOf(opcode);
      if ty.Unknown? || callback != (ty.Req? || ty.Ind?) || 1 + |payload| > mtu { return None; }
      op := Some(Op(nextSerial, 0, 0, ty, opcode, [opcode] + payload, callback, destroy));
    }

    method EnqueueOp(op: Op)
      modifies this
      ensures State() == Enqueue(old(State()), op)
    {
      match op.ty {
        case Req => reqQ := reqQ + [op];
        case Ind => indQ := indQ + [op];
        case _ => writeQ := writeQ + [op];
      }
    }

    // bt_att_send
    method Send(opcode: byte, payload: seq<byte>, callback: bool, destroy: bool) returns (id: nat)
      modifies this
      ensures State() == DoSend(old(State()), opcode, payload, callback, destroy)
      ensures id == SentId(old(State()), opcode, payload, callback, destroy)
    {
      if chans == [] { return 0; }
      var made := CreateSendOp(opcode, payload, callback, destroy);
      if made.None? { return 0; }
      hide WakeAll, CreateOp, Enqueue, Accept;
      id := if nextSendId < 1 then 1 else nextSendId;
      AcceptOp(made.value.(id := id));
      nextSendId := id + 1;
      EnqueueOp(made.value.(id := id));
      WakeupWriter();
    }

    method AcceptOp(op: Op)
      modifies this`nextSerial, this`life
      ensures State() == Accept(old(State()), op)
    {
      nextSerial := nextSerial + 1;
      life := life + [Accepted(op.serial, op.id, op.pdu, op.callback, op.destroy)];
    }

    // bt_att_chan_send
    method ChanSendOp(i: nat, opcode: byte, payload: seq<byte>, callback: bool, destroy: bool)
      modifies this
      ensures State() == DoChanSend(old(State()), i, opcode, payload, callback, destroy)
    {
      if i >= |chans| { return; }
      var made := CreateSendOp(opcode, payload, callback, destroy);
      if made.None? { return; }
      hide CreateOp;
      var op := made.value;
      AcceptOp(op);
      chans := chans[i := chans[i].(queue := chans[i].queue + [op])];
      WakeupChanWriter(i);
    }

    // bt_att_chan_cancel
    method CancelOnChan(i: nat, id: nat) returns (done: bool)
      requires i < |chans|
      modifies this
      ensures (State(), done) == ChanCancel(old(State()), i, id)
    {
      var c := chans[i];
      if c.pendingReq.Some? && c.pendingReq.value.id == id {
        CancelSlot(i, Req);
        return true;
      }
      if c.pendingInd.Some? && c.pendingInd.value.id == id {
        CancelSlot(i, Ind);
        return true;
      }
      var j := FindId(c.queue, id);
      if j == |c.queue| { return false; }
      chans := chans[i := c.(queue := c.queue[..j] + c.queue[j + 1..])];
      DestroySendOp(c.queue[j]);
      WakeupChanWriter(i);
      return true;
    }

    // bt_att_cancel
    method CancelOp(id: nat) returns (done: bool)
      modifies this
      ensures (State(), done) == DoCancel(old(State()), id)
    {
      hide ChanCancel, WakeAll;
      if id == 0 { return false; }
      var i := 0;
      while i < |chans|
        invariant i <= |chans| && State() == old(State())
        invariant CancelOnChans(State(), i, id) == CancelOnChans(old(State()), 0, id)
      {
        done := CancelOnChan(i, id);
        if done { return true; }
        i := i + 1;
      }
      done := CancelShared(id);
    }

    // The part of bt_att_cancel that looks through the shared queues.
    method CancelShared(id: nat) returns (done: bool)
      requires id != 0 && CancelOnChans(State(), 0, id) == (State(), false)
      modifies this
      ensures (State(), done) == DoCancel(old(State()), id)
    {
      hide WakeAll, CancelOnChans;
      var j := FindId(reqQ, id);
      if j < |reqQ| {
        var op := reqQ[j];
        reqQ := reqQ[..j] + reqQ[j + 1..];
        DestroySendOp(op);
        WakeupWriter();
        return true;
      }
      j := FindId(indQ, id);
      if j < |indQ| {
        var op := indQ[j];
        indQ := indQ[..j] + indQ[j + 1..];
        DestroySendOp(op);
        WakeupWriter();
        return true;
      }
      j := FindId(writeQ, id);
      if j < |writeQ| {
        var op := writeQ[j];
        writeQ := writeQ[..j] + writeQ[j + 1..];
        DestroySendOp(op);
        WakeupWriter();
        return true;
      }
      return false;
    }

    method DestroySharedQueues()
      modifies this
      ensures State() == DestroyQueues(old(State()))
    {
      hide DestroyOps;
      var ops := reqQ;
      reqQ := [];
      DestroyAll(ops);
      ops := indQ;
      indQ := [];
      DestroyAll(ops);
      ops := writeQ;
      writeQ := [];
      DestroyAll(ops);
    }

    method DiscSharedQueues(each: map<nat, seq<Call>>)
      modifies this
      ensures State() == DiscQueues(old(State()), each)
    {
      hide DiscOps;
      var ops := reqQ;
      reqQ := [];
      DiscAll(ops, each);
      ops := indQ;
      indQ := [];
      DiscAll(ops, each);
      ops := writeQ;
      writeQ := [];
      DiscAll(ops, each);
    }

    // bt_att_cancel_all
    method CancelAllOps()
      modifies this
      ensures State() == DoCancelAll(old(State()))
    {
      hide StripSlot;
      DestroySharedQueues();
      var i := 0;
      while i < |chans|
        invariant i <= |chans|
        invariant StripFrom(State(), i) == DoCancelAll(old(State()))
      {
        CancelSlot(i, Req);
        CancelSlot(i, Ind);
        i := i + 1;
      }
    }

    // bt_att_set_mtu
    method UpdateMtu(newMtu: u16) returns (ok: bool)
      modifies this
      ensures State() == DoSetMtu(old(State()), newMtu) && ok == MtuTaken(old(State()), newMtu)
    {
      if newMtu < DEFAULT_LE_MTU { return false; }
      if chans == [] { return true; }
      var t := |chans| - 1;
      chans := chans[t := chans[t].(mtu := newMtu)];
      if newMtu > mtu { mtu := newMtu; }
      return true;
    }

    // bt_att_set_security
    method UpdateSecurity(level: int, setOk: bool) returns (ok: bool)
      modifies this
      ensures State() == DoSetSecurity(old(State()), level, setOk) && ok == SecurityTaken(old(State()), level, setOk)
    {
      if level < SEC_AUTO || level > SEC_HIGH { return false; }
      if chans == [] { return true; }
      var t := |chans| - 1;
      var c := SetChanSecurity(chans[t], level, setOk);
      if c.Some? {
        chans := chans[t := c.value];
        wire := wire + [SecuritySet(c.value.cid)];
      }
      return c.Some?;
    }

    method MakeCall(call: Call)
      modifies this
      ensures State() == DoCall(old(State()), call)
    {
      match call {
        case Send(opcode, payload, callback, destroy) => var _ := Send(opcode, payload, callback, destroy);
        case ChanSend(i, opcode, payload, callback, destroy) => ChanSendOp(i, opcode, payload, callback, destroy);
        case Cancel(id) => var _ := CancelOp(id);
        case CancelAll => CancelAllOps();
        case SetMtu(newMtu) => var _ := UpdateMtu(newMtu);
        case SetSecurity(level, setOk) => var _ := UpdateSecurity(level, setOk);
      }
    }

    // The body of a callback: any list of API calls.
    method MakeCalls(calls: seq<Call>)
      modifies this
      ensures State() == RunCalls(old(State()), calls)
    {
      var k := 0;
      while k < |calls|
        invariant k <= |calls|
        invariant RunCalls(State(), calls[k..]) == RunCalls(old(State()), calls)
      {
        MakeCall(calls[k]);
        assert calls[k..][1..] == calls[k + 1..];
        k := k + 1;
      }
    }

    method Callback(op: Op, rsp: byte, data: seq<byte>, during: seq<Call>)
      modifies this
      ensures State() == CallAndRun(old(State()), op, rsp, data, during)
    {
      if op.callback {
        life := life + [Called(op.serial, op.opcode, rsp, data)];
        MakeCalls(during);
      } else {
        MakeCalls([]);
      }
    }

    // ---- Event handlers --------------------------------------------------------------------

    // pick_next_send_op
    method PickNextSendOp(i: nat) returns (op: Option<Op>)
      requires i < |chans|
      modifies this
      ensures (op, State()) == PickNext(old(State()), i)
    {
      var c := chans[i];
      if c.queue != [] {
        chans := chans[i := c.(queue := c.queue[1..])];
        return Some(c.queue[0]);
      }
      if writeQ != [] && |writeQ[0].pdu| <= c.mtu {
        op := Some(writeQ[0]);
        writeQ := writeQ[1..];
        return;
      }
      if c.pendingReq.None? {
        if reqQ != [] && |reqQ[0].pdu| <= c.mtu {
          op := Some(reqQ[0]);
          reqQ := reqQ[1..];
          return;
        }
      }
      if c.pendingInd.None? {
        if indQ != [] && |indQ[0].pdu| <= c.mtu {
          op := Some(indQ[0]);
          indQ := indQ[1..];
          return;
        }
      }
      return None;
    }

    // can_write_data; `written` is io_send's result
    method CanWriteData(i: nat, written: int, during: seq<Call>)
      requires i < |chans|
      modifies this
      ensures State() == DoWrite(old(State()), i, written, during)
    {
      var next := PickNextSendOp(i);
      if next.None? {
        chans := chans[i := chans[i].(writerActive := false)];
        return;
      }
      var op := next.value;
      if written == 0 {
        Callback(op, ERROR_RSP, [], during);
        DestroySendOp(op);
        return;
      }
      hide AfterWrite;
      Written(i, op);
    }

    // The part of can_write_data behind a write that succeeded.
    method Written(i: nat, op: Op)
      requires i < |chans|
      modifies this
      ensures State() == AfterWrite(old(State()), i, op)
    {
      wire := wire + [Wrote(chans[i].cid, op.serial, op.id, op.ty, op.pdu)];
      match op.ty {
        case Req | Ind =>
          timers := timers[nextTimer := Timer(chans[i].cid, op.id)];
          chans := chans[i := WithSlot(chans[i], op.ty, Some(op.(timer := nextTimer)))];
          nextTimer := nextTimer + 1;
        case Rsp =>
          chans := chans[i := chans[i].(inReq := false)];
          DestroySendOp(op);
        case _ =>
          DestroySendOp(op);
      }
    }

    // io_shutdown
    method Shutdown(i: nat)
      requires i < |chans|
      modifies this
      ensures State() == ShutChan(old(State()), i)
    {
      wire := wire + [ShutDown(chans[i].cid)];
      chans := chans[i := chans[i].(shut := true)];
    }

    method Complete(i: nat, ty: OpType, rsp: byte, data: seq<byte>, during: seq<Call>)
      requires i < |chans|
      modifies this
      ensures State() == Finish(old(State()), i, ty, rsp, data, during)
    {
      var o := Slot(chans[i], ty);
      if o.None? { return; }
      var op := o.value;
      chans := chans[i := WithSlot(chans[i], ty, Some(op.(callback := false)))];
      Callback(op, rsp, data, during);
      o := Slot(chans[i], ty);
      if o.None? { return; }
      DestroySendOp(o.value);
      wire := wire + [Ended(chans[i].cid, o.value.serial, ty, ByResponse)];
      chans := chans[i := WithSlot(chans[i], ty, None)];
      WakeupChanWriter(i);
    }

    // handle_error_rsp: true when the request is retried
    method HandleErrorRsp(i: nat, body: seq<byte>, env: RxEnv) returns (retried: bool, named: byte)
      requires i < |chans| && chans[i].pendingReq.Some?
      modifies this
      ensures named == NamedRequest(ERROR_RSP, body)
      ensures var a, op := old(State()), old(chans)[i].pendingReq.value;
              var raised := if |body| == 4 then ChangeSecurity(a.chans[i], body[3], env) else None;
              retried == raised.Some?
              && State() == if retried then Retry(a, i, op, raised.value, a.chans[i].link.Local? || env.getOk) else a
    {
      hide ChangeSecurity, OpTypeOf;
      named := 0;
      if |body| != 4 { return false, 0; }
      named := body[0];
      var c := ChangeSecurity(chans[i], body[3], env);
      if c.None? { return false, named; }
      RaisedChan(chans[i], body[3], env);
      var op := chans[i].pendingReq.value;
      if op.timer != 0 { timers := timers - {op.timer}; }
      var sure := chans[i].link.Local? || env.getOk;
      wire := wire + [Ended(chans[i].cid, op.serial, Req, ByRetry(sure))];
      chans := chans[i := c.value.(pendingReq := None)];
      reqQ := [op.(timer := 0)] + reqQ;
      retried := true;
      assert chans == old(chans)[i := c.value][i := c.value.(pendingReq := None)];
    }

    // handle_rsp
    method OnResponse(i: nat, opcode: byte, body: seq<byte>, env: RxEnv, during: seq<Call>)
      requires i < |chans|
      modifies this
      ensures State() == HandleRsp(old(State()), i, opcode, body, env, during)
    {
      if chans[i].pendingReq.None? {
        Shutdown(i);
        return;
      }
      var op := chans[i].pendingReq.value;
      var named: byte;
      if opcode == ERROR_RSP {
        var retried;
        retried, named := HandleErrorRsp(i, body, env);
        if retried {
          WakeupChanWriter(i);
          return;
        }
      } else {
        named := ReqOpcodeOf(opcode);
      }
      if named != 0 && named == op.opcode {
        Complete(i, Req, opcode, body, during);
      } else {
        Complete(i, Req, ERROR_RSP, [], during);
      }
    }

    // Whether a handler is registered for the opcode
    method FindHandler(opcode: byte) returns (found: bool)
      ensures found == HasHandler(notify, opcode)
    {
      var k := 0;
      found := false;
      while k < |notify| && !found
        invariant k <= |notify|
        invariant found <==> exists j :: 0 <= j < k && OpcodeMatch(notify[j], opcode)
      {
        found := OpcodeMatch(notify[k], opcode);
        k := k + 1;
      }
    }

    // handle_notify
    method OnNotify(i: nat, opcode: byte, env: RxEnv, during: seq<Call>)
      requires i < |chans|
      modifies this
      ensures State() == HandleNotify(old(State()), i, opcode, env, during)
    {
      wire := wire + [Delivered(chans[i].cid, opcode)];
      var found := FindHandler(opcode);
      hide HasHandler, RunCalls, DoSend, OpTypeOf;
      if found && Signed(opcode) && crypto && !env.signedOk {
        refs := refs + 1;
        return;
      }
      if found && !(chans[|chans| - 1].link.BrEdr? && opcode == MTU_REQ) {
        wire := wire + [Handled(chans[i].cid, opcode)];
        MakeCalls(during);
      } else if !OpTypeOf(opcode).Cmd? {
        var _ := Send(ERROR_RSP, [opcode, 0, 0, ECODE_REQUEST_NOT_SUPPORTED], false, false);
      }
    }

    // can_read_data
    method CanReadData(i: nat, bytes: seq<byte>, env: RxEnv, during: seq<Call>)
      requires i < |chans|
      modifies this
      ensures State() == DoRead(old(State()), i, bytes, env, during)
    {
      var pdu := if |bytes| <= chans[i].mtu then bytes else bytes[..chans[i].mtu];
      if |pdu| < 1 { return; }
      match OpTypeOf(pdu[0]) {
        case Rsp => OnResponse(i, pdu[0], pdu[1..], env, during);
        case Conf =>
          if chans[i].pendingInd.None? || pdu[1..] != [] {
            Shutdown(i);
          } else {
            Complete(i, Ind, HANDLE_CONF, [], during);
          }
        case Req =>
          if chans[i].inReq {
            Shutdown(i);
            return;
          }
          chans := chans[i := chans[i].(inReq := true)];
          OnNotify(i, pdu[0], env, during);
        case _ => OnNotify(i, pdu[0], env, during);
      }
    }

    // timeout_cb
    method TimeoutCb(tid: nat, first: seq<Call>, during: seq<Call>)
      modifies this
      ensures State() == DoTimeout(old(State()), tid, first, during)
    {
      if tid !in timers { return; }
      var t := timers[tid];
      timers := timers - {tid};
      var i := FindChan(chans, t.cid);
      if i == |chans| { return; }
      var ty;
      if chans[i].pendingReq.Some? && chans[i].pendingReq.value.id == t.opId {
        ty := Req;
      } else if chans[i].pendingInd.Some? && chans[i].pendingInd.value.id == t.opId {
        ty := Ind;
      } else {
        return;
      }
      hide TimeOut;
      FailPending(i, ty, first, during);
    }

    // The part of timeout_cb that ends the operation it found.
    method FailPending(i: nat, ty: OpType, first: seq<Call>, during: seq<Call>)
      requires i < |chans| && Slot(chans[i], ty).Some?
      modifies this
      ensures State() == TimeOut(old(State()), i, ty, first, during)
    {
      hide RunCalls, CallAndRun;
      var op := Slot(chans[i], ty).value;
      wire := wire + [Ended(chans[i].cid, op.serial, ty, ByTimeout)];
      chans := chans[i := WithSlot(chans[i], ty, None)];
      MakeCalls(first);
      Callback(op, ERROR_RSP, [], during);
      DestroySendOp(op.(timer := 0));
      Shutdown(i);
    }

    // The part of disconnect_cb that fails the operations, once the channel is detached.
    method FailOperations(c: Chan, each: map<nat, seq<Call>>)
      modifies this
      ensures var b := DiscQueues(old(State()), each);
              State() == DestroyOps(DiscSlot(DiscSlot(b, c.pendingReq, each), c.pendingInd, each), c.queue)
    {
      hide DiscQueues, DestroyOps, DiscSlot;
      DiscSharedQueues(each);
      DiscPending(c.pendingReq, each);
      DiscPending(c.pendingInd, each);
      DestroyAll(c.queue);
    }

    // disconnect_cb
    method DisconnectCb(i: nat, each: map<nat, seq<Call>>, after: seq<Call>)
      requires i < |chans|
      modifies this
      ensures State() == DoDisconnect(old(State()), i, each, after)
    {
      hide DiscQueues, DestroyOps, DiscSlot, RunCalls;
      var c := chans[i];
      wire := wire + [Closed(c.cid)];
      chans := chans[..i] + chans[i + 1..];
      FailOperations(c, each);
      if chans == [] {
        MakeCalls(after);
        notify := [];
      }
    }

    // bt_att_chan_free
    method FreeChannel(c: Chan)
      modifies this
      ensures State() == FreeChan(old(State()), c)
    {
      hide DestroyOps, DestroyOp;
      if c.pendingReq.Some? { DestroySendOp(c.pendingReq.value); }
      if c.pendingInd.Some? { DestroySendOp(c.pendingInd.value); }
      DestroyAll(c.queue);
      wire := wire + [Closed(c.cid)];
    }

    // bt_att_unref on the last reference, with bt_att_free
    method Teardown()
      modifies this
      ensures State() == DoClose(old(State()))
    {
      hide DoCancelAll, FreeChan;
      notify := [];
      CancelAllOps();
      while chans != []
        invariant FreeChans(State()) == DoClose(old(State()))
        decreases |chans|
      {
        var c := chans[0];
        chans := chans[1..];
        FreeChannel(c);
      }
    }

    // bt_att_unref
    method DropRef()
      modifies this
      ensures State() == DoUnref(old(State()))
    {
      hide DoClose;
      if refs == 0 { return; }
      refs := refs - 1;
      if refs == 0 { Teardown(); }
    }

    // bt_att_attach_fd
    method AttachFd(ioMtu: u16, level: int)
      modifies this
      ensures State() == DoAttach(old(State()), ioMtu, level)
    {
      var c := NewChan(nextCid, Eatt, ioMtu, level);
      if c.None? { return; }
      chans, nextCid := [c.value] + chans, nextCid + 1;
      if c.value.mtu > mtu { mtu := c.value.mtu; }
      WakeupChanWriter(0);
    }

    // bt_att_unregister, by the position of the handler
    method UnregisterHandler(k: nat) returns (ok: bool)
      modifies this`notify
      ensures ok == (k < old(|notify|))
      ensures notify == if ok then old(notify)[..k] + old(notify)[k + 1..] else old(notify)
    {
      if k >= |notify| { return false; }
      notify := notify[..k] + notify[k + 1..];
      return true;
    }

    // One turn of the event loop.
    method Turn(act: Action)
      modifies this
      ensures State() == Step(old(State()), act)
    {
      hide DoCall, DoWrite, DoRead, DoTimeout, DoDisconnect, DoAttach, DoClose;
      match act {
        case Api(call) => MakeCall(call);
        case Register(opcode) => if chans != [] { notify := notify + [opcode]; }
        case Unregister(k) => var _ := UnregisterHandler(k);
        case UnregisterAll => notify := [];
        case WriterReady(i, written, during) =>
          if i < |chans| && chans[i].writerActive { CanWriteData(i, written, during); }
        case Received(i, bytes, env, during) => if i < |chans| { CanReadData(i, bytes, env, during); }
        case TimerFired(tid, first, during) => TimeoutCb(tid, first, during);
        case Disconnected(i, each, after) => if i < |chans| { DisconnectCb(i, each, after); }
        case Attach(ioMtu, level) => AttachFd(ioMtu, level);
        case Ref => if refs != 0 { refs := refs + 1; }
        case Unref => DropRef();
      }
    }
  }
}
