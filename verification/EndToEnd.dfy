// A procedure of attrib/gatt.c run over the engine of src/shared/att.c.
//
// The procedure is one client among others on the bearer: its callbacks send its next request, and
// everything else (other procedures, requests of the peer, retries, timers, cancellations, other
// channels) goes on around it.  A peer that answers each of its requests well, on the wire, makes the
// procedure see a good list of replies, and so the theorems about that list hold of the run.

module EndToEnd {
  import opened Wire
  import opened Opcodes
  import opened Uuids
  import W = GattWire
  import opened BearerSpec
  import opened BearerBooks
  import opened BearerSound
  import opened BearerTalk
  import opened BearerRuns
  import opened BearerTheorems
  import opened BearerOrigin
  import Layers
  import P = GattPrimary
  import C = GattChars
  import D = GattDescs
  import L = GattLong
  import G = GAttribs

  // ---- A client ------------------------------------------------------------------------------

  // What its callback makes of a reply, and what it does next.
  datatype Client<!S(!new)> = Client(step: (S, W.Reply) -> S, next: S -> W.Next)

  // Its state after these replies; once its user has been called, nothing more is read.
  function Fold<S(!new)>(c: Client<S>, s: S, rs: seq<W.Reply>): S
    decreases |rs|
  {
    if rs == [] || c.next(s).Finish? then s else Fold(c, c.step(s, rs[0]), rs[1..])
  }

  // A request lost makes it call its user.
  ghost predicate Quits<S(!new)>(c: Client<S>) { forall s :: c.next(c.step(s, G.LOST)).Finish? }

  // Each reply answers the request asked for, or says that it was lost.
  ghost predicate Served<S(!new)>(c: Client<S>, answers: (seq<byte>, W.Reply) -> bool, s: S, rs: seq<W.Reply>)
    decreases |rs|
  {
    rs != [] ==>
      c.next(s).Ask? && (rs[0] == G.LOST || answers(c.next(s).req, rs[0])) && Served(c, answers, c.step(s, rs[0]), rs[1..])
  }

  // Each reply answers the request asked for.
  ghost predicate Answered<S(!new)>(c: Client<S>, answers: (seq<byte>, W.Reply) -> bool, s: S, rs: seq<W.Reply>)
    decreases |rs|
  {
    rs != [] ==> c.next(s).Ask? && answers(c.next(s).req, rs[0]) && Answered(c, answers, c.step(s, rs[0]), rs[1..])
  }

  // The first n replies are answers; if there is another, it is the last and says that a request was lost.
  ghost predicate Outcome<S(!new)>(c: Client<S>, answers: (seq<byte>, W.Reply) -> bool, s: S, rs: seq<W.Reply>, n: nat) {
    && n <= |rs| <= n + 1 && Answered(c, answers, s, rs[..n])
    && (n < |rs| ==> rs[n] == G.LOST && Fold(c, s, rs) == c.step(Fold(c, s, rs[..n]), G.LOST))
  }

  lemma {:induction false} UpToLoss<S(!new)>(c: Client<S>, answers: (seq<byte>, W.Reply) -> bool, s: S, rs: seq<W.Reply>) returns (n: nat)
    requires Quits(c) && Served(c, answers, s, rs)
    ensures Outcome(c, answers, s, rs, n)
    decreases |rs|
  {
    n := 0;
    if rs != [] {
      var t, rest := c.step(s, rs[0]), rs[1..];
      if rs[0] == G.LOST {
        assert Fold(c, t, rest) == t;
        assert Fold(c, s, rs[..0]) == s;
      } else {
        n := UpToLoss(c, answers, t, rest);
        assert rs[..n + 1][1..] == rest[..n] && rs[..n + 1][0] == rs[0];
        n := n + 1;
      }
    } else {
      assert rs[..0] == [];
    }
  }

  // ---- Its requests in the engine ------------------------------------------------------------

  // What the callback of operation k was given, if it has run.
  function ReplyAt(life: seq<LifeEvent>, k: nat): Option<W.Reply> {
    if life == [] then None
    else
      var e := life[|life| - 1];
      if e.Called? && e.serial == k then Some(G.ReplyOf(e.rsp, e.data)) else ReplyAt(life[..|life| - 1], k)
  }

  // Operation k was accepted with these bytes, a request's.
  predicate Asked(life: seq<LifeEvent>, k: nat, req: seq<byte>) {
    && req != [] && OpTypeOf(req[0]).Req?
    && var s := StageOf(life, k); s.Gone? || (s.Alive? && s.pdu == req)
  }

  // The callback sends this request and does nothing else.
  predicate SendsOn(a: Att, act: Action, req: seq<byte>) {
    && req != [] && OpTypeOf(req[0]).Req? && 1 <= |req| <= a.mtu
    && act.Received? && act.during == [Send(req[0], req[1..], true, true)]
  }

  // From a state s in which its request is operation k, the client hears the reply when k's callback
  // runs; its next request is then the operation accepted next.
  function Heard<S(!new)>(c: Client<S>, a: Att, acts: seq<Action>, s: S, k: nat): seq<W.Reply>
    decreases |acts|
  {
    if acts == [] || c.next(s).Finish? then []
    else
      var b := Step(a, acts[0]);
      match ReplyAt(b.life, k)
      case None => Heard(c, b, acts[1..], s, k)
      case Some(r) => [r] + Heard(c, b, acts[1..], c.step(s, r), a.nextSerial)
  }

  // The run is the client's: when it is to go on, its callback sends the next request, and the engine
  // accepts it.  Nothing is asked of the other turns.
  ghost predicate Played<S(!new)>(c: Client<S>, a: Att, acts: seq<Action>, s: S, k: nat)
    decreases |acts|
  {
    acts != [] && c.next(s).Ask? ==>
      var b := Step(a, acts[0]);
      && Plain(acts[0])
      && match ReplyAt(b.life, k)
         case None => Played(c, b, acts[1..], s, k)
         case Some(r) =>
           var t := c.step(s, r);
           && (c.next(t).Ask? && r != G.LOST ==> SendsOn(a, acts[0], c.next(t).req))
           && Played(c, b, acts[1..], t, a.nextSerial)
  }

  // The peer answers the bytes it was sent: a response that arrives while operation k is pending.
  predicate AnswersWell(a: Att, act: Action, k: nat, answers: (seq<byte>, W.Reply) -> bool) {
    act.Received? && act.i < |a.chans| ==>
      var c := a.chans[act.i];
      var pdu := ReadOf(c, act.bytes);
      pdu != [] && OpTypeOf(pdu[0]).Rsp? && c.pendingReq.Some? && c.pendingReq.value.serial == k ==>
        answers(c.pendingReq.value.pdu, G.ReplyOf(pdu[0], pdu[1..]))
  }

  ghost predicate Honest<S(!new)>(c: Client<S>, a: Att, acts: seq<Action>, s: S, k: nat, answers: (seq<byte>, W.Reply) -> bool)
    decreases |acts|
  {
    acts != [] && c.next(s).Ask? ==>
      var b := Step(a, acts[0]);
      && AnswersWell(a, acts[0], k, answers)
      && match ReplyAt(b.life, k)
         case None => Honest(c, b, acts[1..], s, k, answers)
         case Some(r) => Honest(c, b, acts[1..], c.step(s, r), a.nextSerial, answers)
  }

  // A response arrives for operation k, which still has its callback.
  predicate Answering(a: Att, act: Action, k: nat) {
    && act.Received? && act.i < |a.chans|
    && var c, pdu := a.chans[act.i], ReadOf(a.chans[act.i], act.bytes);
       && pdu != [] && OpTypeOf(pdu[0]).Rsp?
       && c.pendingReq.Some? && c.pendingReq.value.serial == k && c.pendingReq.value.callback
  }

  // ---- One turn ------------------------------------------------------------------------------

  lemma {:induction false} NewReply(x: seq<LifeEvent>, y: seq<LifeEvent>, k: nat) returns (j: nat)
    requires x <= y && ReplyAt(x, k).None? && ReplyAt(y, k).Some?
    ensures |x| <= j < |y| && y[j].Called? && y[j].serial == k && ReplyAt(y, k) == Some(G.ReplyOf(y[j].rsp, y[j].data))
    decreases |y|
  {
    if y == x {
      assert false;
    } else {
      var e := y[|y| - 1];
      if e.Called? && e.serial == k {
        j := |y| - 1;
      } else {
        j := NewReply(x, y[..|y| - 1], k);
      }
    }
  }

  // Accepted bytes stay, as long as the books are sound.
  lemma {:induction false} StaysAsked(x: seq<LifeEvent>, y: seq<LifeEvent>, k: nat, req: seq<byte>)
    requires x <= y && Asked(x, k, req) && !StageOf(y, k).Broken?
    ensures Asked(y, k, req)
    decreases |y|
  {
    if y == x {
    } else {
      var z := y[..|y| - 1];
      assert y[..|z|] == z;
      if StageOf(z, k).Broken? { BrokenStays(y, |z|, k); }
      StaysAsked(x, z, k, req);
      hide OpTypeOf, Opcodes.Answers;
    }
  }

  lemma NoneBroken(a: Att, k: nat)
    requires Inv(a)
    ensures !StageOf(a.life, k).Broken? && (k >= a.nextSerial ==> StageOf(a.life, k).Unborn?)
  {
    hide Kept;
    assert KeysBooked(Pool(a) + multiset{}, LedgerOf(a));
  }

  // An operation nobody has accepted has not been heard of.
  lemma {:induction false} UnbornUnheard(life: seq<LifeEvent>, k: nat)
    requires StageOf(life, k).Unborn?
    ensures ReplyAt(life, k).None?
  {
    if life != [] {
      hide Opcodes.Answers;
      UnbornUnheard(life[..|life| - 1], k);
    }
  }

  // What the client can hear in one turn.
  lemma HearsAnswer(a: Att, act: Action, k: nat, req: seq<byte>, answers: (seq<byte>, W.Reply) -> bool)
    requires Inv(a) && Asked(a.life, k, req) && ReplyAt(a.life, k).None? && AnswersWell(a, act, k, answers)
    requires Inv(Step(a, act)) && ReplyAt(Step(a, act).life, k).Some?
    ensures var r := ReplyAt(Step(a, act).life, k).value;
            r == G.LOST || (answers(req, r) && Answering(a, act, k))
  {
    hide Step, Inv, ToldBy, StoryOf, TallyOf, StageOf, ReadOf, OpTypeOf;
    RepliesComeFromThePeer(a, act);
    var b := Step(a, act);
    var j := NewReply(a.life, b.life, k);
    var e := b.life[j];
    if !Lost(e) {
      AnswersItsRequest(a, b, j, k, req);
      ToldResponse(a, act, e);
      PendingBooked(a, act.i);
      AskedAlive(a.life, k, req);
    }
  }

  lemma AskedAlive(life: seq<LifeEvent>, k: nat, req: seq<byte>)
    requires Asked(life, k, req) && StageOf(life, k).Alive?
    ensures StageOf(life, k).pdu == req
  {
  }

  // A request is not told a confirmation.
  lemma AnswersItsRequest(a: Att, b: Att, j: nat, k: nat, req: seq<byte>)
    requires Inv(b) && a.life <= b.life && Asked(a.life, k, req)
    requires |a.life| <= j < |b.life| && b.life[j].Called? && b.life[j].serial == k
    ensures b.life[j].rsp != HANDLE_CONF
  {
    hide Inv;
    var x := b.life[..j];
    assert b.life[..j + 1][..j] == x && x[..|a.life|] == a.life;
    NoneBroken(b, k);
    if StageOf(b.life[..j + 1], k).Broken? { BrokenStays(b.life, j + 1, k); }
    if StageOf(x, k).Broken? { BrokenStays(b.life, j, k); }
    StaysAsked(a.life, x, k, req);
  }

  // The callback's request, as the engine accepts it.
  lemma SendsAsked(a: Att, act: Action, k: nat, req: seq<byte>)
    requires Inv(a) && Inv(Step(a, act)) && SendsOn(a, act, req) && Answering(a, act, k)
    requires ReplyAt(a.life, k).None? && ReplyAt(Step(a, act).life, k).Some?
    ensures Asked(Step(a, act).life, a.nextSerial, req)
  {
    hide Inv, Asked, StageOf, ReplyAt, Step, SendsOn, Answering;
    NoneBroken(a, a.nextSerial);
    NoneBroken(Step(a, act), a.nextSerial);
    var m := ReadSends(a, act, k, req);
    var b := Step(a, act);
    if b.life != a.life {
      assert b.life[..m] <= b.life;
      StaysAsked(b.life[..m], b.life, a.nextSerial, req);
    }
  }

  lemma ReadSends(a: Att, act: Action, k: nat, req: seq<byte>) returns (m: nat)
    requires Inv(a) && SendsOn(a, act, req) && Answering(a, act, k)
    ensures Step(a, act).life == a.life || (m <= |Step(a, act).life| && Asked(Step(a, act).life[..m], a.nextSerial, req))
  {
    hide Inv, OpTypeOf, Asked, StageOf, ReadOf, StoryOf, TallyOf, HandleRsp, Step;
    NoneBroken(a, a.nextSerial);
    PendingBooked(a, act.i);
    ReadIsRsp(a, act, k);
    var pdu := ReadOf(a.chans[act.i], act.bytes);
    RspSends(a, act.i, pdu[0], pdu[1..], act.env, act.during, req);
    var b := HandleRsp(a, act.i, pdu[0], pdu[1..], act.env, act.during);
    m := 0;
    if b.life != a.life { m :| m <= |b.life| && Asked(b.life[..m], a.nextSerial, req); }
  }

  lemma ReadIsRsp(a: Att, act: Action, k: nat)
    requires Answering(a, act, k)
    ensures var pdu := ReadOf(a.chans[act.i], act.bytes);
            Step(a, act) == HandleRsp(a, act.i, pdu[0], pdu[1..], act.env, act.during)
  {
    hide OpTypeOf, HandleRsp, HandleConf, HandleNotify;
  }

  lemma RspSends(a: Att, i: nat, opcode: byte, body: seq<byte>, env: RxEnv, during: seq<Call>, req: seq<byte>)
    requires i < |a.chans| && a.chans[i].pendingReq.Some? && a.chans[i].pendingReq.value.callback
    requires req != [] && OpTypeOf(req[0]).Req? && |req| <= a.mtu && during == [Send(req[0], req[1..], true, true)]
    requires StageOf(a.life, a.nextSerial).Unborn? && a.chans[i].pendingReq.value.serial < a.nextSerial
    ensures var b := HandleRsp(a, i, opcode, body, env, during);
            b.life == a.life || exists m: nat :: m <= |b.life| && Asked(b.life[..m], a.nextSerial, req)
  {
    hide Finish, NamedRequest, ChangeSecurity, OpTypeOf, StageOf, Asked;
    FinishSends(a, i, opcode, body, during, req);
    FinishSends(a, i, ERROR_RSP, [], during, req);
  }

  lemma FinishSends(a: Att, i: nat, rsp: byte, data: seq<byte>, during: seq<Call>, req: seq<byte>)
    requires i < |a.chans| && a.chans[i].pendingReq.Some? && a.chans[i].pendingReq.value.callback
    requires req != [] && OpTypeOf(req[0]).Req? && |req| <= a.mtu && during == [Send(req[0], req[1..], true, true)]
    requires StageOf(a.life, a.nextSerial).Unborn? && a.chans[i].pendingReq.value.serial < a.nextSerial
    ensures var b := Finish(a, i, Req, rsp, data, during);
            exists m: nat :: m <= |b.life| && Asked(b.life[..m], a.nextSerial, req)
  {
    var op := a.chans[i].pendingReq.value;
    var entered := a.(chans := a.chans[i := WithSlot(a.chans[i], Req, Some(op.(callback := false)))]);
    var a2, b := CallAndRun(entered, op, rsp, data, during), Finish(a, i, Req, rsp, data, during);
    CalledSends(entered, op, rsp, data, req);
    hide StageOf, Asked, CallAndRun, OpTypeOf;
    assert a2.life <= b.life;
    assert b.life[..|a2.life|] == a2.life;
  }

  lemma CalledSends(a: Att, op: Op, rsp: byte, data: seq<byte>, req: seq<byte>)
    requires a.chans != [] && op.callback && req != [] && OpTypeOf(req[0]).Req? && |req| <= a.mtu
    requires StageOf(a.life, a.nextSerial).Unborn? && op.serial < a.nextSerial
    ensures Asked(CallAndRun(a, op, rsp, data, [Send(req[0], req[1..], true, true)]).life, a.nextSerial, req)
  {
    var a1, call := CallOp(a, op, rsp, data), Send(req[0], req[1..], true, true);
    Layers.RunSingle(a1, call);
    RequestCreated(a1, req);
    Layers.SendLife(a1, req[0], req[1..], true, true);
    hide RunCalls, DoSend, CreateOp, OpTypeOf;
    var called, sent := Called(op.serial, op.opcode, rsp, data), Accepted(a.nextSerial, NextId(a1), [req[0]] + req[1..], true, true);
    assert [req[0]] + req[1..] == req;
    SentStage(a.life, called, sent);
    assert CallAndRun(a, op, rsp, data, [call]).life == a.life + [called] + [sent];
  }

  lemma SentStage(life: seq<LifeEvent>, called: LifeEvent, sent: LifeEvent)
    requires sent.Accepted? && called.serial != sent.serial && StageOf(life, sent.serial).Unborn?
    ensures StageOf(life + [called] + [sent], sent.serial) == Alive(sent.id, sent.pdu, sent.callback, sent.destroy)
  {
    StageSnoc(life, called);
    StageSnoc(life + [called], sent);
  }

  // ---- The whole run -------------------------------------------------------------------------

  // Whatever happens around it, the replies the client hears answer the requests it asked, one each and
  // in order, except that the last may say that a request was lost.
  lemma {:induction false} HearsAnswers<S(!new)>(c: Client<S>, answers: (seq<byte>, W.Reply) -> bool, a: Att, acts: seq<Action>, s: S, k: nat)
    requires Quits(c) && Inv(a) && ReplyAt(a.life, k).None?
    requires c.next(s).Ask? ==> Asked(a.life, k, c.next(s).req)
    requires Played(c, a, acts, s, k) && Honest(c, a, acts, s, k, answers)
    ensures Served(c, answers, s, Heard(c, a, acts, s, k))
    decreases |acts|
  {
    hide Inv, Step, Plain, AnswersWell, Asked, ReplyAt, SendsOn, StageOf, Quits;
    if acts != [] && c.next(s).Ask? {
      var act, req := acts[0], c.next(s).req;
      var b := Step(a, act);
      InvStep(a, act);
      match ReplyAt(b.life, k)
      case None =>
        NextAsked(a, act, k, req);
        HearsAnswers(c, answers, b, acts[1..], s, k);
      case Some(r) =>
        var t := c.step(s, r);
        var rest := Heard(c, b, acts[1..], t, a.nextSerial);
        HearsAnswer(a, act, k, req, answers);
        QuitsAt(c, s);
        GoesOnWell(c, answers, a, act, s, k, r);
        assert ([r] + rest)[1..] == rest;
        if c.next(t).Finish? {
          assert Served(c, answers, t, rest);
        } else {
          HearsAnswers(c, answers, b, acts[1..], t, a.nextSerial);
        }
    }
  }

  lemma QuitsAt<S(!new)>(c: Client<S>, s: S)
    requires Quits(c)
    ensures c.next(c.step(s, G.LOST)).Finish?
  {
  }

  // When the client goes on, its next request is on its way and has not been answered.
  lemma GoesOnWell<S(!new)>(c: Client<S>, answers: (seq<byte>, W.Reply) -> bool, a: Att, act: Action, s: S, k: nat, r: W.Reply)
    requires c.next(s).Ask? && Inv(a) && Inv(Step(a, act)) && Asked(a.life, k, c.next(s).req) && ReplyAt(a.life, k).None?
    requires AnswersWell(a, act, k, answers) && ReplyAt(Step(a, act).life, k) == Some(r)
    requires c.next(c.step(s, r)).Ask? ==> r != G.LOST && SendsOn(a, act, c.next(c.step(s, r)).req)
    ensures c.next(c.step(s, r)).Ask? ==>
              Asked(Step(a, act).life, a.nextSerial, c.next(c.step(s, r)).req) && ReplyAt(Step(a, act).life, a.nextSerial).None?
  {
    hide Inv, Step, Asked, ReplyAt, SendsOn, AnswersWell, Answering;
    HearsAnswer(a, act, k, c.next(s).req, answers);
    if c.next(c.step(s, r)).Ask? {
      SendsAsked(a, act, k, c.next(c.step(s, r)).req);
      Unheard(a, act, k);
    }
  }

  lemma NextAsked(a: Att, act: Action, k: nat, req: seq<byte>)
    requires Asked(a.life, k, req) && Inv(Step(a, act))
    ensures Asked(Step(a, act).life, k, req)
  {
    hide Step, Inv, Asked;
    RepliesComeFromThePeer(a, act);
    NoneBroken(Step(a, act), k);
    StaysAsked(a.life, Step(a, act).life, k, req);
  }

  // The operation accepted in a turn is not heard of in it: only the one that was answered is.
  lemma Unheard(a: Att, act: Action, k: nat)
    requires Inv(a) && Answering(a, act, k)
    ensures ReplyAt(Step(a, act).life, a.nextSerial).None?
  {
    var b, pdu := Step(a, act), ReadOf(a.chans[act.i], act.bytes);
    NoneBroken(a, a.nextSerial);
    UnbornUnheard(a.life, a.nextSerial);
    PendingBooked(a, act.i);
    hide Inv, OpTypeOf, ReplyAt, StoryOf, TallyOf, HandleRsp, Step;
    ReadIsRsp(a, act, k);
    TellsRsp(a, act.i, pdu[0], pdu[1..], act.env, act.during);
    if ReplyAt(b.life, a.nextSerial).Some? {
      var j := NewReply(a.life, b.life, a.nextSerial);
      assert false;
    }
  }

  // A reply is never empty.
  lemma {:induction false} HeardWhole<S(!new)>(c: Client<S>, a: Att, acts: seq<Action>, s: S, k: nat)
    ensures forall j :: 0 <= j < |Heard(c, a, acts, s, k)| ==> |Heard(c, a, acts, s, k)[j].pdu| >= 1
    decreases |acts|
  {
    hide Step;
    if acts != [] && c.next(s).Ask? {
      var b := Step(a, acts[0]);
      match ReplyAt(b.life, k)
      case None => HeardWhole(c, b, acts[1..], s, k);
      case Some(r) =>
        ReplyWhole(b.life, k);
        HeardWhole(c, b, acts[1..], c.step(s, r), a.nextSerial);
    }
  }

  lemma {:induction false} ReplyWhole(life: seq<LifeEvent>, k: nat)
    ensures ReplyAt(life, k).Some? ==> |ReplyAt(life, k).value.pdu| >= 1
  {
    if life != [] { ReplyWhole(life[..|life| - 1], k); }
  }

  // ---- The first request ---------------------------------------------------------------------

  // What sending the client's first request gives.
  function Started(a: Att, req: seq<byte>): Att
    requires req != []
  {
    DoSend(a, req[0], req[1..], true, true)
  }

  lemma StartsAsked(a: Att, req: seq<byte>)
    requires Inv(a) && a.chans != [] && req != [] && OpTypeOf(req[0]).Req? && |req| <= a.mtu
    ensures Inv(Started(a, req)) && Asked(Started(a, req).life, a.nextSerial, req) && ReplyAt(Started(a, req).life, a.nextSerial).None?
  {
    hide Inv, OpTypeOf, CreateOp, DoSend, StageOf, ReplyAt, Asked;
    InvCall(a, Send(req[0], req[1..], true, true));
    NoneBroken(a, a.nextSerial);
    UnbornUnheard(a.life, a.nextSerial);
    RequestCreated(a, req);
    Layers.SendLife(a, req[0], req[1..], true, true);
    assert [req[0]] + req[1..] == req;
    FirstAsked(a.life, Accepted(a.nextSerial, NextId(a), [req[0]] + req[1..], true, true));
  }

  lemma RequestCreated(a: Att, req: seq<byte>)
    requires req != [] && OpTypeOf(req[0]).Req? && |req| <= a.mtu
    ensures CreateOp(a, req[0], req[1..], true, true).Some? && PlainCall(Send(req[0], req[1..], true, true))
  {
    hide OpTypeOf;
  }

  lemma FirstAsked(life: seq<LifeEvent>, sent: LifeEvent)
    requires sent.Accepted? && sent.pdu != [] && OpTypeOf(sent.pdu[0]).Req?
    requires StageOf(life, sent.serial).Unborn? && ReplyAt(life, sent.serial).None?
    ensures Asked(life + [sent], sent.serial, sent.pdu) && ReplyAt(life + [sent], sent.serial).None?
  {
    StageSnoc(life, sent);
    assert (life + [sent])[..|life|] == life;
    hide StageOf, OpTypeOf;
  }

  predicate Whole(rs: seq<W.Reply>) { forall j :: 0 <= j < |rs| ==> |rs[j].pdu| >= 1 }

  // The client's first request is sent on a bearer that keeps its invariant, and accepted; in the run that
  // follows its callbacks are its own, and the peer answers its requests.
  ghost predicate OwnRun<S(!new)>(c: Client<S>, answers: (seq<byte>, W.Reply) -> bool, a: Att, acts: seq<Action>, s: S) {
    && Inv(a) && a.chans != [] && c.next(s).Ask?
    && var req := c.next(s).req;
       && req != [] && OpTypeOf(req[0]).Req? && |req| <= a.mtu
       && Played(c, Started(a, req), acts, s, a.nextSerial)
       && Honest(c, Started(a, req), acts, s, a.nextSerial, answers)
  }

  // What its callbacks are given in such a run.
  function HeardIn<S(!new)>(c: Client<S>, a: Att, acts: seq<Action>, s: S): seq<W.Reply> {
    if c.next(s).Finish? || c.next(s).req == [] then [] else Heard(c, Started(a, c.next(s).req), acts, s, a.nextSerial)
  }

  // What a client hears in a run of its own are answers to its requests, up to one that was lost.
  lemma OwnRunHears<S(!new)>(c: Client<S>, answers: (seq<byte>, W.Reply) -> bool, a: Att, acts: seq<Action>, s: S) returns (n: nat)
    requires Quits(c) && OwnRun(c, answers, a, acts, s)
    ensures var rs := HeardIn(c, a, acts, s);
            Whole(rs) && Outcome(c, answers, s, rs, n) && Served(c, answers, s, rs)
  {
    hide Inv, Played, Honest, Heard, Asked, ReplyAt, Started, Quits, OpTypeOf, Served;
    var b := Started(a, c.next(s).req);
    StartsAsked(a, c.next(s).req);
    HearsAnswers(c, answers, b, acts, s, a.nextSerial);
    HeardWhole(c, b, acts, s, a.nextSerial);
    n := UpToLoss(c, answers, s, Heard(c, b, acts, s, a.nextSerial));
  }
}
