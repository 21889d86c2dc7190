// The bearer under the id chain: what attrib/gattrib.c assumes of src/shared/att.c, step by step.
//
// GAttribs works on a bearer reduced to a set of live requests.  Here every step of the full engine
// that gattrib and its procedures can bring about is matched by turns of that machine, so that its
// theorems hold of the engine.  Procedures are sequential: a response callback sends at most one
// request, and an error never makes it send one.

module Layers {
  import opened Wire
  import opened Opcodes
  import opened BearerSpec
  import opened BearerBooks
  import opened BearerSound
  import opened BearerPlaces
  import opened BearerTalk
  import opened BearerRuns
  import opened BearerTheorems
  import G = GAttribs

  // ---- The two states side by side -----------------------------------------------------------

  // A request under this id still has its destroy handler, and so its entry in gattrib.
  ghost predicate Attached(life: seq<LifeEvent>, id: nat) {
    id != 0 && exists k: nat :: Held(StageOf(life, k), id)
  }

  predicate Held(s: Stage, id: nat) { s.Alive? && s.id == id && s.destroy }

  // gattrib gives both handlers or neither, and only to requests with an id.
  ghost predicate Paired(life: seq<LifeEvent>) {
    forall k: nat :: var s := StageOf(life, k); s.Alive? ==> (s.callback ==> s.destroy) && (s.destroy ==> s.id != 0)
  }

  // No two requests alive share an id.
  ghost predicate OwnIds(life: seq<LifeEvent>) {
    forall j: nat, k: nat {:trigger StageOf(life, j), StageOf(life, k)} ::
      j != k && StageOf(life, j).Alive? && StageOf(life, k).Alive? ==> StageOf(life, j).id != StageOf(life, k).id || StageOf(life, j).id == 0
  }

  // The same requests are live on both sides, and the bearer's next id is not below gattrib's.
  ghost predicate Match(life: seq<LifeEvent>, nextSendId: nat, g: G.G) {
    && G.Inv(g) && Paired(life) && g.next <= (if nextSendId < 1 then 1 else nextSendId)
    && forall id: nat :: id in g.live <==> Attached(life, id)
  }

  // No request alive has this id.
  ghost predicate Fresh(life: seq<LifeEvent>, id: nat) { forall k: nat :: StageOf(life, k).Alive? ==> StageOf(life, k).id != id }

  ghost predicate Rel(a: Att, g: G.G) { Match(a.life, a.nextSendId, g) }

  // ---- Which callbacks ran -------------------------------------------------------------------

  function IdOf(s: Stage): nat { if s.Alive? then s.id else 0 }

  // The requests whose callbacks ran, by id and in order.
  function CallsIn(life: seq<LifeEvent>): seq<nat> {
    if life == [] then []
    else
      var before, e := life[..|life| - 1], life[|life| - 1];
      CallsIn(before) + (if e.Called? then [IdOf(StageOf(before, e.serial))] else [])
  }

  function Ids(xs: seq<G.Answer>): (ids: seq<nat>)
    ensures |ids| == |xs| && forall k :: 0 <= k < |xs| ==> ids[k] == xs[k].pend
  {
    seq(|xs|, k requires 0 <= k < |xs| => xs[k].pend)
  }

  // Whether each of these callbacks sent a request that goes on with its procedure.
  predicate All(xs: seq<G.Answer>, more: bool) { forall k :: 0 <= k < |xs| ==> xs[k].more == more }

  // `ts` takes gattrib from g to a state that matches, and answers the requests whose callbacks the
  // engine ran, each in its turn; `more` says whether those callbacks went on with their procedure.
  ghost predicate Follows(life: seq<LifeEvent>, b: seq<LifeEvent>, nextSendId: nat, g: G.G, ts: seq<G.Turn>, more: bool) {
    && Match(b, nextSendId, G.Run(g, ts))
    && var xs := G.Answered(g, ts);
       CallsIn(b) == CallsIn(life) + Ids(xs) && All(xs, more)
  }

  lemma CallsSnoc(life: seq<LifeEvent>, e: LifeEvent)
    ensures CallsIn(life + [e]) == CallsIn(life) + (if e.Called? then [IdOf(StageOf(life, e.serial))] else [])
  {
    assert (life + [e])[..|life|] == life;
  }

  lemma {:induction false} RunTurns(g: G.G, ts: seq<G.Turn>, us: seq<G.Turn>)
    ensures G.Run(g, ts + us) == G.Run(G.Run(g, ts), us)
    ensures G.Answered(g, ts + us) == G.Answered(g, ts) + G.Answered(G.Run(g, ts), us)
    decreases |ts|
  {
    hide G.Step;
    if ts == [] {
      assert ts + us == us;
    } else {
      assert (ts + us)[1..] == ts[1..] + us;
      RunTurns(G.Step(g, ts[0]), ts[1..], us);
    }
  }

  // ---- One operation's events ----------------------------------------------------------------

  // What a well-kept bearer knows of an operation it holds.
  ghost predicate Named(life: seq<LifeEvent>, op: Op) {
    && OwnIds(life)
    && var s := StageOf(life, op.serial);
       && s.Alive? && s.id == op.id && s.destroy == op.destroy && (op.callback ==> s.callback)
       && s.pdu == op.pdu && op.pdu != [] && op.pdu[0] == op.opcode
  }

  lemma NamedInHand(a: Att, op: Op, hand: multiset<Op>)
    requires Sound(a, hand) && (op in Pool(a) || op in hand)
    ensures Named(a.life, op)
  {
    var p := Pool(a) + hand;
    assert op in p;
    assert OpBooked(op, LedgerOf(a));
    ApartBooked(p, LedgerOf(a));
  }

  lemma ApartBooked(p: multiset<Op>, l: Ledger)
    requires Books(p, l)
    ensures OwnIds(l.life)
  {
    forall j: nat, k: nat | j != k && StageOf(l.life, j).Alive? && StageOf(l.life, k).Alive?
      ensures StageOf(l.life, j).id != StageOf(l.life, k).id || StageOf(l.life, j).id == 0
    {
      assert Holds(p, j) && Holds(p, k);
      var x :| x in p && x.serial == j;
      var y :| y in p && y.serial == k;
      assert OpBooked(x, l) && OpBooked(y, l);
    }
  }

  // The destroy handler runs, or there is none.
  lemma FollowNote(life: seq<LifeEvent>, next: nat, op: Op, g: G.G) returns (ts: seq<G.Turn>)
    requires Match(life, next, g) && Named(life, op)
    ensures Follows(life, life + DestroyNote(op), next, g, ts, false) && ts == (if op.destroy then [G.Dropped(op.id)] else [])
    ensures var s := StageOf(life + DestroyNote(op), op.serial); s.Alive? && !s.destroy && s.id == op.id
    ensures op.destroy ==> !StageOf(life + DestroyNote(op), op.serial).callback
  {
    if op.destroy {
      var e := Destroyed(op.serial);
      StageSnoc(life, e);
      CallsSnoc(life, e);
      ts := [G.Dropped(op.id)];
      assert Held(StageOf(life, op.serial), op.id);
      assert Attached(life, op.id);
      G.InvDetach(g, op.id);
      G.DetachEffect(g, op.id);
      AttachedDrop(life, e, op);
      assert G.Run(g, ts) == G.Detach(g, op.id);
    } else {
      assert life + DestroyNote(op) == life;
      ts := [];
    }
  }

  // After the event the operation's id is attached no more, and the others are as they were.
  lemma AttachedDrop(life: seq<LifeEvent>, e: LifeEvent, op: Op)
    requires Named(life, op) && op.destroy && e == Destroyed(op.serial) && Paired(life)
    ensures forall id: nat :: Attached(life + [e], id) <==> Attached(life, id) && id != op.id
    ensures Paired(life + [e])
  {
    StageSnoc(life, e);
    forall id: nat ensures Attached(life + [e], id) <==> Attached(life, id) && id != op.id {
      if Attached(life, id) && id != op.id {
        var k: nat :| Held(StageOf(life, k), id);
        assert Held(StageOf(life + [e], k), id);
      }
      if Attached(life + [e], id) {
        var k: nat :| Held(StageOf(life + [e], k), id);
        assert Held(StageOf(life, k), id);
        assert k != op.serial;
      }
    }
  }

  // An event that concerns one operation, without a handler before and after.
  lemma AttachedSame(life: seq<LifeEvent>, e: LifeEvent)
    requires Paired(life)
    requires var s, t := StageOf(life, e.serial), Advance(StageOf(life, e.serial), e, e.serial);
             (s.Alive? ==> !s.destroy) && (t.Alive? ==> !t.destroy && !t.callback)
    ensures Paired(life + [e]) && forall id: nat :: Attached(life + [e], id) <==> Attached(life, id)
  {
    StageSnoc(life, e);
    forall id: nat ensures Attached(life + [e], id) <==> Attached(life, id) {
      if Attached(life, id) {
        var k: nat :| Held(StageOf(life, k), id);
        assert Held(StageOf(life + [e], k), id);
      }
      if Attached(life + [e], id) {
        var k: nat :| Held(StageOf(life + [e], k), id);
        assert Held(StageOf(life, k), id);
      }
    }
  }

  lemma FollowQuiet(life: seq<LifeEvent>, e: LifeEvent, next: nat, next1: nat, g: G.G)
    requires Match(life, next, g) && next <= next1 && !e.Called?
    requires var s, t := StageOf(life, e.serial), Advance(StageOf(life, e.serial), e, e.serial);
             (s.Alive? ==> !s.destroy) && (t.Alive? ==> !t.destroy && !t.callback)
    ensures Follows(life, life + [e], next1, g, [], false)
  {
    AttachedSame(life, e);
    CallsSnoc(life, e);
    hide Attached, Paired, G.Inv;
  }

  lemma FollowTwice(l0: seq<LifeEvent>, l1: seq<LifeEvent>, l2: seq<LifeEvent>, n1: nat, n2: nat, g: G.G, ts: seq<G.Turn>, us: seq<G.Turn>)
    requires Follows(l0, l1, n1, g, ts, false) && Follows(l1, l2, n2, G.Run(g, ts), us, false)
    ensures Follows(l0, l2, n2, g, ts + us, false)
  {
    hide Match, CallsIn, G.Answered, G.Run, Ids;
    RunTurns(g, ts, us);
    var xs, ys := G.Answered(g, ts), G.Answered(G.Run(g, ts), us);
    IdsConcat(xs, ys);
    assert CallsIn(l0) + Ids(xs) + Ids(ys) == CallsIn(l0) + (Ids(xs) + Ids(ys));
  }

  // destroy_att_send_op
  lemma FollowDestroy(life: seq<LifeEvent>, next: nat, op: Op, g: G.G) returns (ts: seq<G.Turn>)
    requires Match(life, next, g) && Named(life, op)
    ensures Follows(life, life + DestroyNote(op) + [Freed(op.serial)], next, g, ts, false)
    ensures ts == if op.destroy then [G.Dropped(op.id)] else []
  {
    ts := FollowNote(life, next, op, g);
    var l1 := life + DestroyNote(op);
    var g1 := G.Run(g, ts);
    FollowQuiet(l1, Freed(op.serial), next, next, g1);
    FollowTwice(life, l1, l1 + [Freed(op.serial)], next, next, g, ts, []);
    assert ts + [] == ts;
  }

  // bt_att_send with both handlers, or with neither
  lemma FollowAccept(life: seq<LifeEvent>, next: nat, k: nat, id: nat, pdu: seq<byte>, h: bool, g: G.G) returns (ts: seq<G.Turn>)
    requires Match(life, next, g) && StageOf(life, k).Unborn? && id == (if next < 1 then 1 else next)
    ensures Follows(life, life + [Accepted(k, id, pdu, h, h)], id + 1, g, ts, false)
  {
    var e := Accepted(k, id, pdu, h, h);
    if h {
      ts := [G.Skipped(id), G.Start];
      StartTurns(g, id);
      CallsSnoc(life, e);
      AttachedAdd(life, e);
      hide Attached, Paired, G.Inv, G.Run;
    } else {
      ts := [];
      FollowQuiet(life, e, next, id + 1, g);
    }
  }

  lemma StartTurns(g: G.G, id: nat)
    requires G.Inv(g) && g.next <= id
    ensures var ts := [G.Skipped(id), G.Start]; var t := G.Run(g, ts);
            && G.Inv(t) && G.Answered(g, ts) == [] && t.next == id + 1 && forall p: nat :: p in t.live <==> p in g.live || p == id
  {
    TwoTurns(g, G.Skipped(id), G.Start);
    hide G.Inv, G.Run;
    SkipTo(g, id);
    G.InvStart(g.(next := id));
    hide G.RefsOf;
  }

  lemma SkipTo(g: G.G, id: nat)
    requires G.Inv(g) && g.next <= id
    ensures G.Inv(g.(next := id)) && G.Step(g, G.Skipped(id)) == g.(next := id)
  {
    assert g.(next := g.next) == g;
    if g.next < id { G.InvSkip(g, id); }
    hide G.Inv;
  }

  lemma TwoTurns(g: G.G, t: G.Turn, u: G.Turn)
    ensures G.Run(g, [t, u]) == G.Step(G.Step(g, t), u)
    ensures G.Answered(g, [t, u]) == G.Answered(g, [t]) + G.Answered(G.Step(g, t), [u])
    ensures G.Run(g, [t]) == G.Step(g, t)
  {
    RunOne(g, t);
    RunOne(G.Step(g, t), u);
    RunTurns(g, [t], [u]);
    hide G.Step, G.Run, G.Answered;
    assert [t] + [u] == [t, u];
  }

  lemma RunOne(g: G.G, t: G.Turn)
    ensures G.Run(g, [t]) == G.Step(g, t)
    ensures G.Answered(g, [t]) == if t.Responded? && t.pend in g.live then [G.Answer(t.pend, g.live[t.pend].proc, t.more)] else []
  {
    hide G.Step;
    assert [t][1..] == [];
    assert G.Run(G.Step(g, t), []) == G.Step(g, t) && G.Answered(G.Step(g, t), []) == [];
  }

  lemma AttachedAdd(life: seq<LifeEvent>, e: LifeEvent)
    requires Paired(life) && e.Accepted? && e.callback && e.destroy && e.id != 0 && StageOf(life, e.serial).Unborn?
    ensures Paired(life + [e]) && forall id: nat :: Attached(life + [e], id) <==> Attached(life, id) || id == e.id
  {
    StageSnoc(life, e);
    forall id: nat ensures Attached(life + [e], id) <==> Attached(life, id) || id == e.id {
      if Attached(life, id) {
        var k: nat :| Held(StageOf(life, k), id);
        assert Held(StageOf(life + [e], k), id);
      }
      if id == e.id { assert Held(StageOf(life + [e], e.serial), id); }
      if Attached(life + [e], id) {
        var k: nat :| Held(StageOf(life + [e], k), id);
        if k != e.serial { assert Held(StageOf(life, k), id); }
      }
    }
  }

  // ---- A response callback -------------------------------------------------------------------

  // gattrib's live requests after an answered turn.
  lemma LiveAfter(g: G.G, id: nat, more: bool)
    requires G.Inv(g) && id in g.live
    ensures var t := G.Respond(g, id, more);
            && G.Inv(t) && t.next == (if more then g.next + 1 else g.next)
            && forall p: nat :: p in t.live <==> (p in g.live && p != id) || (more && p == g.next)
  {
    if more {
      G.InvRespondMore(g, id);
      G.RespondMoreEffect(g, id);
    } else {
      G.InvRespondLast(g, id);
      G.DetachEffect(g.(called := g.called + [g.live[id].proc]), id);
    }
    hide G.Inv, G.Respond, G.Listed, G.Tracked;
  }

  // What the callback of one operation puts on record: it may send a request, accepted as serial k.
  function Episode(op: Op, rsp: byte, data: seq<byte>, sent: Option<(nat, nat, seq<byte>)>): seq<LifeEvent> {
    [Called(op.serial, op.opcode, rsp, data)]
    + (if sent.Some? then [Accepted(sent.value.0, sent.value.1, sent.value.2, true, true)] else [])
    + [Destroyed(op.serial), Freed(op.serial)]
  }

  // The calls matched by one answered turn: `chain` says that the request sent goes on with the
  // procedure, rather than starting another.
  function TurnsFor(op: Op, sent: Option<(nat, nat, seq<byte>)>, chain: bool): seq<G.Turn> {
    if sent.None? then [G.Responded(op.id, false)]
    else if chain then [G.Skipped(sent.value.1), G.Responded(op.id, true)]
    else [G.Responded(op.id, false), G.Skipped(sent.value.1), G.Start]
  }

  lemma FollowEpisode(life: seq<LifeEvent>, next: nat, op: Op, rsp: byte, data: seq<byte>, sent: Option<(nat, nat, seq<byte>)>, chain: bool, g: G.G)
    requires Match(life, next, g) && Named(life, op) && op.callback && Opcodes.Answers(rsp, op.opcode)
    requires sent.Some? ==>
               StageOf(life, sent.value.0).Unborn? && sent.value.1 == (if next < 1 then 1 else next) && Fresh(life, sent.value.1)
    ensures Follows(life, life + Episode(op, rsp, data, sent), if sent.Some? then sent.value.1 + 1 else next, g,
                      TurnsFor(op, sent, chain), sent.Some? && chain)
  {
    CalledHeld(life, op);
    hide Follows, Told, Attached, Paired, Named, G.Inv, G.Run, Episode, Fresh, TurnsFor, StageOf, CallsIn, G.Answered, Opcodes.Answers;
    EpisodeLife(life, op, rsp, data, sent);
    EpisodeTurns(g, op, sent, chain);
    var b, t := life + Episode(op, rsp, data, sent), G.Run(g, TurnsFor(op, sent, chain));
    var next1 := if sent.Some? then sent.value.1 + 1 else next;
    Rematched(life, b, next, next1, g, t, op.id, if sent.Some? then sent.value.1 else 0);
    Joined(life, b, next1, g, TurnsFor(op, sent, chain), op, sent.Some? && chain);
  }

  lemma Joined(life: seq<LifeEvent>, b: seq<LifeEvent>, next: nat, g: G.G, ts: seq<G.Turn>, op: Op, more: bool)
    requires Match(b, next, G.Run(g, ts)) && CallsIn(b) == CallsIn(life) + [op.id] && Told(g, op, ts, more)
    ensures Follows(life, b, next, g, ts, more)
  {
    hide Match, CallsIn, G.Answered, G.Run;
    assert Ids(G.Answered(g, ts)) == [op.id];
  }

  // Both sides lost id `gone` and, unless it is 0, gained id `more`.
  lemma Rematched(life: seq<LifeEvent>, b: seq<LifeEvent>, next: nat, next1: nat, g: G.G, t: G.G, gone: nat, more: nat)
    requires Match(life, next, g) && G.Inv(t) && Paired(b) && t.next <= (if next1 < 1 then 1 else next1)
    requires forall id: nat :: Attached(b, id) <==> (Attached(life, id) && id != gone) || (more != 0 && id == more)
    requires forall id: nat :: id in t.live <==> (id in g.live && id != gone) || (more != 0 && id == more)
    ensures Match(b, next1, t)
  {
    hide Attached, Paired, G.Inv;
  }

  lemma CalledHeld(life: seq<LifeEvent>, op: Op)
    requires Paired(life) && Named(life, op) && op.callback
    ensures Attached(life, op.id)
  {
    assert Held(StageOf(life, op.serial), op.id);
  }

  // The history's side: the operation is gone, and the one sent is attached.
  lemma EpisodeLife(life: seq<LifeEvent>, op: Op, rsp: byte, data: seq<byte>, sent: Option<(nat, nat, seq<byte>)>)
    requires Paired(life) && Named(life, op) && op.callback && Opcodes.Answers(rsp, op.opcode)
    requires sent.Some? ==> StageOf(life, sent.value.0).Unborn? && sent.value.1 != 0 && Fresh(life, sent.value.1)
    ensures var b := life + Episode(op, rsp, data, sent);
            && Paired(b) && CallsIn(b) == CallsIn(life) + [op.id]
            && forall id: nat :: Attached(b, id) <==> (Attached(life, id) && id != op.id) || (sent.Some? && id == sent.value.1)
  {
    var l1 := life + [Called(op.serial, op.opcode, rsp, data)];
    CalledLife(life, op, rsp, data);
    var op1 := op.(callback := false);
    var l2 := if sent.Some? then l1 + [Accepted(sent.value.0, sent.value.1, sent.value.2, true, true)] else l1;
    if sent.Some? {
      var e := Accepted(sent.value.0, sent.value.1, sent.value.2, true, true);
      StageSnoc(life, Called(op.serial, op.opcode, rsp, data));
      AttachedAdd(l1, e);
      CallsSnoc(l1, e);
      StageSnoc(l1, e);
      OwnIdsAdd(l1, e);
    }
    var d := Destroyed(op.serial);
    AttachedDrop(l2, d, op1);
    CallsSnoc(l2, d);
    StageSnoc(l2, d);
    AttachedSame(l2 + [d], Freed(op.serial));
    CallsSnoc(l2 + [d], Freed(op.serial));
    assert life + Episode(op, rsp, data, sent) == l2 + [d] + [Freed(op.serial)];
    hide Attached, Paired, OwnIds;
  }

  lemma CalledLife(life: seq<LifeEvent>, op: Op, rsp: byte, data: seq<byte>)
    requires Paired(life) && Named(life, op) && op.callback && Opcodes.Answers(rsp, op.opcode)
    ensures var b := life + [Called(op.serial, op.opcode, rsp, data)];
            && Paired(b) && Named(b, op.(callback := false)) && CallsIn(b) == CallsIn(life) + [op.id]
            && forall id: nat :: Attached(b, id) <==> Attached(life, id)
  {
    var e := Called(op.serial, op.opcode, rsp, data);
    StageSnoc(life, e);
    CallsSnoc(life, e);
    forall id: nat ensures Attached(life + [e], id) <==> Attached(life, id) {
      if Attached(life, id) {
        var k: nat :| Held(StageOf(life, k), id);
        assert Held(StageOf(life + [e], k), id);
      }
      if Attached(life + [e], id) {
        var k: nat :| Held(StageOf(life + [e], k), id);
        assert Held(StageOf(life, k), id);
      }
    }
  }

  lemma OwnIdsAdd(life: seq<LifeEvent>, e: LifeEvent)
    requires OwnIds(life) && e.Accepted? && StageOf(life, e.serial).Unborn? && Fresh(life, e.id)
    ensures OwnIds(life + [e])
  {
    StageSnoc(life, e);
  }

  // The one callback that runs is this operation's.
  ghost predicate Told(g: G.G, op: Op, ts: seq<G.Turn>, more: bool) {
    var xs := G.Answered(g, ts); |xs| == 1 && xs[0].pend == op.id && xs[0].more == more
  }

  // gattrib's side
  lemma EpisodeTurns(g: G.G, op: Op, sent: Option<(nat, nat, seq<byte>)>, chain: bool)
    requires G.Inv(g) && op.id in g.live && (sent.Some? ==> g.next <= sent.value.1)
    ensures var ts := TurnsFor(op, sent, chain); var t := G.Run(g, ts);
            && G.Inv(t) && Told(g, op, ts, sent.Some? && chain) && t.next == (if sent.Some? then sent.value.1 + 1 else g.next)
            && forall p: nat :: p in t.live <==> (p in g.live && p != op.id) || (sent.Some? && p == sent.value.1)
  {
    hide G.Run, G.Inv, G.Respond, TurnsFor;
    LiveAfter(g, op.id, false);
    TurnsFirst(g, op, sent, chain);
    if sent.Some? {
      var i := sent.value.1;
      if chain {
        SkipTo(g, i);
        LiveAfter(g.(next := i), op.id, true);
      } else {
        StartAt(G.Respond(g, op.id, false), i);
      }
    }
  }

  // A procedure started under this id.
  lemma StartAt(g: G.G, i: nat)
    requires G.Inv(g) && g.next <= i
    ensures var t := G.Send(g.(next := i), 0);
            G.Inv(t) && t.next == i + 1 && forall p: nat :: p in t.live <==> p in g.live || p == i
  {
    hide G.Inv;
    SkipTo(g, i);
    G.InvStart(g.(next := i));
    hide G.RefsOf;
  }

  lemma TurnsFirst(g: G.G, op: Op, sent: Option<(nat, nat, seq<byte>)>, chain: bool)
    requires op.id in g.live && (sent.Some? ==> g.next <= sent.value.1) && G.Respond(g, op.id, false).next == g.next
    ensures Told(g, op, TurnsFor(op, sent, chain), sent.Some? && chain)
    ensures sent.None? ==> G.Run(g, TurnsFor(op, sent, chain)) == G.Respond(g, op.id, false)
    ensures sent.Some? && chain ==> G.Run(g, TurnsFor(op, sent, chain)) == G.Respond(g.(next := sent.value.1), op.id, true)
    ensures sent.Some? && !chain ==>
              G.Run(g, TurnsFor(op, sent, chain)) == G.Send(G.Respond(g, op.id, false).(next := sent.value.1), 0)
  {
    hide G.Respond, G.Send, G.Answered;
    if sent.None? {
      RunOne(g, G.Responded(op.id, false));
    } else {
      var s, r := G.Skipped(sent.value.1), G.Responded(op.id, chain);
      if chain {
        TwoTurns(g, s, r);
        RunOne(g, s);
        RunOne(G.Step(g, s), r);
      } else {
        RunTurns(g, [r], [s, G.Start]);
        RunOne(g, r);
        TwoTurns(G.Step(g, r), s, G.Start);
        RunOne(G.Step(g, r), s);
        RunOne(G.Step(G.Step(g, r), s), G.Start);
        assert [r] + [s, G.Start] == [r, s, G.Start];
      }
    }
  }

  // ---- The engine's steps --------------------------------------------------------------------

  // gattrib follows the engine from a to b by these turns.
  ghost predicate Steps(a: Att, b: Att, g: G.G, ts: seq<G.Turn>, more: bool) {
    Follows(a.life, b.life, b.nextSendId, g, ts, more)
  }

  lemma StepsTwice(a: Att, b: Att, c: Att, g: G.G, ts: seq<G.Turn>, us: seq<G.Turn>)
    requires Steps(a, b, g, ts, false) && Steps(b, c, G.Run(g, ts), us, false)
    ensures Steps(a, c, g, ts + us, false)
  {
    FollowTwice(a.life, b.life, c.life, b.nextSendId, c.nextSendId, g, ts, us);
  }

  // Nothing gattrib sees.
  lemma StepsNone(a: Att, b: Att, g: G.G)
    requires Rel(a, g) && b.life == a.life && b.nextSendId == a.nextSendId
    ensures forall more {:trigger Steps(a, b, g, [], more)} :: Steps(a, b, g, [], more)
  {
  }

  lemma StepsRel(a: Att, b: Att, g: G.G, ts: seq<G.Turn>, more: bool)
    requires Steps(a, b, g, ts, more)
    ensures Rel(b, G.Run(g, ts))
  {
  }

  // A new serial and a new id are unused.
  lemma FreshBooked(a: Att, hand: multiset<Op>)
    requires Sound(a, hand)
    ensures StageOf(a.life, a.nextSerial).Unborn? && Fresh(a.life, NextId(a))
  {
    var p, l := Pool(a) + hand, LedgerOf(a);
    forall k: nat | StageOf(a.life, k).Alive? ensures StageOf(a.life, k).id != NextId(a) {
      assert Holds(p, k);
      var x :| x in p && x.serial == k;
      assert OpBooked(x, l);
    }
  }

  lemma SendLife(a: Att, opcode: byte, payload: seq<byte>, callback: bool, destroy: bool)
    requires a.chans != [] && CreateOp(a, opcode, payload, callback, destroy).Some?
    ensures var b := DoSend(a, opcode, payload, callback, destroy);
            b.life == a.life + [Accepted(a.nextSerial, NextId(a), [opcode] + payload, callback, destroy)] && b.nextSendId == NextId(a) + 1
  {
    hide OpTypeOf;
  }

  lemma SimSend(a: Att, opcode: byte, payload: seq<byte>, h: bool, hand: multiset<Op>, g: G.G) returns (ts: seq<G.Turn>)
    requires Sound(a, hand) && Rel(a, g)
    ensures Steps(a, DoSend(a, opcode, payload, h, h), g, ts, false)
  {
    hide DoSend, Sound, CreateOp;
    if a.chans != [] && CreateOp(a, opcode, payload, h, h).Some? {
      FreshBooked(a, hand);
      SendLife(a, opcode, payload, h, h);
      ts := FollowAccept(a.life, a.nextSendId, a.nextSerial, NextId(a), [opcode] + payload, h, g);
    } else {
      ts := [];
      Refused(a, opcode, payload, h, h);
      StepsNone(a, a, g);
    }
  }

  lemma Refused(a: Att, opcode: byte, payload: seq<byte>, callback: bool, destroy: bool)
    requires a.chans == [] || CreateOp(a, opcode, payload, callback, destroy).None?
    ensures DoSend(a, opcode, payload, callback, destroy) == a
  {
    hide CreateOp;
  }

  // A command sent with a destroy handler is always refused: gattrib hands the bearer a response
  // callback with it, and create_att_send_op takes none for a command.
  lemma CommandWithHandlerRefused(a: Att, opcode: byte, payload: seq<byte>)
    requires OpTypeOf(opcode).Cmd?
    ensures DoSend(a, opcode, payload, true, true) == a && SentId(a, opcode, payload, true, true) == 0
  {
  }

  lemma SimDestroy(a: Att, op: Op, hand: multiset<Op>, g: G.G) returns (ts: seq<G.Turn>)
    requires Sound(a, hand) && (op in Pool(a) || op in hand) && Rel(a, g)
    ensures Steps(a, DestroyOp(a, op), g, ts, false)
  {
    NamedInHand(a, op, hand);
    ts := FollowDestroy(a.life, a.nextSendId, op, g);
  }

  lemma {:induction false} SimDestroyOps(a: Att, ops: seq<Op>, hand: multiset<Op>, g: G.G) returns (ts: seq<G.Turn>)
    requires Sound(a, hand + multiset(ops)) && Rel(a, g)
    ensures Steps(a, DestroyOps(a, ops), g, ts, false)
    decreases |ops|
  {
    hide Sound, Rel, Steps, DestroyOp;
    if ops == [] {
      ts := [];
      StepsNone(a, a, g);
    } else {
      assert ops == [ops[0]] + ops[1..];
      var rest := multiset(ops[1..]);
      assert hand + multiset(ops) == hand + rest + multiset{ops[0]};
      ts := SimDestroy(a, ops[0], hand + rest + multiset{ops[0]}, g);
      SoundDestroy(a, ops[0], hand + rest);
      var b := DestroyOp(a, ops[0]);
      StepsRel(a, b, g, ts, false);
      var us := SimDestroyOps(b, ops[1..], hand, G.Run(g, ts));
      StepsTwice(a, b, DestroyOps(b, ops[1..]), g, ts, us);
      ts := ts + us;
    }
  }

  lemma SimStripSlot(a: Att, i: nat, ty: OpType, hand: multiset<Op>, g: G.G) returns (ts: seq<G.Turn>)
    requires i < |a.chans| && Sound(a, hand) && Rel(a, g)
    ensures Steps(a, StripSlot(a, i, ty), g, ts, false)
  {
    hide Sound;
    if Slot(a.chans[i], ty).None? {
      ts := [];
      StepsNone(a, a, g);
    } else {
      var op := Slot(a.chans[i], ty).value;
      SlotInPool(a, i, ty, op);
      NamedInHand(a, op, hand);
      ts := FollowNote(a.life, a.nextSendId, op, g);
    }
  }

  // ---- A response callback, in the engine ----------------------------------------------------

  // A response or a confirmation runs a response callback, anything else the request handlers.
  predicate GentleRead(a: Att, bytes: seq<byte>, during: seq<Call>) {
    if bytes != [] && (OpTypeOf(bytes[0]).Rsp? || OpTypeOf(bytes[0]).Conf?) then Single(a, during) else GentleCalls(during)
  }

  // Whether the read answers a request whose callback sends another for the same procedure.
  predicate GoesOnRead(bytes: seq<byte>, during: seq<Call>, chain: bool) {
    chain && during != [] && bytes != [] && (OpTypeOf(bytes[0]).Rsp? || OpTypeOf(bytes[0]).Conf?)
  }

  // What a sequential procedure's callback may call: nothing, or one request that is accepted.
  predicate Single(a: Att, during: seq<Call>) {
    during == []
    || (|during| == 1 && during[0].Send? && during[0].callback && during[0].destroy
        && CreateOp(a, during[0].opcode, during[0].payload, true, true).Some?)
  }

  lemma RunSingle(a: Att, call: Call)
    ensures RunCalls(a, [call]) == DoCall(a, call) && RunCalls(a, []) == a
  {
    hide DoCall;
    assert [call][1..] == [];
  }

  // The request such a callback sends, as it is accepted.
  function SentBy(a: Att, during: seq<Call>): Option<(nat, nat, seq<byte>)>
    requires Single(a, during)
  {
    if during == [] then None else Some((a.nextSerial, NextId(a), [during[0].opcode] + during[0].payload))
  }

  // The callback of an operation and the end of it, whatever list or slot it was in.
  lemma SimAnswered(a: Att, op: Op, rsp: byte, data: seq<byte>, during: seq<Call>, chain: bool, hand: multiset<Op>, g: G.G)
    returns (ts: seq<G.Turn>)
    requires Sound(a, hand) && (op in Pool(a) || op in hand) && Rel(a, g) && Opcodes.Answers(rsp, op.opcode)
    requires during == [] || (a.chans != [] && Single(a, during))
    ensures Steps(a, DestroyOp(CallAndRun(a, op, rsp, data, during), op), g, ts, chain && during != [])
  {
    NamedInHand(a, op, hand);
    FreshBooked(a, hand);
    NamedHandlers(a.life, a.nextSendId, op, g);
    hide Sound, Named, Fresh, Paired, Attached, StageOf, CallsIn, G.Inv, G.Run, G.Answered, Opcodes.Answers, CreateOp, Episode, TurnsFor;
    if op.callback {
      var sent := SentBy(a, during);
      ts := TurnsFor(op, sent, chain);
      AnsweredLife(a, op, rsp, data, during);
      FollowEpisode(a.life, a.nextSendId, op, rsp, data, sent, chain, g);
    } else {
      ts := AnsweredQuiet(a, op, rsp, data, during, chain && during != [], g);
    }
  }

  lemma NamedHandlers(life: seq<LifeEvent>, next: nat, op: Op, g: G.G)
    requires Match(life, next, g) && Named(life, op)
    ensures op.callback ==> op.destroy
  {
  }

  // Without a callback nothing is answered.
  lemma AnsweredQuiet(a: Att, op: Op, rsp: byte, data: seq<byte>, during: seq<Call>, more: bool, g: G.G) returns (ts: seq<G.Turn>)
    requires Rel(a, g) && Named(a.life, op) && !op.callback
    ensures Steps(a, DestroyOp(CallAndRun(a, op, rsp, data, during), op), g, ts, more)
  {
    RunNone(a);
    ts := FollowDestroy(a.life, a.nextSendId, op, g);
    hide Match, Named;
    if op.destroy { RunOne(g, G.Dropped(op.id)); }
  }

  lemma RunNone(a: Att)
    ensures RunCalls(a, []) == a
  {
  }

  lemma AnsweredLife(a: Att, op: Op, rsp: byte, data: seq<byte>, during: seq<Call>)
    requires op.callback && op.destroy && (during == [] || (a.chans != [] && Single(a, during)))
    ensures var b := DestroyOp(CallAndRun(a, op, rsp, data, during), op);
            var sent := SentBy(a, during);
            b.life == a.life + Episode(op, rsp, data, sent) && b.nextSendId == (if during == [] then a.nextSendId else NextId(a) + 1)
  {
    hide DoSend, CreateOp;
    var a1 := CallOp(a, op, rsp, data);
    if during == [] {
      RunNone(a1);
    } else {
      var call := during[0];
      assert during == [call];
      RunSingle(a1, call);
      SameCreate(a, a1, call.opcode, call.payload);
      SendLife(a1, call.opcode, call.payload, true, true);
    }
  }

  lemma SameCreate(a: Att, b: Att, opcode: byte, payload: seq<byte>)
    requires b.mtu == a.mtu && b.nextSerial == a.nextSerial
    ensures CreateOp(b, opcode, payload, true, true) == CreateOp(a, opcode, payload, true, true)
  {
    hide OpTypeOf;
  }

  // ---- Cancelling ----------------------------------------------------------------------------

  // An operation of this id lost its handlers, or was destroyed.
  ghost predicate Hit(a: Att, b: Att, id: nat) {
    && b.nextSendId == a.nextSendId
    && exists op :: op in Pool(a) && op.id == id && (b.life == a.life + DestroyNote(op) || b.life == a.life + DestroyNote(op) + [Freed(op.serial)])
  }

  lemma InChan(a: Att, i: nat, op: Op)
    requires i < |a.chans| && op in ChanPool(a.chans[i])
    ensures op in Pool(a)
  {
    PoolChan(a, i, a.chans[i]);
    hide Pool, ChanPool;
  }

  lemma ChanParts(c: Chan, op: Op)
    ensures op in ChanPool(c) <==> op in c.queue || c.pendingReq == Some(op) || c.pendingInd == Some(op)
  {
  }

  lemma MakeHit(a: Att, b: Att, op: Op)
    requires op in Pool(a) && b.nextSendId == a.nextSendId
    requires b.life == a.life + DestroyNote(op) || b.life == a.life + DestroyNote(op) + [Freed(op.serial)]
    ensures Hit(a, b, op.id)
  {
  }

  lemma ChanCancelHit(a: Att, i: nat, id: nat)
    requires i < |a.chans|
    ensures var (b, done) := ChanCancel(a, i, id);
            if done then Hit(a, b, id) else forall op :: op in ChanPool(a.chans[i]) ==> op.id != id
  {
    var c, b := a.chans[i], ChanCancel(a, i, id).0;
    hide Pool, ChanPool, Hit;
    if ChanCancel(a, i, id).1 {
      var op := if c.pendingReq.Some? && c.pendingReq.value.id == id then c.pendingReq.value
                else if c.pendingInd.Some? && c.pendingInd.value.id == id then c.pendingInd.value
                else c.queue[FindId(c.queue, id)];
      ChanParts(c, op);
      InChan(a, i, op);
      MakeHit(a, b, op);
    } else {
      forall op | op in ChanPool(c) ensures op.id != id {
        ChanParts(c, op);
      }
    }
  }

  lemma {:induction false} CancelOnHit(a: Att, i: nat, id: nat)
    requires i <= |a.chans|
    ensures var (b, done) := CancelOnChans(a, i, id);
            if done then Hit(a, b, id) else forall j, op :: i <= j < |a.chans| && op in ChanPool(a.chans[j]) ==> op.id != id
    decreases |a.chans| - i
  {
    hide ChanCancel, Hit, ChanPool;
    if i < |a.chans| {
      ChanCancelHit(a, i, id);
      CancelOnHit(a, i + 1, id);
    }
  }

  lemma InShared(a: Att, op: Op)
    requires op in a.reqQ || op in a.indQ || op in a.writeQ
    ensures op in Pool(a)
  {
  }

  lemma NotThere(a: Att, id: nat)
    requires FindId(a.reqQ, id) == |a.reqQ| && FindId(a.indQ, id) == |a.indQ| && FindId(a.writeQ, id) == |a.writeQ|
    requires forall j, op :: 0 <= j < |a.chans| && op in ChanPool(a.chans[j]) ==> op.id != id
    ensures forall op :: op in Pool(a) ==> op.id != id
  {
    hide FindId;
    forall op | op in Pool(a) ensures op.id != id {
      if op in ChansPool(a.chans) {
        var i := InChansPool(a.chans, op);
        hide ChansPool, ChanPool;
      }
    }
  }

  // bt_att_cancel is exact: it finds the operation wherever it is, or there is none of this id.
  lemma CancelExact(a: Att, id: nat)
    requires id != 0
    ensures var (b, done) := DoCancel(a, id);
            if done then Hit(a, b, id) else b == a && forall op :: op in Pool(a) ==> op.id != id
  {
    hide Pool, ChanPool, Hit, CancelOnChans, Without;
    CancelOnHit(a, 0, id);
    var j, k, m := FindId(a.reqQ, id), FindId(a.indQ, id), FindId(a.writeQ, id);
    if CancelOnChans(a, 0, id).1 {
    } else if j < |a.reqQ| {
      InShared(a, a.reqQ[j]);
      MakeHit(a, DoCancel(a, id).0, a.reqQ[j]);
    } else if k < |a.indQ| {
      InShared(a, a.indQ[k]);
      MakeHit(a, DoCancel(a, id).0, a.indQ[k]);
    } else if m < |a.writeQ| {
      InShared(a, a.writeQ[m]);
      MakeHit(a, DoCancel(a, id).0, a.writeQ[m]);
    } else {
      NotThere(a, id);
    }
  }

  lemma SimHit(a: Att, b: Att, id: nat, hand: multiset<Op>, g: G.G) returns (ts: seq<G.Turn>)
    requires Sound(a, hand) && Hit(a, b, id) && Rel(a, g)
    ensures Steps(a, b, g, ts, false)
    ensures id in g.live ==> ts == [G.Dropped(id)]
  {
    hide Sound, Pool;
    var op :| op in Pool(a) && op.id == id && (b.life == a.life + DestroyNote(op) || b.life == a.life + DestroyNote(op) + [Freed(op.serial)]);
    NamedInHand(a, op, hand);
    HeldByOne(a.life, op);
    if b.life == a.life + DestroyNote(op) {
      ts := FollowNote(a.life, a.nextSendId, op, g);
    } else {
      ts := FollowDestroy(a.life, a.nextSendId, op, g);
    }
    hide Attached;
  }

  // Only this operation can hold its id.
  lemma HeldByOne(life: seq<LifeEvent>, op: Op)
    requires Named(life, op)
    ensures Attached(life, op.id) ==> op.destroy
  {
  }

  lemma SimCancel(a: Att, id: nat, hand: multiset<Op>, g: G.G) returns (ts: seq<G.Turn>)
    requires Sound(a, hand) && Rel(a, g)
    ensures Steps(a, DoCancel(a, id).0, g, ts, false)
  {
    ts := [];
    StepsNone(a, a, g);
    hide Sound, Rel, Steps, Hit;
    if id != 0 {
      CancelExact(a, id);
      hide DoCancel;
      if DoCancel(a, id).1 {
        ts := SimHit(a, DoCancel(a, id).0, id, hand, g);
      }
    }
  }

  // ---- The calls of the API ------------------------------------------------------------------

  // Sends with both handlers or neither.
  predicate GentleCall(call: Call) {
    match call
    case Send(_, _, callback, destroy) => callback == destroy
    case ChanSend(_, _, _, callback, destroy) => !callback && !destroy
    case _ => true
  }

  predicate GentleCalls(calls: seq<Call>) { forall k :: 0 <= k < |calls| ==> GentleCall(calls[k]) }

  lemma SimChanSend(a: Att, i: nat, opcode: byte, payload: seq<byte>, g: G.G) returns (ts: seq<G.Turn>)
    requires Sound(a, multiset{}) && Rel(a, g)
    ensures Steps(a, DoChanSend(a, i, opcode, payload, false, false), g, ts, false)
  {
    var b := DoChanSend(a, i, opcode, payload, false, false);
    ts := [];
    FreshBooked(a, multiset{});
    hide Sound, OpTypeOf;
    if b.life == a.life {
      StepsNone(a, b, g);
    } else {
      FollowQuiet(a.life, Accepted(a.nextSerial, 0, [opcode] + payload, false, false), a.nextSendId, a.nextSendId, g);
    }
  }

  lemma SimCall(a: Att, call: Call, g: G.G) returns (ts: seq<G.Turn>)
    requires Sound(a, multiset{}) && Rel(a, g) && GentleCall(call)
    ensures Steps(a, DoCall(a, call), g, ts, false)
  {
    hide Sound, Steps, DoSend, DoChanSend, DoCancel, DoCancelAll;
    match call
    case Send(opcode, payload, callback, destroy) => ts := SimSend(a, opcode, payload, callback, multiset{}, g);
    case ChanSend(i, opcode, payload, callback, destroy) => ts := SimChanSend(a, i, opcode, payload, g);
    case Cancel(id) => ts := SimCancel(a, id, multiset{}, g);
    case CancelAll => ts := SimCancelAll(a, g);
    case _ =>
      ts := [];
      StepsNone(a, DoCall(a, call), g);
  }

  // What a request handler or a disconnect handler calls.
  lemma {:induction false} SimCalls(a: Att, calls: seq<Call>, g: G.G) returns (ts: seq<G.Turn>)
    requires Sound(a, multiset{}) && Rel(a, g) && GentleCalls(calls)
    ensures Steps(a, RunCalls(a, calls), g, ts, false)
    decreases |calls|
  {
    hide Sound, Rel, Steps, DoCall, GentleCall;
    ts := [];
    if calls == [] {
      StepsNone(a, a, g);
    } else {
      var b := DoCall(a, calls[0]);
      ts := SimCall(a, calls[0], g);
      StepsRel(a, b, g, ts, false);
      SoundDoCall(a, calls[0], multiset{});
      var us := SimCalls(b, calls[1..], G.Run(g, ts));
      StepsTwice(a, b, RunCalls(b, calls[1..]), g, ts, us);
      ts := ts + us;
    }
  }

  // ---- Event-loop steps ----------------------------------------------------------------------

  lemma SimWrite(a: Att, i: nat, written: int, g: G.G) returns (ts: seq<G.Turn>)
    requires i < |a.chans| && Sound(a, multiset{}) && Rel(a, g)
    ensures Steps(a, DoWrite(a, i, written, []), g, ts, false)
  {
    hide Sound, PickNext, Steps, CallAndRun;
    var (next, a1) := PickNext(a, i);
    SoundPick(a, i, multiset{});
    SamePick(a, i);
    ts := [];
    if next.None? {
      StepsNone(a, DoWrite(a, i, written, []), g);
    } else {
      var op := next.value;
      var hand := multiset{} + multiset{op};
      if written == 0 {
        ts := SimAnswered(a1, op, ERROR_RSP, [], [], false, hand, g);
        StepsFrom(a, a1, DoWrite(a, i, written, []), g, ts);
      } else {
        AfterWriteLife(a1, i, op);
        if op.ty.Req? || op.ty.Ind? {
          StepsNone(a, DoWrite(a, i, written, []), g);
        } else {
          ts := SimDestroy(a1, op, hand, g);
          StepsAt(a, a1, DestroyOp(a1, op), DoWrite(a, i, written, []), g, ts, false);
        }
      }
    }
  }

  lemma SamePick(a: Att, i: nat)
    requires i < |a.chans|
    ensures var b := PickNext(a, i).1; b.life == a.life && b.nextSendId == a.nextSendId
  {
  }

  lemma AfterWriteLife(a: Att, i: nat, op: Op)
    requires i < |a.chans|
    ensures var b := AfterWrite(a, i, op);
            b.nextSendId == a.nextSendId && b.life == if op.ty.Req? || op.ty.Ind? then a.life else DestroyOp(a, op).life
  {
  }

  // States that look the same to gattrib can stand for each other.
  lemma StepsAt(a: Att, a1: Att, b1: Att, b: Att, g: G.G, ts: seq<G.Turn>, more: bool)
    requires Steps(a1, b1, g, ts, more) && a.life == a1.life && b.life == b1.life && b.nextSendId == b1.nextSendId
    ensures Steps(a, b, g, ts, more)
  {
  }

  lemma StepsFrom(a: Att, a1: Att, b: Att, g: G.G, ts: seq<G.Turn>)
    requires Steps(a1, b, g, ts, false) && a.life == a1.life
    ensures Steps(a, b, g, ts, false)
  {
  }

  // What Finish does to the history: the callback, then the end of the operation.
  lemma FinishLife(a: Att, i: nat, ty: OpType, rsp: byte, data: seq<byte>, during: seq<Call>)
    requires i < |a.chans| && Slot(a.chans[i], ty).Some? && Single(a, during)
    ensures var op := Slot(a.chans[i], ty).value;
            var b, c := Finish(a, i, ty, rsp, data, during), DestroyOp(CallAndRun(a, op, rsp, data, during), op);
            b.life == c.life && b.nextSendId == c.nextSendId
  {
    var op := Slot(a.chans[i], ty).value;
    var entered := a.(chans := a.chans[i := WithSlot(a.chans[i], ty, Some(op.(callback := false)))]);
    var a1, e1 := CallOp(a, op, rsp, data), CallOp(entered, op, rsp, data);
    RunNone(a1);
    RunNone(e1);
    if op.callback && during != [] {
      var call := during[0];
      assert during == [call];
      RunSingle(a1, call);
      RunSingle(e1, call);
      SameSend(a1, e1, i, ty, call);
    }
    hide RunCalls, DoSend;
  }

  // Sending does not depend on the slots, and leaves them alone.
  lemma SameSend(a: Att, e: Att, i: nat, ty: OpType, call: Call)
    requires i < |e.chans| == |a.chans| && e.mtu == a.mtu && e.nextSerial == a.nextSerial && e.nextSendId == a.nextSendId && e.life == a.life
    requires call.Send?
    ensures var b, f := DoCall(a, call), DoCall(e, call);
            b.life == f.life && b.nextSendId == f.nextSendId && i < |f.chans| && Slot(f.chans[i], ty) == Slot(e.chans[i], ty)
  {
    SendSlots(e, i, ty, call);
    assert CreateOp(e, call.opcode, call.payload, call.callback, call.destroy) == CreateOp(a, call.opcode, call.payload, call.callback, call.destroy) by {
      hide OpTypeOf;
    }
    hide DoSend, CreateOp;
    if CreateOp(a, call.opcode, call.payload, call.callback, call.destroy).Some? {
      SendLife(a, call.opcode, call.payload, call.callback, call.destroy);
      SendLife(e, call.opcode, call.payload, call.callback, call.destroy);
    } else {
      Refused(a, call.opcode, call.payload, call.callback, call.destroy);
      Refused(e, call.opcode, call.payload, call.callback, call.destroy);
    }
  }

  lemma SendSlots(e: Att, i: nat, ty: OpType, call: Call)
    requires i < |e.chans| && call.Send?
    ensures i < |DoCall(e, call).chans| && Slot(DoCall(e, call).chans[i], ty) == Slot(e.chans[i], ty)
  {
    hide OpTypeOf;
  }

  lemma SimFinish(a: Att, i: nat, ty: OpType, rsp: byte, data: seq<byte>, during: seq<Call>, chain: bool, g: G.G) returns (ts: seq<G.Turn>)
    requires i < |a.chans| && Sound(a, multiset{}) && Rel(a, g) && Single(a, during)
    requires Slot(a.chans[i], ty).Some? ==> Opcodes.Answers(rsp, Slot(a.chans[i], ty).value.opcode)
    ensures Steps(a, Finish(a, i, ty, rsp, data, during), g, ts, chain && during != [])
  {
    hide Sound, Steps, Single, CallAndRun;
    if Slot(a.chans[i], ty).None? {
      ts := [];
      StepsNone(a, a, g);
    } else {
      var op := Slot(a.chans[i], ty).value;
      SlotInPool(a, i, ty, op);
      ts := SimAnswered(a, op, rsp, data, during, chain, multiset{}, g);
      FinishLife(a, i, ty, rsp, data, during);
      hide Finish;
      StepsAt(a, a, DestroyOp(CallAndRun(a, op, rsp, data, during), op), Finish(a, i, ty, rsp, data, during), g, ts, chain && during != []);
    }
  }

  lemma SimHandleRsp(a: Att, i: nat, opcode: byte, body: seq<byte>, env: RxEnv, during: seq<Call>, chain: bool, g: G.G) returns (ts: seq<G.Turn>)
    requires i < |a.chans| && Sound(a, multiset{}) && Rel(a, g) && Single(a, during)
    ensures Steps(a, HandleRsp(a, i, opcode, body, env, during), g, ts, chain && during != [])
  {
    hide Sound, Steps, Single, Finish, ReqOpcodeOf, ChangeSecurity;
    var c, b := a.chans[i], HandleRsp(a, i, opcode, body, env, during);
    ts := [];
    match c.pendingReq
    case None => StepsNone(a, b, g);
    case Some(op) =>
      var raised := if opcode == ERROR_RSP && |body| == 4 then ChangeSecurity(c, body[3], env) else None;
      if raised.Some? {
        StepsNone(a, b, g);
      } else if opcode == ERROR_RSP || (ReqOpcodeOf(opcode) != 0 && ReqOpcodeOf(opcode) == op.opcode) {
        ts := SimFinish(a, i, Req, opcode, body, during, chain, g);
        var us := SimFinish(a, i, Req, ERROR_RSP, [], during, chain, g);
        ts := if b == Finish(a, i, Req, opcode, body, during) then ts else us;
      } else {
        ts := SimFinish(a, i, Req, ERROR_RSP, [], during, chain, g);
      }
  }

  lemma SimNotify(a: Att, i: nat, opcode: byte, env: RxEnv, during: seq<Call>, g: G.G) returns (ts: seq<G.Turn>)
    requires i < |a.chans| && Sound(a, multiset{}) && Rel(a, g) && GentleCalls(during)
    ensures Steps(a, HandleNotify(a, i, opcode, env, during), g, ts, false)
  {
    hide Sound, Steps, DoSend, OpTypeOf, RunCalls, GentleCalls;
    var b := HandleNotify(a, i, opcode, env, during);
    var a1 := a.(wire := a.wire + [Delivered(a.chans[i].cid, opcode)]);
    var a2 := a1.(wire := a1.wire + [Handled(a.chans[i].cid, opcode)]);
    SoundSame(a, a1, multiset{});
    SoundSame(a, a2, multiset{});
    var none := [];
    StepsNone(a, a1, g);
    StepsNone(a, a2, g);
    if b == RunCalls(a2, during) {
      ts := SimCalls(a2, during, g);
      StepsFrom(a, a2, b, g, ts);
    } else if b == RespondNotSupported(a1, opcode) {
      ts := SimSend(a1, ERROR_RSP, [opcode, 0, 0, ECODE_REQUEST_NOT_SUPPORTED], false, multiset{}, g);
      StepsFrom(a, a1, b, g, ts);
    } else {
      ts := none;
      StepsNone(a, b, g);
    }
  }

  // The first request of a channel is marked and delivered.
  lemma SimServe(a: Att, i: nat, opcode: byte, env: RxEnv, during: seq<Call>, g: G.G) returns (ts: seq<G.Turn>)
    requires i < |a.chans| && Sound(a, multiset{}) && Rel(a, g) && GentleCalls(during)
    ensures Steps(a, HandleNotify(SetChan(a, i, a.chans[i].(inReq := true)), i, opcode, env, during), g, ts, false)
  {
    hide Sound, Steps, HandleNotify, GentleCalls;
    var c := a.chans[i].(inReq := true);
    var a1 := SetChan(a, i, c);
    PoolStill(a, i, c);
    SoundSame(a, a1, multiset{});
    ts := SimNotify(a1, i, opcode, env, during, g);
    StepsFrom(a, a1, HandleNotify(a1, i, opcode, env, during), g, ts);
  }

  lemma SimConf(a: Att, i: nat, body: seq<byte>, during: seq<Call>, chain: bool, g: G.G) returns (ts: seq<G.Turn>)
    requires i < |a.chans| && Sound(a, multiset{}) && Places(a) && Rel(a, g) && Single(a, during)
    ensures Steps(a, HandleConf(a, i, body, during), g, ts, chain && during != [])
  {
    hide Sound, Places, Steps, Single, Finish, Rel;
    ts := [];
    if a.chans[i].pendingInd.None? || body != [] {
      StepsShut(a, i, g);
    } else {
      IndOpcode(a, i);
      ts := SimFinish(a, i, Ind, HANDLE_CONF, [], during, chain, g);
    }
  }

  lemma StepsShut(a: Att, i: nat, g: G.G)
    requires i < |a.chans| && Rel(a, g)
    ensures forall more {:trigger Steps(a, ShutChan(a, i), g, [], more)} :: Steps(a, ShutChan(a, i), g, [], more)
  {
    StepsNone(a, ShutChan(a, i), g);
  }

  lemma GentleTold(a: Att, bytes: seq<byte>, pdu: seq<byte>, during: seq<Call>, chain: bool)
    requires GentleRead(a, bytes, during) && pdu <= bytes && pdu != []
    ensures if OpTypeOf(pdu[0]).Rsp? || OpTypeOf(pdu[0]).Conf? then Single(a, during) else GentleCalls(during)
    ensures GoesOnRead(bytes, during, chain) <==> chain && during != [] && (OpTypeOf(pdu[0]).Rsp? || OpTypeOf(pdu[0]).Conf?)
  {
    hide OpTypeOf, Single, GentleCalls;
  }

  lemma SimRead(a: Att, i: nat, bytes: seq<byte>, env: RxEnv, during: seq<Call>, chain: bool, g: G.G) returns (ts: seq<G.Turn>)
    requires i < |a.chans| && Sound(a, multiset{}) && Places(a) && Rel(a, g) && GentleRead(a, bytes, during)
    ensures Steps(a, DoRead(a, i, bytes, env, during), g, ts, GoesOnRead(bytes, during, chain))
  {
    hide Sound, Places, Steps, Single, HandleRsp, HandleNotify, Finish, OpTypeOf, GentleRead, GoesOnRead, GentleCalls;
    var c, b := a.chans[i], DoRead(a, i, bytes, env, during);
    var pdu := if |bytes| <= c.mtu then bytes else bytes[..c.mtu];
    if |pdu| >= 1 { GentleTold(a, bytes, pdu, during, chain); }
    hide Rel;
    ts := [];
    if |pdu| < 1 {
      StepsNone(a, b, g);
    } else {
      match OpTypeOf(pdu[0])
      case Rsp => ts := SimHandleRsp(a, i, pdu[0], pdu[1..], env, during, chain, g);
      case Conf =>
        ts := SimConf(a, i, pdu[1..], during, chain, g);
      case Req =>
        if c.inReq { StepsShut(a, i, g); } else { ts := SimServe(a, i, pdu[0], env, during, g); }
      case _ => ts := SimNotify(a, i, pdu[0], env, during, g);
    }
  }

  lemma SimTimeout(a: Att, tid: nat, g: G.G) returns (ts: seq<G.Turn>)
    requires Inv(a) && Rel(a, g)
    ensures Steps(a, DoTimeout(a, tid, [], []), g, ts, false)
  {
    hide Sound, Kept, Steps;
    ts := [];
    var b := DoTimeout(a, tid, [], []);
    if tid in a.timers {
      var op, i, ty := TimerHitsItsOperation(a, tid);
      ts := SimAnswered(a, op, ERROR_RSP, [], [], false, multiset{}, g);
      var c := DestroyOp(CallAndRun(a, op, ERROR_RSP, [], []), op);
      TimeoutLife(a, tid, op, i, ty);
      hide DoTimeout, CallAndRun;
      StepsAt(a, a, c, b, g, ts, false);
    } else {
      StepsNone(a, b, g);
    }
  }

  lemma TimeoutLife(a: Att, tid: nat, op: Op, i: nat, ty: OpType)
    requires tid in a.timers && (ty == Req || ty == Ind)
    requires i == FindChan(a.chans, a.timers[tid].cid) < |a.chans| && Slot(a.chans[i], ty) == Some(op)
    requires SlotHasId(a.chans[i], ty, a.timers[tid].opId) && (ty == Ind ==> !SlotHasId(a.chans[i], Req, a.timers[tid].opId))
    ensures var b, c := DoTimeout(a, tid, [], []), DestroyOp(CallAndRun(a, op, ERROR_RSP, [], []), op);
            b.life == c.life && b.nextSendId == c.nextSendId
  {
    var r := Release(a.(timers := a.timers - {tid}), i, op, ty, ByTimeout);
    RunNone(r);
    RunNone(CallOp(r, op, ERROR_RSP, []));
    RunNone(CallOp(a, op, ERROR_RSP, []));
    hide RunCalls;
  }

  // ---- Disconnection and teardown ------------------------------------------------------------

  const NOCALLS: map<nat, seq<Call>> := map[]

  lemma SimDisc(a: Att, op: Op, hand: multiset<Op>, g: G.G) returns (ts: seq<G.Turn>)
    requires Sound(a, hand) && op in hand && Rel(a, g)
    ensures Steps(a, DiscOp(a, op, NOCALLS), g, ts, false)
  {
    hide Sound, Steps, CallAndRun;
    ts := SimAnswered(a, op, ERROR_RSP, [], [], false, hand, g);
  }

  lemma {:induction false} SimDiscOps(a: Att, ops: seq<Op>, hand: multiset<Op>, g: G.G) returns (ts: seq<G.Turn>)
    requires Sound(a, hand + multiset(ops)) && Rel(a, g)
    ensures Steps(a, DiscOps(a, ops, NOCALLS), g, ts, false)
    decreases |ops|
  {
    hide Sound, Rel, Steps, DiscOp;
    if ops == [] {
      ts := [];
      StepsNone(a, a, g);
    } else {
      assert ops == [ops[0]] + ops[1..];
      var rest := multiset(ops[1..]);
      assert hand + multiset(ops) == hand + rest + multiset{ops[0]};
      ts := SimDisc(a, ops[0], hand + rest + multiset{ops[0]}, g);
      SoundDisc(a, ops[0], NOCALLS, hand + rest);
      var b := DiscOp(a, ops[0], NOCALLS);
      StepsRel(a, b, g, ts, false);
      var us := SimDiscOps(b, ops[1..], hand, G.Run(g, ts));
      StepsTwice(a, b, DiscOps(b, ops[1..], NOCALLS), g, ts, us);
      ts := ts + us;
    }
  }

  // One shared queue is emptied and failed, or destroyed.
  lemma SimQueue(a: Att, a0: Att, q: seq<Op>, fail: bool, hand: multiset<Op>, g: G.G) returns (ts: seq<G.Turn>)
    requires Sound(a, hand) && Rel(a, g) && a0.life == a.life && a0.nextSendId == a.nextSendId
    requires a0.chans == a.chans && LedgerOf(a0) == LedgerOf(a) && SharedPool(a) == SharedPool(a0) + multiset(q)
    ensures var b := if fail then DiscOps(a0, q, NOCALLS) else DestroyOps(a0, q);
            Steps(a, b, g, ts, false) && Sound(b, hand) && Rel(b, G.Run(g, ts))
  {
    SoundTakeAll(a, a0, q, hand);
    hide Sound, DiscOps, DestroyOps, SharedPool;
    var b := if fail then DiscOps(a0, q, NOCALLS) else DestroyOps(a0, q);
    if fail {
      ts := SimDiscOps(a0, q, hand, g);
      SoundDiscOps(a0, q, NOCALLS, hand);
    } else {
      ts := SimDestroyOps(a0, q, hand, g);
      SoundDestroyOps(a0, q, hand);
    }
    StepsFrom(a, a0, b, g, ts);
    StepsRel(a, b, g, ts, false);
  }

  lemma SimQueues(a: Att, fail: bool, hand: multiset<Op>, g: G.G) returns (ts: seq<G.Turn>)
    requires Sound(a, hand) && Rel(a, g)
    ensures var b := if fail then DiscQueues(a, NOCALLS) else DestroyQueues(a);
            Steps(a, b, g, ts, false) && Sound(b, hand) && Rel(b, G.Run(g, ts))
  {
    hide Sound, Rel, Steps, DiscOps, DestroyOps, SharedPool;
    TakeShared(a);
    var a0 := a.(reqQ := []);
    ts := SimQueue(a, a0, a.reqQ, fail, hand, g);
    var a1 := if fail then DiscOps(a0, a.reqQ, NOCALLS) else DestroyOps(a0, a.reqQ);
    TakeShared(a1);
    var b0 := a1.(indQ := []);
    var us := SimQueue(a1, b0, a1.indQ, fail, hand, G.Run(g, ts));
    var a2 := if fail then DiscOps(b0, a1.indQ, NOCALLS) else DestroyOps(b0, a1.indQ);
    StepsTwice(a, a1, a2, g, ts, us);
    RunTurns(g, ts, us);
    ts := ts + us;
    TakeShared(a2);
    var c0 := a2.(writeQ := []);
    us := SimQueue(a2, c0, a2.writeQ, fail, hand, G.Run(g, ts));
    var a3 := if fail then DiscOps(c0, a2.writeQ, NOCALLS) else DestroyOps(c0, a2.writeQ);
    StepsTwice(a, a2, a3, g, ts, us);
    RunTurns(g, ts, us);
    ts := ts + us;
  }

  // What a slot held is failed, or destroyed.
  lemma SimSlot(a: Att, o: Option<Op>, fail: bool, hand: multiset<Op>, g: G.G) returns (ts: seq<G.Turn>)
    requires Sound(a, hand + SlotPool(o)) && Rel(a, g)
    ensures var b := if fail then DiscSlot(a, o, NOCALLS) else DestroySlot(a, o);
            Steps(a, b, g, ts, false) && Sound(b, hand) && Rel(b, G.Run(g, ts))
  {
    hide Sound, Steps, DiscOp, DestroyOp;
    var b := if fail then DiscSlot(a, o, NOCALLS) else DestroySlot(a, o);
    ts := [];
    if o.None? {
      StepsNone(a, a, g);
      assert hand + SlotPool(o) == hand;
    } else if fail {
      ts := SimDisc(a, o.value, hand + multiset{o.value}, g);
      SoundDiscSlot(a, o, NOCALLS, hand);
    } else {
      ts := SimDestroy(a, o.value, hand + multiset{o.value}, g);
      SoundDestroySlot(a, o, hand);
    }
    StepsRel(a, b, g, ts, false);
  }

  // The operations of a detached channel, all of them in the hand.
  lemma SimParts(a: Att, c: Chan, fail: bool, g: G.G) returns (ts: seq<G.Turn>)
    requires Sound(a, ChanPool(c)) && Rel(a, g)
    ensures var b := if fail then DiscSlot(DiscSlot(a, c.pendingReq, NOCALLS), c.pendingInd, NOCALLS)
                     else DestroySlot(DestroySlot(a, c.pendingReq), c.pendingInd);
            Steps(a, DestroyOps(b, c.queue), g, ts, false) && Sound(DestroyOps(b, c.queue), multiset{})
  {
    hide Sound, Rel, Steps, ChanPool, DiscSlot, DestroySlot, DestroyOps, SlotPool;
    HandParts(c);
    var q, none := multiset(c.queue), multiset{};
    ts := SimSlot(a, c.pendingReq, fail, q + SlotPool(c.pendingInd), g);
    var a1 := if fail then DiscSlot(a, c.pendingReq, NOCALLS) else DestroySlot(a, c.pendingReq);
    var us := SimSlot(a1, c.pendingInd, fail, q, G.Run(g, ts));
    var a2 := if fail then DiscSlot(a1, c.pendingInd, NOCALLS) else DestroySlot(a1, c.pendingInd);
    StepsTwice(a, a1, a2, g, ts, us);
    RunTurns(g, ts, us);
    ts := ts + us;
    assert none + q == q;
    us := SimDestroyOps(a2, c.queue, none, G.Run(g, ts));
    SoundDestroyOps(a2, c.queue, none);
    StepsTwice(a, a2, DestroyOps(a2, c.queue), g, ts, us);
    ts := ts + us;
  }

  lemma SimDisconnect(a: Att, i: nat, after: seq<Call>, g: G.G) returns (ts: seq<G.Turn>)
    requires i < |a.chans| && Sound(a, multiset{}) && Rel(a, g) && GentleCalls(after)
    ensures Steps(a, DoDisconnect(a, i, NOCALLS, after), g, ts, false)
  {
    hide Sound, Steps, DiscQueues, DiscSlot, DestroyOps, ChanPool, RunCalls, GentleCalls;
    var c, b := a.chans[i], DoDisconnect(a, i, NOCALLS, after);
    var a0 := a.(chans := a.chans[..i] + a.chans[i + 1..], wire := a.wire + [Closed(c.cid)]);
    SoundDetach(a, a0, i);
    ts := SimQueues(a0, true, ChanPool(c), g);
    var a3 := DiscQueues(a0, NOCALLS);
    var us := SimParts(a3, c, true, G.Run(g, ts));
    var a5 := DestroyOps(DiscSlot(DiscSlot(a3, c.pendingReq, NOCALLS), c.pendingInd, NOCALLS), c.queue);
    StepsTwice(a0, a3, a5, g, ts, us);
    ts := ts + us;
    if a5.chans == [] {
      StepsRel(a0, a5, g, ts, false);
      var vs := SimCalls(a5, after, G.Run(g, ts));
      StepsTwice(a0, a5, RunCalls(a5, after), g, ts, vs);
      ts := ts + vs;
      StepsAt(a, a0, RunCalls(a5, after), b, g, ts, false);
    } else {
      StepsAt(a, a0, a5, b, g, ts, false);
    }
  }

  lemma {:induction false} SimStripFrom(a: Att, i: nat, g: G.G) returns (ts: seq<G.Turn>)
    requires i <= |a.chans| && Sound(a, multiset{}) && Rel(a, g)
    ensures Steps(a, StripFrom(a, i), g, ts, false)
    decreases |a.chans| - i
  {
    hide Sound, Rel, Steps, StripSlot;
    if i == |a.chans| {
      ts := [];
      StepsNone(a, a, g);
    } else {
      ts := SimStripSlot(a, i, Req, multiset{}, g);
      SoundStripSlot(a, i, Req, multiset{});
      var b := StripSlot(a, i, Req);
      StepsRel(a, b, g, ts, false);
      var us := SimStripSlot(b, i, Ind, multiset{}, G.Run(g, ts));
      SoundStripSlot(b, i, Ind, multiset{});
      var c := StripSlot(b, i, Ind);
      StepsTwice(a, b, c, g, ts, us);
      ts := ts + us;
      StepsRel(a, c, g, ts, false);
      us := SimStripFrom(c, i + 1, G.Run(g, ts));
      StepsTwice(a, c, StripFrom(c, i + 1), g, ts, us);
      ts := ts + us;
    }
  }

  lemma SimCancelAll(a: Att, g: G.G) returns (ts: seq<G.Turn>)
    requires Sound(a, multiset{}) && Rel(a, g)
    ensures Steps(a, DoCancelAll(a), g, ts, false)
  {
    hide Sound, Rel, Steps, DestroyQueues, StripFrom;
    ts := SimQueues(a, false, multiset{}, g);
    var b := DestroyQueues(a);
    var us := SimStripFrom(b, 0, G.Run(g, ts));
    StepsTwice(a, b, StripFrom(b, 0), g, ts, us);
    ts := ts + us;
  }

  lemma {:induction false} SimFreeChans(a: Att, g: G.G) returns (ts: seq<G.Turn>)
    requires Inv(a) && Rel(a, g)
    ensures Steps(a, FreeChans(a), g, ts, false)
    decreases |a.chans|
  {
    if a.chans == [] {
      ts := [];
      StepsNone(a, a, g);
    } else {
      hide Inv, Steps, FreeChan;
      ts := SimFreeHead(a, g);
      var b := FreeChan(a.(chans := a.chans[1..]), a.chans[0]);
      InvFreeHead(a);
      StepsRel(a, b, g, ts, false);
      var us := SimFreeChans(b, G.Run(g, ts));
      StepsTwice(a, b, FreeChans(b), g, ts, us);
      ts := ts + us;
    }
  }

  lemma SimFreeHead(a: Att, g: G.G) returns (ts: seq<G.Turn>)
    requires Inv(a) && a.chans != [] && Rel(a, g)
    ensures Steps(a, FreeChan(a.(chans := a.chans[1..]), a.chans[0]), g, ts, false)
  {
    hide Sound, Kept, Steps, DestroyOps, DestroySlot, ChanPool;
    var c, a0 := a.chans[0], a.(chans := a.chans[1..]);
    assert a.chans[1..] == a.chans[..0] + a.chans[1..];
    SoundDetach(a, a0, 0);
    ts := SimParts(a0, c, false, g);
    StepsAt(a, a0, DestroyOps(DestroySlot(DestroySlot(a0, c.pendingReq), c.pendingInd), c.queue), FreeChan(a0, c), g, ts, false);
  }

  lemma SimClose(a: Att, g: G.G) returns (ts: seq<G.Turn>)
    requires Inv(a) && Rel(a, g)
    ensures Steps(a, DoClose(a), g, ts, false)
  {
    hide Steps, DoCancelAll, FreeChans, DoCall;
    var a0 := a.(notify := []);
    InvNotify(a, []);
    ts := SimCancelAll(a0, g);
    var b := DoCancelAll(a0);
    InvCall(a0, CancelAll);
    assert b == DoCall(a0, CancelAll) by { IsCancelAll(a0); }
    hide Inv;
    StepsRel(a0, b, g, ts, false);
    var us := SimFreeChans(b, G.Run(g, ts));
    StepsTwice(a0, b, FreeChans(b), g, ts, us);
    ts := ts + us;
    StepsFrom(a, a0, DoClose(a), g, ts);
  }

  lemma IsCancelAll(a: Att)
    ensures DoCall(a, CancelAll) == DoCancelAll(a)
  {
  }

  // ---- Every step, every run -----------------------------------------------------------------

  // What gattrib and sequential procedures can bring about: sends with both handlers or neither,
  // whoever makes them, and response callbacks that send one request or none, none after an error.
  ghost predicate Gentle(a: Att, act: Action) {
    match act
    case Api(call) => GentleCall(call)
    case WriterReady(_, _, during) => during == []
    case Received(_, bytes, _, during) => GentleRead(a, bytes, during)
    case TimerFired(_, first, during) => first == [] && during == []
    case Disconnected(_, each, after) => each == NOCALLS && GentleCalls(after)
    case _ => true
  }

  // Whether the callback this action runs sends a request that goes on with its procedure, when `chain`
  // says that what is sent does so.
  predicate GoesOn(act: Action, chain: bool) { act.Received? && GoesOnRead(act.bytes, act.during, chain) }

  // Every gentle step of the engine is a run of gattrib's machine that answers the very requests whose
  // callbacks the step ran, in that order, and goes on with their procedures as the callbacks did.
  lemma StepRefines(a: Att, act: Action, chain: bool, g: G.G) returns (ts: seq<G.Turn>)
    requires Inv(a) && Rel(a, g) && Gentle(a, act)
    ensures Steps(a, Step(a, act), g, ts, GoesOn(act, chain)) && Rel(Step(a, act), G.Run(g, ts))
  {
    hide Sound, Kept, Steps, Rel, DoCall, DoWrite, DoRead, DoTimeout, DoDisconnect, DoAttach, DoUnref, GoesOnRead;
    var b := Step(a, act);
    ts := [];
    StepsNone(a, a, g);
    match act {
      case Api(call) => ts := SimCall(a, call, g);
      case WriterReady(i, written, during) =>
        if i < |a.chans| && a.chans[i].writerActive { ts := SimWrite(a, i, written, g); }
      case Received(i, bytes, env, during) =>
        KeptPlaces(a);
        if i < |a.chans| { ts := SimRead(a, i, bytes, env, during, chain, g); }
      case TimerFired(tid, _, _) => ts := SimTimeout(a, tid, g);
      case Disconnected(i, _, after) => if i < |a.chans| { ts := SimDisconnect(a, i, after, g); }
      case Unref => ts := SimUnref(a, g);
      case Attach(ioMtu, level) =>
        AttachLife(a, ioMtu, level);
        StepsNone(a, b, g);
      case _ => StepsNone(a, b, g);
    }
    StepsRel(a, b, g, ts, GoesOn(act, chain));
  }

  lemma SimUnref(a: Att, g: G.G) returns (ts: seq<G.Turn>)
    requires Inv(a) && Rel(a, g)
    ensures Steps(a, DoUnref(a), g, ts, false)
  {
    hide Inv, Steps, DoClose;
    ts := [];
    if a.refs == 1 {
      var a0 := a.(refs := 0);
      InvRefs(a, 0);
      ts := SimClose(a0, g);
      StepsFrom(a, a0, DoClose(a0), g, ts);
    } else {
      StepsNone(a, DoUnref(a), g);
    }
  }

  lemma AttachLife(a: Att, ioMtu: u16, level: int)
    ensures DoAttach(a, ioMtu, level).life == a.life && DoAttach(a, ioMtu, level).nextSendId == a.nextSendId
  {
  }

  ghost predicate GentleRun(a: Att, acts: seq<Action>)
    decreases |acts|
  {
    acts != [] ==> Plain(acts[0]) && Gentle(a, acts[0]) && GentleRun(Step(a, acts[0]), acts[1..])
  }

  function Flat(tss: seq<seq<G.Turn>>): seq<G.Turn> { if tss == [] then [] else tss[0] + Flat(tss[1..]) }

  // gattrib keeps step with the engine, action by action.
  ghost predicate Shadows(a: Att, acts: seq<Action>, chains: seq<bool>, g: G.G, tss: seq<seq<G.Turn>>)
    requires |chains| == |acts|
    decreases |acts|
  {
    && |tss| == |acts|
    && (acts != [] ==>
          var b := Step(a, acts[0]);
          Steps(a, b, g, tss[0], GoesOn(acts[0], chains[0])) && Shadows(b, acts[1..], chains[1..], G.Run(g, tss[0]), tss[1..]))
  }

  // Every gentle run: gattrib keeps step with it, and its callbacks are the engine's, one by one.
  lemma {:induction false} RunRefines(a: Att, acts: seq<Action>, chains: seq<bool>, g: G.G) returns (tss: seq<seq<G.Turn>>)
    requires Inv(a) && Rel(a, g) && GentleRun(a, acts) && |chains| == |acts|
    ensures var b, ts := Run(a, acts), Flat(tss);
            && Inv(b) && Shadows(a, acts, chains, g, tss) && Rel(b, G.Run(g, ts))
            && CallsIn(b.life) == CallsIn(a.life) + Ids(G.Answered(g, ts))
    decreases |acts|
  {
    hide Inv, Rel, Steps, Step, Plain, Gentle, GoesOn, CallsIn, G.Answered;
    tss := [];
    if acts == [] {
      StepsNone(a, a, g);
      StepsCalls(a, a, g, [], false);
      StepsRel(a, a, g, [], false);
    } else {
      var ts := StepRefines(a, acts[0], chains[0], g);
      InvStep(a, acts[0]);
      var b := Step(a, acts[0]);
      tss := RunRefines(b, acts[1..], chains[1..], G.Run(g, ts));
      StepsCalls(a, b, g, ts, GoesOn(acts[0], chains[0]));
      RunTurns(g, ts, Flat(tss));
      IdsConcat(G.Answered(g, ts), G.Answered(G.Run(g, ts), Flat(tss)));
      var x, y, z := CallsIn(a.life), Ids(G.Answered(g, ts)), Ids(G.Answered(G.Run(g, ts), Flat(tss)));
      assert (x + y) + z == x + (y + z);
      assert ([ts] + tss)[1..] == tss;
      tss := [ts] + tss;
    }
  }

  lemma StepsCalls(a: Att, b: Att, g: G.G, ts: seq<G.Turn>, more: bool)
    requires Steps(a, b, g, ts, more)
    ensures CallsIn(b.life) == CallsIn(a.life) + Ids(G.Answered(g, ts))
  {
  }

  lemma IdsConcat(xs: seq<G.Answer>, ys: seq<G.Answer>)
    ensures Ids(xs + ys) == Ids(xs) + Ids(ys)
  {
  }

  // From a new bearer and a new GAttrib.  Users are called by exactly those of the engine's callbacks
  // that did not go on with their procedure.
  lemma Refines(link: Link, ioMtu: u16, level: int, crypto: bool, acts: seq<Action>, chains: seq<bool>)
    returns (tss: seq<seq<G.Turn>>)
    requires NewAtt(link, ioMtu, level, crypto).Some? && |chains| == |acts|
    requires GentleRun(NewAtt(link, ioMtu, level, crypto).value, acts)
    ensures var a := NewAtt(link, ioMtu, level, crypto).value; var b, g, xs := Run(a, acts), G.Run(G.NEW, Flat(tss)), G.Answered(G.NEW, Flat(tss));
            && Inv(b) && Shadows(a, acts, chains, G.NEW, tss) && Rel(b, g)
            && CallsIn(b.life) == Ids(xs) && g.called == G.Ended(xs)
  {
    var a := NewAtt(link, ioMtu, level, crypto).value;
    InvNew(link, ioMtu, level, crypto);
    G.InvNew();
    assert a.life == [] && Rel(a, G.NEW) && CallsIn(a.life) == [] && G.NEW.called == [];
    hide Inv, Rel, Run, GentleRun, Shadows, CallsIn, G.Answered, G.Ended, G.Run;
    tss := RunRefines(a, acts, chains, G.NEW);
    G.UsersTold(G.NEW, Flat(tss));
  }

  // Cancelling a procedure that is not over, on the engine itself: bt_att_cancel finds its request and
  // takes its handlers, and no callback runs.  Whatever gentle run follows, the engine never runs the
  // callback of that request, nor of any other request of the procedure, and its user is never called.
  lemma CancelReachesTheBearer(a: Att, g: G.G, id: nat, acts: seq<Action>, chains: seq<bool>)
    returns (pend: nat, tss: seq<seq<G.Turn>>)
    requires Inv(a) && Rel(a, g) && id > 0 && G.Active(g, id)
    requires |chains| == |acts|
    requires forall p :: p in g.live && g.live[p].proc == id ==> GentleRun(DoCancel(a, p).0, acts)
    ensures pend in g.live && g.live[pend].proc == id
    ensures var (b, done) := DoCancel(a, pend); var g1 := G.Cancel(g, id).0;
            done && CallsIn(b.life) == CallsIn(a.life) && Rel(b, g1) && !Attached(b.life, pend)
    ensures var b, g1 := DoCancel(a, pend).0, G.Cancel(g, id).0;
            var c, xs := Run(b, acts), G.Answered(g1, Flat(tss));
            && Shadows(b, acts, chains, g1, tss) && CallsIn(c.life) == CallsIn(b.life) + Ids(xs)
            && (forall k :: 0 <= k < |xs| ==> xs[k].proc != id && xs[k].pend != pend)
    ensures var g2 := G.Run(G.Cancel(g, id).0, Flat(tss)); (id in g2.called <==> id in g.called) && G.RefsOf(g2, id) == 0
  {
    G.CancelEffect(g, id);
    pend :| pend in g.live && g.live[pend].proc == id && G.Cancel(g, id).0 == G.Detach(g, pend);
    var us := CancelSteps(a, pend, g);
    var b, g1 := DoCancel(a, pend).0, G.Cancel(g, id).0;
    G.InvDetach(g, pend);
    G.DetachEffect(g, pend);
    assert pend !in g1.live && pend < g1.next;
    InvCall(a, Call.Cancel(pend));
    assert 0 < id < g1.next;
    hide Inv, DoCancel, G.Cancel, G.Detach, Run, GentleRun, Shadows, CallsIn, G.Answered;
    assert Inv(b) by { IsCancel(a, pend); }
    tss := RunRefines(b, acts, chains, g1);
    var ts := Flat(tss);
    G.InvRun(g1, ts, id);
    G.OverHasNone(G.Run(g1, ts), id);
    G.OverUnanswered(g1, ts, id);
    G.GoneUnanswered(g1, ts, pend);
  }

  lemma IsCancel(a: Att, id: nat)
    ensures DoCall(a, Call.Cancel(id)) == DoCancel(a, id).0
  {
  }

  lemma CancelSteps(a: Att, pend: nat, g: G.G) returns (ts: seq<G.Turn>)
    requires Inv(a) && Rel(a, g) && pend in g.live
    ensures DoCancel(a, pend).1 && Rel(DoCancel(a, pend).0, G.Detach(g, pend)) && CallsIn(DoCancel(a, pend).0.life) == CallsIn(a.life)
  {
    assert Attached(a.life, pend);
    hide DoCancel, Kept, Pool, Sound, Attached, Hit;
    HeldInPool(a, pend);
    CancelExact(a, pend);
    var b := DoCancel(a, pend).0;
    ts := SimHit(a, b, pend, multiset{}, g);
    DroppedOne(g, pend);
    hide G.Run, G.Detach, Match;
    assert Follows(a.life, b.life, b.nextSendId, g, [G.Dropped(pend)], false);
  }

  lemma DroppedOne(g: G.G, pend: nat)
    requires pend in g.live
    ensures G.Run(g, [G.Dropped(pend)]) == G.Detach(g, pend) && G.Answered(g, [G.Dropped(pend)]) == []
  {
    RunOne(g, G.Dropped(pend));
    hide G.Detach;
  }

  lemma HeldInPool(a: Att, id: nat)
    requires Sound(a, multiset{}) && Attached(a.life, id)
    ensures exists op :: op in Pool(a) && op.id == id
  {
    var k: nat :| Held(StageOf(a.life, k), id);
    var p := Pool(a) + multiset{};
    assert Holds(p, k);
    var op :| op in p && op.serial == k;
    assert OpBooked(op, LedgerOf(a));
    assert op in Pool(a);
  }
}
