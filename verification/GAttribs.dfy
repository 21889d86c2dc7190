// The id chain of attrib/gattrib.c: one procedure id stands for a chain of requests, and cancelling
// it works between any two turns of the event loop.
//
// The bearer below is reduced to what its theorems give: requests get fresh ids, the handlers of a
// request run at most once, the callback before the destroy handler, and bt_att_cancel on a live id
// runs the destroy handler at once.  `live` holds the requests whose handlers are still attached.

module GAttribs {
  import opened Wire
  import opened Opcodes
  import opened GattWire
  import P = GattPrimary
  import I = GattIncluded
  import C = GattChars
  import D = GattDescs
  import L = GattLong

  // struct id_pair
  datatype Pair = Pair(org: nat, pend: nat)

  // struct attrib_callbacks: the request it belongs to and the procedure its user data is.
  datatype Cb = Cb(pend: nat, proc: nat)

  // The GAttrib with the bearer's ids, the references each procedure holds, and the procedures whose
  // user has been called, in order.
  datatype G = G(callbacks: seq<Cb>, tracks: seq<Pair>, live: map<nat, Cb>, next: nat,
                 refs: map<nat, int>, called: seq<nat>)

  const NEW: G := G([], [], map[], 1, map[], [])

  // ---- What a callback is given --------------------------------------------------------------

  // attrib_callback_result: the bearer's response as the procedures see it.
  function ReplyOf(opcode: byte, body: seq<byte>): Reply {
    Reply(if opcode != ERROR_RSP then 0 else if |body| < 4 then ECODE_UNLIKELY else body[3], [opcode] + body)
  }

  // What a request lost to a timeout, a disconnection or a failed write hands over.
  const LOST: Reply := ReplyOf(ERROR_RSP, [])

  // Whatever the bearer hands over is a reply the procedures can be given, and a lost request ends
  // every one of them: with "unlikely error", or with what a long read has so far.
  lemma LostRequestEnds(opcode: byte, body: seq<byte>)
    ensures |ReplyOf(opcode, body).pdu| >= 1
    ensures opcode != ERROR_RSP ==> ReplyOf(opcode, body) == Reply(0, [opcode] + body)
    ensures forall s :: P.AllStep(s, LOST).next == Finish(ECODE_UNLIKELY)
    ensures forall s, value :: P.ByStep(value, s, LOST).next == Finish(ECODE_UNLIKELY)
    ensures forall s :: C.Step(None, s, LOST).next == Finish(ECODE_UNLIKELY)
    ensures forall s :: D.Step(None, s, LOST).next == Finish(ECODE_UNLIKELY)
    ensures forall s :: I.FindCb(s, LOST).err != 0
    ensures forall s: L.Long, mtu :: L.ReadCb(s, LOST, mtu, true).out == L.Deliver(ECODE_UNLIKELY, [ERROR_RSP])
    ensures forall s: L.Long, mtu :: s.size as int <= |s.buffer| ==> L.BlobCb(s, LOST, mtu, true).out == L.Deliver(0, s.buffer[..s.size])
    ensures forall s, mtu :: mtu >= 5 ==> L.PrepareCb(s, LOST, mtu).phase == L.Failed(ECODE_UNLIKELY)
  {
  }

  // ---- Operations ----------------------------------------------------------------------------

  function RefsOf(g: G, proc: nat): int { if proc in g.refs then g.refs[proc] else 0 }

  // g_attrib_send for a procedure that holds a reference for the request; id 0 starts a procedure,
  // whose id is then the request's.
  function Send(g: G, id: nat): G {
    var org := if id == 0 then g.next else id;
    var cb := Cb(g.next, org);
    g.(callbacks := [cb] + g.callbacks, tracks := g.tracks + [Pair(org, g.next)],
       live := g.live[g.next := cb], next := g.next + 1, refs := g.refs[org := RefsOf(g, org) + 1])
  }

  function IndexOf<T(==)>(s: seq<T>, x: T): (j: nat)
    ensures j <= |s| && (j < |s| ==> s[j] == x) && forall k :: 0 <= k < j ==> s[k] != x
  {
    if s == [] || s[0] == x then 0 else 1 + IndexOf(s[1..], x)
  }

  // queue_remove
  function Without<T(==)>(s: seq<T>, x: T): seq<T> {
    var j := IndexOf(s, x);
    if j == |s| then s else s[..j] + s[j + 1..]
  }

  // attrib_callbacks_remove, then attrib_callbacks_destroy: the procedure drops its reference.
  function Remove(g: G, cb: Cb): G {
    if IndexOf(g.callbacks, cb) == |g.callbacks| then g
    else g.(callbacks := Without(g.callbacks, cb), refs := g.refs[cb.proc := RefsOf(g, cb.proc) - 1],
            tracks := Without(g.tracks, Pair(cb.proc, cb.pend)))
  }

  // The bearer lets go of a request's handlers.
  function Detach(g: G, pend: nat): G
    requires pend in g.live
  {
    Remove(g.(live := g.live - {pend}), g.live[pend])
  }

  // A response: the callback sends the next request of the chain or calls the user; then the request
  // is destroyed.
  function Respond(g: G, pend: nat, more: bool): G
    requires pend in g.live
  {
    var proc := g.live[pend].proc;
    var g1 := if more then Send(g, proc) else g.(called := g.called + [proc]);
    Detach(g1, pend)
  }

  // Index of the first pair with this original id.
  function FindOrg(tracks: seq<Pair>, id: nat): (j: nat)
    ensures j <= |tracks| && (j < |tracks| ==> tracks[j].org == id) && forall k :: 0 <= k < j ==> tracks[k].org != id
  {
    if tracks == [] || tracks[0].org == id then 0 else 1 + FindOrg(tracks[1..], id)
  }

  // g_attrib_cancel
  function Cancel(g: G, id: nat): (G, bool) {
    var j := FindOrg(g.tracks, id);
    if j == |g.tracks| then (g, false)
    else
      var pend := g.tracks[j].pend;
      var g1 := g.(tracks := g.tracks[..j] + g.tracks[j + 1..]);
      if pend in g1.live then (Detach(g1, pend), true) else (g1, false)
  }

  // ---- Runs ----------------------------------------------------------------------------------

  // A turn of the event loop.  Dropped: the bearer destroys a request without an answer.  Skipped:
  // the bearer gives ids below `next` to others.
  datatype Turn = Start | Responded(pend: nat, more: bool) | Cancelled(id: nat) | Dropped(pend: nat) | Skipped(next: nat)

  function Step(g: G, t: Turn): G {
    match t
    case Start => Send(g, 0)
    case Responded(pend, more) => if pend in g.live then Respond(g, pend, more) else g
    case Cancelled(id) => Cancel(g, id).0
    case Dropped(pend) => if pend in g.live then Detach(g, pend) else g
    case Skipped(next) => if g.next < next then g.(next := next) else g
  }

  function Run(g: G, ts: seq<Turn>): G
    decreases |ts|
  {
    if ts == [] then g else Run(Step(g, ts[0]), ts[1..])
  }

  // A response callback that ran: for which request, of which procedure, and whether it sent another
  // request for it.
  datatype Answer = Answer(pend: nat, proc: nat, more: bool)

  // The callbacks run in a run, in order.
  function Answered(g: G, ts: seq<Turn>): seq<Answer>
    decreases |ts|
  {
    if ts == [] then [] else AnswerOf(g, ts[0]) + Answered(Step(g, ts[0]), ts[1..])
  }

  function AnswerOf(g: G, t: Turn): seq<Answer> {
    if t.Responded? && t.pend in g.live then [Answer(t.pend, g.live[t.pend].proc, t.more)] else []
  }

  // The procedures whose chain ended with one of these answers.
  function Ended(xs: seq<Answer>): seq<nat> {
    if xs == [] then [] else (if xs[0].more then [] else [xs[0].proc]) + Ended(xs[1..])
  }

  // ---- What holds between turns --------------------------------------------------------------

  predicate Active(g: G, proc: nat) { RefsOf(g, proc) > 0 }

  // Requests are numbered; a procedure is named by its first request and has at most one alive.
  ghost predicate Chains(live: map<nat, Cb>, next: nat) {
    && next >= 1
    && (forall p :: p in live ==> 0 < p < next && live[p].pend == p && 0 < live[p].proc <= p)
    && (forall p, q :: p in live && q in live && live[p].proc == live[q].proc ==> p == q)
  }

  // A procedure holds one reference while it has a live request, and none otherwise.
  ghost predicate Counted(refs: map<nat, int>, live: map<nat, Cb>, next: nat) {
    && (forall proc :: proc in refs ==> proc < next && (refs[proc] == 1 || refs[proc] == 0))
    && (forall proc :: proc in refs && refs[proc] == 1 ==> exists p :: p in live && live[p].proc == proc)
    && (forall p :: p in live ==> live[p].proc in refs && refs[live[p].proc] == 1)
  }

  // The list of callbacks holds exactly those of the live requests.
  ghost predicate Listed(cbs: seq<Cb>, live: map<nat, Cb>) {
    Distinct(cbs) && forall cb :: cb in cbs <==> cb.pend in live && live[cb.pend] == cb
  }

  // The tracked pairs name exactly the live requests, each with its procedure.
  ghost predicate Tracked(tracks: seq<Pair>, live: map<nat, Cb>) {
    Distinct(tracks) && forall p :: p in tracks <==> p.pend in live && live[p.pend].proc == p.org
  }

  // The user of a procedure is called once, and only when it holds nothing any more.
  ghost predicate Told(called: seq<nat>, refs: map<nat, int>, next: nat) {
    && Distinct(called)
    && (forall k :: 0 <= k < |called| ==> 0 < called[k] < next && !(called[k] in refs && refs[called[k]] > 0))
  }

  ghost predicate Inv(g: G) {
    && Chains(g.live, g.next) && Counted(g.refs, g.live, g.next) && Listed(g.callbacks, g.live) && Tracked(g.tracks, g.live)
    && Told(g.called, g.refs, g.next)
  }

  // ---- Lists without repetition --------------------------------------------------------------

  ghost predicate Distinct<T>(s: seq<T>) { forall j, k :: 0 <= j < k < |s| ==> s[j] != s[k] }

  lemma Removed<T>(s: seq<T>, j: nat)
    requires Distinct(s) && j < |s|
    ensures Distinct(s[..j] + s[j + 1..])
    ensures forall y :: y in s[..j] + s[j + 1..] <==> y in s && y != s[j]
  {
    var r := s[..j] + s[j + 1..];
    forall y | y in s && y != s[j] ensures y in r {
      var k :| 0 <= k < |s| && s[k] == y;
      assert r[if k < j then k else k - 1] == y;
    }
    forall y | y in r ensures y in s && y != s[j] {
      var k :| 0 <= k < |r| && r[k] == y;
      assert y == s[if k < j then k else k + 1];
    }
  }

  lemma WithoutDistinct<T>(s: seq<T>, x: T)
    requires Distinct(s)
    ensures Distinct(Without(s, x)) && forall y :: y in Without(s, x) <==> y in s && y != x
    ensures IndexOf(s, x) < |s| <==> x in s
  {
    var j := IndexOf(s, x);
    if j < |s| {
      Removed(s, j);
    }
  }

  lemma Added<T>(s: seq<T>, x: T)
    requires Distinct(s) && x !in s
    ensures Distinct([x] + s) && Distinct(s + [x])
    ensures forall y :: y in [x] + s <==> y in s || y == x
    ensures forall y :: y in s + [x] <==> y in s || y == x
  {
  }

  // ---- Requests come and go ------------------------------------------------------------------

  lemma ListsAdd(g: G, org: nat)
    requires Chains(g.live, g.next) && Listed(g.callbacks, g.live) && Tracked(g.tracks, g.live)
    ensures var cb := Cb(g.next, org); var live := g.live[g.next := cb];
            Listed([cb] + g.callbacks, live) && Tracked(g.tracks + [Pair(org, g.next)], live)
  {
    hide Distinct;
    Added(g.callbacks, Cb(g.next, org));
    Added(g.tracks, Pair(org, g.next));
  }

  lemma ListsDrop(cbs: seq<Cb>, tracks: seq<Pair>, live: map<nat, Cb>, pend: nat)
    requires Listed(cbs, live) && pend in live && live[pend].pend == pend
    requires forall p :: p in live ==> live[p].pend == p
    ensures IndexOf(cbs, live[pend]) < |cbs| && Listed(Without(cbs, live[pend]), live - {pend})
    ensures Tracked(tracks, live) ==> Tracked(Without(tracks, Pair(live[pend].proc, pend)), live - {pend})
  {
    hide Distinct, Without, IndexOf;
    WithoutDistinct(cbs, live[pend]);
    if Tracked(tracks, live) {
      WithoutDistinct(tracks, Pair(live[pend].proc, pend));
    }
  }

  // The state of a detached request's procedure.
  lemma DetachEffect(g: G, pend: nat)
    requires pend in g.live && Listed(g.callbacks, g.live) && forall p :: p in g.live ==> g.live[p].pend == p
    ensures var cb := g.live[pend];
            Detach(g, pend) == g.(live := g.live - {pend}, callbacks := Without(g.callbacks, cb),
                                  refs := g.refs[cb.proc := RefsOf(g, cb.proc) - 1],
                                  tracks := Without(g.tracks, Pair(cb.proc, pend)))
  {
    ListsDrop(g.callbacks, g.tracks, g.live, pend);
    hide Listed, Without, IndexOf;
  }

  lemma DropChains(live: map<nat, Cb>, next: nat, pend: nat)
    requires Chains(live, next)
    ensures Chains(live - {pend}, next)
  {
  }

  lemma ChainsDrop(live: map<nat, Cb>, next: nat, refs: map<nat, int>, pend: nat)
    requires Chains(live, next) && Counted(refs, live, next) && pend in live
    ensures Chains(live - {pend}, next) && Counted(refs[live[pend].proc := 0], live - {pend}, next)
  {
    DropChains(live, next, pend);
    var rest, refs1 := live - {pend}, refs[live[pend].proc := 0];
    forall p | p in rest ensures rest[p].proc != live[pend].proc {
    }
    hide Chains;
    forall proc | proc in refs1 && refs1[proc] == 1 ensures exists p :: p in rest && rest[p].proc == proc {
      var p :| p in live && live[p].proc == proc;
      assert p in rest && rest[p].proc == proc;
    }
  }

  lemma InvStart(g: G)
    requires Inv(g)
    ensures Inv(Send(g, 0))
  {
    ListsAdd(g, g.next);
    hide Listed, Tracked, Distinct;
    assert g.next !in g.refs;
    StartChains(g);
    StartCounted(g);
    hide Chains, Counted;
  }

  lemma StartChains(g: G)
    requires Chains(g.live, g.next)
    ensures Chains(g.live[g.next := Cb(g.next, g.next)], g.next + 1)
  {
  }

  lemma StartCounted(g: G)
    requires Chains(g.live, g.next) && Counted(g.refs, g.live, g.next)
    ensures Counted(g.refs[g.next := 1], g.live[g.next := Cb(g.next, g.next)], g.next + 1)
  {
    var live, refs := g.live[g.next := Cb(g.next, g.next)], g.refs[g.next := 1];
    forall proc | proc in refs && refs[proc] == 1 ensures exists p :: p in live && live[p].proc == proc {
      if proc == g.next {
        assert live[g.next].proc == proc;
      } else {
        var p :| p in g.live && g.live[p].proc == proc;
        assert live[p].proc == proc;
      }
    }
    hide Chains;
  }

  // A request goes for good: its procedure is left without one.
  lemma InvDetach(g: G, pend: nat)
    requires Inv(g) && pend in g.live
    ensures Inv(Detach(g, pend)) && !Active(Detach(g, pend), g.live[pend].proc)
    ensures Detach(g, pend).called == g.called
  {
    DetachEffect(g, pend);
    ListsDrop(g.callbacks, g.tracks, g.live, pend);
    ChainsDrop(g.live, g.next, g.refs, pend);
    hide Listed, Tracked, Distinct, Detach, Without;
  }

  // One request of a chain takes the place of another.
  lemma ChainsNext(g: G, pend: nat)
    requires Chains(g.live, g.next) && pend in g.live
    ensures Chains(g.live[g.next := Cb(g.next, g.live[pend].proc)] - {pend}, g.next + 1)
  {
  }

  lemma CountedNext(g: G, pend: nat)
    requires Chains(g.live, g.next) && Counted(g.refs, g.live, g.next) && pend in g.live
    ensures Counted(g.refs, g.live[g.next := Cb(g.next, g.live[pend].proc)] - {pend}, g.next + 1)
  {
    var live := g.live[g.next := Cb(g.next, g.live[pend].proc)] - {pend};
    forall q | q in g.refs && g.refs[q] == 1 ensures exists p :: p in live && live[p].proc == q {
      HeldNext(g, pend, q);
    }
    hide Chains;
  }

  lemma HeldNext(g: G, pend: nat, q: nat)
    requires Chains(g.live, g.next) && Counted(g.refs, g.live, g.next) && pend in g.live && q in g.refs && g.refs[q] == 1
    ensures var live := g.live[g.next := Cb(g.next, g.live[pend].proc)] - {pend}; exists p :: p in live && live[p].proc == q
  {
    var proc := g.live[pend].proc;
    var live := g.live[g.next := Cb(g.next, proc)] - {pend};
    if q == proc {
      assert g.next in live && live[g.next].proc == q;
    } else {
      var p :| p in g.live && g.live[p].proc == q;
      assert p in live && live[p].proc == q;
    }
  }

  lemma RespondMoreEffect(g: G, pend: nat)
    requires Inv(g) && pend in g.live
    ensures var t := Respond(g, pend, true); var proc := g.live[pend].proc;
            && t.live == g.live[g.next := Cb(g.next, proc)] - {pend} && t.next == g.next + 1
            && t.refs == g.refs && t.called == g.called
            && Listed(t.callbacks, t.live) && Tracked(t.tracks, t.live)
  {
    SendEffect(g, pend);
    hide Inv, Listed, Tracked, Detach, Without, Send;
    var proc := g.live[pend].proc;
    var g1 := Send(g, proc);
    DetachEffect(g1, pend);
    ListsDrop(g1.callbacks, g1.tracks, g1.live, pend);
    Restored(g.refs, proc, 2);
  }

  lemma Restored(refs: map<nat, int>, proc: nat, n: int)
    requires proc in refs
    ensures refs[proc := n][proc := refs[proc]] == refs
  {
  }

  lemma SendEffect(g: G, pend: nat)
    requires Inv(g) && pend in g.live
    ensures var proc := g.live[pend].proc; var t := Send(g, proc);
            && t.live == g.live[g.next := Cb(g.next, proc)] && t.next == g.next + 1 && t.called == g.called
            && proc in g.refs && g.refs[proc] == 1 && t.refs == g.refs[proc := 2]
            && Listed(t.callbacks, t.live) && Tracked(t.tracks, t.live)
            && pend in t.live && t.live[pend] == g.live[pend] && (forall p :: p in t.live ==> t.live[p].pend == p)
  {
    ListsAdd(g, g.live[pend].proc);
    hide Listed, Tracked, Distinct;
  }

  lemma InvRespondMore(g: G, pend: nat)
    requires Inv(g) && pend in g.live
    ensures var t := Respond(g, pend, true);
            Inv(t) && t.called == g.called && t.next >= g.next && t.refs == g.refs && Active(t, g.live[pend].proc)
  {
    hide Respond, Told, Chains, Counted, Listed, Tracked, Active;
    LiveActive(g, pend);
    RespondMoreEffect(g, pend);
    SameActive(g, Respond(g, pend, true), g.live[pend].proc);
    ChainsNext(g, pend);
    CountedNext(g, pend);
    ToldLater(g.called, g.refs, g.next);
  }

  lemma InvRespondLast(g: G, pend: nat)
    requires Inv(g) && pend in g.live
    ensures var t := Respond(g, pend, false); var proc := g.live[pend].proc;
            Inv(t) && t.called == g.called + [proc] && t.next == g.next && t.refs == g.refs[proc := 0]
  {
    var proc := g.live[pend].proc;
    var g1 := g.(called := g.called + [proc]);
    assert RefsOf(g, proc) == 1 && 0 < proc < g.next;
    hide Distinct, Told, Listed, Tracked, Detach, Without;
    ToldOnce(g, proc);
    DetachEffect(g1, pend);
    ListsDrop(g.callbacks, g.tracks, g.live, pend);
    ChainsDrop(g.live, g.next, g.refs, pend);
    hide Chains, Counted;
  }

  lemma ToldLater(called: seq<nat>, refs: map<nat, int>, next: nat)
    requires Told(called, refs, next)
    ensures Told(called, refs, next + 1)
  {
  }

  // The procedure of a live request has not been told yet; then it is, and holds nothing.
  lemma ToldOnce(g: G, proc: nat)
    requires Told(g.called, g.refs, g.next) && RefsOf(g, proc) == 1 && 0 < proc < g.next
    ensures proc !in g.called && Told(g.called + [proc], g.refs[proc := 0], g.next)
  {
  }

  lemma ActiveTracked(g: G, id: nat)
    requires Counted(g.refs, g.live, g.next) && Tracked(g.tracks, g.live) && Active(g, id)
    ensures exists k :: 0 <= k < |g.tracks| && g.tracks[k].org == id
  {
    var p :| p in g.live && g.live[p].proc == id;
    assert Pair(id, p) in g.tracks;
  }

  // g_attrib_cancel finds the one live request of the procedure and detaches it.
  lemma CancelEffect(g: G, id: nat)
    requires Inv(g)
    ensures Cancel(g, id).1 <==> Active(g, id)
    ensures if Active(g, id) then exists pend :: pend in g.live && g.live[pend].proc == id && Cancel(g, id).0 == Detach(g, pend)
            else Cancel(g, id).0 == g
  {
    var j := FindOrg(g.tracks, id);
    if j == |g.tracks| {
      if Active(g, id) {
        ActiveTracked(g, id);
        assert false;
      }
    } else {
      var pair := g.tracks[j];
      assert pair in g.tracks;
      var pend := pair.pend;
      assert pend in g.live && g.live[pend].proc == id;
      UntrackTwice(g.tracks, j);
      DetachEffect(g, pend);
      var g1 := g.(tracks := g.tracks[..j] + g.tracks[j + 1..]);
      DetachEffect(g1, pend);
      hide Detach, Without, Listed, Tracked, Distinct;
    }
  }

  lemma UntrackTwice(tracks: seq<Pair>, j: nat)
    requires Distinct(tracks) && j < |tracks|
    ensures var rest := tracks[..j] + tracks[j + 1..];
            Without(tracks, tracks[j]) == rest && Without(rest, tracks[j]) == rest
  {
    Removed(tracks, j);
    WithoutDistinct(tracks, tracks[j]);
    WithoutDistinct(tracks[..j] + tracks[j + 1..], tracks[j]);
  }

  // ---- Every turn, every run -----------------------------------------------------------------

  // A turn keeps the invariant, and cannot wake a procedure that is over or tell its user anything.
  lemma InvStep(g: G, t: Turn, proc: nat)
    requires Inv(g)
    ensures Inv(Step(g, t)) && Step(g, t).next >= g.next
    ensures 0 < proc < g.next && !Active(g, proc) ==>
              !Active(Step(g, t), proc) && (proc in Step(g, t).called <==> proc in g.called)
  {
    hide Chains, Counted, Listed, Tracked, Told;
    match t
    case Start => InvStart(g);
    case Responded(pend, more) => if pend in g.live { QuietRespond(g, pend, more, proc); }
    case Cancelled(id) =>
      CancelEffect(g, id);
      if Active(g, id) {
        var pend :| pend in g.live && g.live[pend].proc == id && Cancel(g, id).0 == Detach(g, pend);
        QuietDetach(g, pend, proc);
      }
      hide Cancel, Detach;
    case Dropped(pend) => if pend in g.live { QuietDetach(g, pend, proc); }
    case Skipped(next) => if g.next < next { InvSkip(g, next); }
  }

  lemma InvSkip(g: G, next: nat)
    requires Inv(g) && g.next < next
    ensures Inv(g.(next := next))
  {
    hide Listed, Tracked, Distinct;
  }

  lemma QuietDetach(g: G, pend: nat, proc: nat)
    requires Inv(g) && pend in g.live
    ensures Inv(Detach(g, pend)) && Detach(g, pend).next == g.next && Detach(g, pend).called == g.called
    ensures !Active(g, proc) ==> !Active(Detach(g, pend), proc)
  {
    InvDetach(g, pend);
    DetachEffect(g, pend);
    hide Detach, Inv;
  }

  lemma QuietRespond(g: G, pend: nat, more: bool, proc: nat)
    requires Inv(g) && pend in g.live
    ensures var t := Respond(g, pend, more);
            && Inv(t) && t.next >= g.next
            && (!Active(g, proc) ==> !Active(t, proc) && (proc in t.called <==> proc in g.called))
  {
    hide Inv, Respond, Active;
    LiveActive(g, pend);
    if more {
      InvRespondMore(g, pend);
      SameActive(g, Respond(g, pend, true), proc);
    } else {
      InvRespondLast(g, pend);
      OnlyItsOwn(g, Respond(g, pend, false), g.live[pend].proc, proc);
    }
  }

  lemma LiveActive(g: G, pend: nat)
    requires Inv(g) && pend in g.live
    ensures Active(g, g.live[pend].proc)
  {
  }

  lemma SameActive(g: G, t: G, proc: nat)
    requires t.refs == g.refs
    ensures Active(g, proc) == Active(t, proc)
  {
  }

  lemma OnlyItsOwn(g: G, t: G, own: nat, proc: nat)
    requires t.called == g.called + [own] && t.refs == g.refs[own := 0] && Active(g, own)
    ensures !Active(g, proc) ==> !Active(t, proc) && (proc in t.called <==> proc in g.called)
  {
  }

  lemma {:induction false} InvRun(g: G, ts: seq<Turn>, proc: nat)
    requires Inv(g)
    ensures Inv(Run(g, ts)) && Run(g, ts).next >= g.next
    ensures 0 < proc < g.next && !Active(g, proc) ==>
              !Active(Run(g, ts), proc) && (proc in Run(g, ts).called <==> proc in g.called)
    decreases |ts|
  {
    hide Inv, Step, Active;
    if ts != [] {
      InvStep(g, ts[0], proc);
      InvRun(Step(g, ts[0]), ts[1..], proc);
    }
  }

  lemma InvNew()
    ensures Inv(NEW)
  {
  }

  // Users are called by the callbacks that end a chain, and by nothing else, in that order.
  lemma {:induction false} UsersTold(g: G, ts: seq<Turn>)
    requires Inv(g)
    ensures Run(g, ts).called == g.called + Ended(Answered(g, ts))
    decreases |ts|
  {
    hide Inv, Step, Active, AnswerOf;
    if ts == [] {
      assert g.called + [] == g.called;
    } else {
      var first, rest := AnswerOf(g, ts[0]), Answered(Step(g, ts[0]), ts[1..]);
      hide Ended;
      InvStep(g, ts[0], 0);
      ToldByStep(g, ts[0]);
      UsersTold(Step(g, ts[0]), ts[1..]);
      EndedConcat(first, rest);
      Regroup(g.called, Ended(first), Ended(rest));
    }
  }

  lemma Regroup<T>(x: seq<T>, y: seq<T>, z: seq<T>)
    ensures (x + y) + z == x + (y + z)
  {
  }

  lemma {:induction false} EndedConcat(xs: seq<Answer>, ys: seq<Answer>)
    ensures Ended(xs + ys) == Ended(xs) + Ended(ys)
  {
    if xs == [] {
      assert xs + ys == ys;
    } else {
      assert (xs + ys)[1..] == xs[1..] + ys;
      EndedConcat(xs[1..], ys);
    }
  }

  lemma ToldByStep(g: G, t: Turn)
    requires Inv(g)
    ensures Step(g, t).called == g.called + Ended(AnswerOf(g, t))
  {
    hide Chains, Counted, Listed, Tracked, Told, Without, IndexOf;
  }

  // No callback of a procedure that is over runs, whatever happens next.
  lemma {:induction false} OverUnanswered(g: G, ts: seq<Turn>, proc: nat)
    requires Inv(g) && 0 < proc < g.next && !Active(g, proc)
    ensures forall k :: 0 <= k < |Answered(g, ts)| ==> Answered(g, ts)[k].proc != proc
    decreases |ts|
  {
    hide Inv, Step, Active;
    if ts != [] {
      InvStep(g, ts[0], proc);
      OverUnanswered(Step(g, ts[0]), ts[1..], proc);
      OverHasNone(g, proc);
    }
  }

  // Nor does the callback of a request that is gone: its id is not given again.
  lemma {:induction false} GoneUnanswered(g: G, ts: seq<Turn>, pend: nat)
    requires Inv(g) && pend < g.next && pend !in g.live
    ensures forall k :: 0 <= k < |Answered(g, ts)| ==> Answered(g, ts)[k].pend != pend
    decreases |ts|
  {
    hide Inv, Step;
    if ts != [] {
      InvStep(g, ts[0], 0);
      StaysGone(g, ts[0], pend);
      GoneUnanswered(Step(g, ts[0]), ts[1..], pend);
    }
  }

  lemma StaysGone(g: G, t: Turn, pend: nat)
    requires Inv(g) && pend < g.next && pend !in g.live
    ensures pend !in Step(g, t).live
  {
    hide Chains, Counted, Listed, Tracked, Told, Without, IndexOf;
  }

  // Between turns a procedure that is not over has exactly one tracked pair; it carries the
  // procedure's own id and names its one live request.
  lemma OnePairEach(ts: seq<Turn>, proc: nat) returns (k: nat)
    requires Active(Run(NEW, ts), proc)
    ensures var g := Run(NEW, ts);
            && RefsOf(g, proc) == 1 && k < |g.tracks| && g.tracks[k].org == proc
            && g.tracks[k].pend in g.live && g.live[g.tracks[k].pend].proc == proc
            && (forall j :: 0 <= j < |g.tracks| && g.tracks[j].org == proc ==> j == k)
            && (forall p :: p in g.live && g.live[p].proc == proc ==> p == g.tracks[k].pend)
  {
    var g := Run(NEW, ts);
    InvNew();
    InvRun(NEW, ts, proc);
    hide Run, Told, Listed;
    var p :| p in g.live && g.live[p].proc == proc;
    assert Pair(proc, p) in g.tracks;
    k :| 0 <= k < |g.tracks| && g.tracks[k] == Pair(proc, p);
    forall j | 0 <= j < |g.tracks| && g.tracks[j].org == proc ensures j == k {
      assert g.tracks[j] in g.tracks;
      assert g.tracks[j].pend == p;
    }
  }

  // Cancelling a procedure's id succeeds exactly while the procedure is not over.  It then holds no
  // reference any more, has no live request, and its user is never called, whatever happens next.
  lemma CancelWorks(before: seq<Turn>, id: nat, after: seq<Turn>)
    requires id > 0
    ensures var g := Run(NEW, before); var (g1, ok) := Cancel(g, id); var g2 := Run(g1, after);
            && (ok <==> Active(g, id))
            && (ok ==> RefsOf(g1, id) == 0 && (forall p :: p in g1.live ==> g1.live[p].proc != id)
                       && id !in g.called && id !in g2.called && RefsOf(g2, id) == 0)
  {
    var g := Run(NEW, before);
    InvNew();
    InvRun(NEW, before, id);
    CancelEffect(g, id);
    if Active(g, id) {
      var pend :| pend in g.live && g.live[pend].proc == id && Cancel(g, id).0 == Detach(g, pend);
      InvDetach(g, pend);
      DetachEffect(g, pend);
      var g1 := Cancel(g, id).0;
      hide Run, Cancel, Detach, Listed, Tracked;
      InvRun(g1, after, id);
      assert id !in g.called;
      OverHasNone(g1, id);
      OverHasNone(Run(g1, after), id);
    }
  }

  lemma OverHasNone(g: G, id: nat)
    requires Inv(g) && !Active(g, id)
    ensures RefsOf(g, id) == 0 && forall p :: p in g.live ==> g.live[p].proc != id
  {
  }

  // In any run a procedure's user is called at most once, and never while a request is under way.
  lemma UserCalledOnce(ts: seq<Turn>)
    ensures var g := Run(NEW, ts);
            && (forall j, k :: 0 <= j < k < |g.called| ==> g.called[j] != g.called[k])
            && (forall p :: p in g.live ==> g.live[p].proc !in g.called)
            && |g.callbacks| == |g.tracks|
  {
    var g := Run(NEW, ts);
    InvNew();
    InvRun(NEW, ts, 0);
    SameLength(g.callbacks, g.tracks, g.live);
    hide Listed, Tracked;
  }

  lemma NothingTracked(cbs: seq<Cb>, tracks: seq<Pair>, live: map<nat, Cb>)
    requires Listed(cbs, live) && Tracked(tracks, live) && forall p :: p in live ==> live[p].pend == p
    ensures tracks != [] ==> cbs != []
  {
    if tracks != [] {
      assert tracks[0] in tracks;
      assert live[tracks[0].pend] in cbs;
    }
  }

  // Both lists have one entry for each live request, so they are equally long.
  lemma {:induction false} SameLength(cbs: seq<Cb>, tracks: seq<Pair>, live: map<nat, Cb>)
    requires Listed(cbs, live) && Tracked(tracks, live) && forall p :: p in live ==> live[p].pend == p
    ensures |cbs| == |tracks|
    decreases |cbs|
  {
    if cbs == [] {
      NothingTracked(cbs, tracks, live);
    } else {
      var cb := cbs[0];
      assert cb in cbs && live[cb.pend] == cb;
      ListsDrop(cbs, tracks, live, cb.pend);
      var pair := Pair(cb.proc, cb.pend);
      assert pair in tracks;
      WithoutDistinct(tracks, pair);
      SameLength(Without(cbs, cb), Without(tracks, pair), live - {cb.pend});
    }
  }

  // ---- The program ---------------------------------------------------------------------------

  // struct _GAttrib, with the bearer's side of it and the procedures that use it.
  class GAttrib {
    var callbacks: seq<Cb>
    var trackIds: seq<Pair>
    var live: map<nat, Cb>
    var next: nat
    var refs: map<nat, int>
    var called: seq<nat>

    function State(): G
      reads this
    {
      G(callbacks, trackIds, live, next, refs, called)
    }

    // g_attrib_new
    constructor ()
      ensures State() == NEW
    {
      callbacks, trackIds, live, next, refs, called := [], [], map[], 1, map[], [];
    }

    // g_attrib_send: the callback entry first, then bt_att_send, then the pair
    method GAttribSend(id: nat) returns (procId: nat)
      modifies this
      ensures State() == Send(old(State()), id) && procId == if id == 0 then old(next) else id
    {
      var pendId := next;
      procId := if id == 0 then pendId else id;
      refs := refs[procId := RefsOf(State(), procId) + 1];
      var cb := Cb(pendId, procId);
      callbacks := [cb] + callbacks;
      live := live[pendId := cb];
      next := next + 1;
      StoreId(procId, pendId);
    }

    // store_id
    method StoreId(orgId: nat, pendId: nat)
      modifies this`trackIds
      ensures trackIds == old(trackIds) + [Pair(orgId, pendId)]
    {
      trackIds := trackIds + [Pair(orgId, pendId)];
    }

    // attrib_callbacks_remove
    method CallbacksRemove(cb: Cb)
      modifies this
      ensures State() == Remove(old(State()), cb)
    {
      if IndexOf(callbacks, cb) == |callbacks| {
        return;
      }
      callbacks := Without(callbacks, cb);
      CallbacksDestroy(cb);
    }

    // attrib_callbacks_destroy: the user's destroy handler drops the reference
    method CallbacksDestroy(cb: Cb)
      modifies this`refs, this`trackIds
      ensures refs == old(refs)[cb.proc := old(RefsOf(State(), cb.proc)) - 1]
      ensures trackIds == Without(old(trackIds), Pair(cb.proc, cb.pend))
    {
      refs := refs[cb.proc := RefsOf(State(), cb.proc) - 1];
      trackIds := Without(trackIds, Pair(cb.proc, cb.pend));
    }

    // The bearer runs the response callback of a request and then frees it.
    method Responded(pendId: nat, more: bool)
      requires pendId in live && pendId < next
      modifies this
      ensures State() == Respond(old(State()), pendId, more)
    {
      var cb := live[pendId];
      if more {
        var _ := GAttribSend(cb.proc);
      } else {
        called := called + [cb.proc];
      }
      cb := live[pendId];
      live := live - {pendId};
      CallbacksRemove(cb);
    }

    // g_attrib_cancel
    method GAttribCancel(id: nat) returns (ok: bool)
      modifies this
      ensures (State(), ok) == Cancel(old(State()), id)
    {
      var j := FindOrg(trackIds, id);
      if j == |trackIds| {
        return false;
      }
      var pendId := trackIds[j].pend;
      trackIds := trackIds[..j] + trackIds[j + 1..];
      if pendId !in live {
        return false;
      }
      var cb := live[pendId];
      live := live - {pendId};
      CallbacksRemove(cb);
      return true;
    }
  }
}
