// Book-keeping of operations: every accepted operation is in exactly one place or gone, and its
// handlers run as often as they should.
//
// The history of one operation is read by a small automaton (Stage).  Books(p, l) says that the
// pool `p` of operations and the ledger `l` of an engine tell the same story.

module BearerBooks {
  import opened Wire
  import opened Opcodes
  import opened BearerSpec

  // ---- What one operation's history means ----------------------------------------------------

  // Alive(id, pdu, callback, destroy): accepted under this id with these bytes to write, and with these
  // handlers still to run.
  datatype Stage = Unborn | Alive(id: nat, pdu: seq<byte>, callback: bool, destroy: bool) | Gone | Broken

  function Advance(s: Stage, e: LifeEvent, k: nat): Stage {
    if e.serial != k then s
    else match e
      case Accepted(_, id, pdu, callback, destroy) => if s.Unborn? then Alive(id, pdu, callback, destroy) else Broken
      case Called(_, opcode, rsp, _) =>
        if s.Alive? && s.callback && s.pdu != [] && s.pdu[0] == opcode && Answers(rsp, opcode) then s.(callback := false) else Broken
      case Destroyed(_) => if s.Alive? && s.destroy then s.(callback := false, destroy := false) else Broken
      case Freed(_) => if s.Alive? && !s.destroy then Gone else Broken
  }

  function StageOf(life: seq<LifeEvent>, k: nat): Stage {
    if life == [] then Unborn else Advance(StageOf(life[..|life| - 1], k), life[|life| - 1], k)
  }

  lemma StageSnoc(life: seq<LifeEvent>, e: LifeEvent)
    ensures forall k: nat {:trigger StageOf(life + [e], k)} :: StageOf(life + [e], k) == Advance(StageOf(life, k), e, k)
  {
    assert (life + [e])[..|life|] == life;
  }

  // ---- The books -----------------------------------------------------------------------------

  datatype Ledger = Ledger(life: seq<LifeEvent>, nextSerial: nat, nextSendId: nat,
                           timers: map<nat, Timer>, nextTimer: nat)

  function LedgerOf(a: Att): Ledger { Ledger(a.life, a.nextSerial, a.nextSendId, a.timers, a.nextTimer) }

  ghost predicate OpBooked(o: Op, l: Ledger) {
    && o.serial < l.nextSerial
    && (o.id == 0 || o.id < l.nextSendId)
    && StageOf(l.life, o.serial).Alive?
    && StageOf(l.life, o.serial).id == o.id
    && StageOf(l.life, o.serial).pdu == o.pdu && o.pdu != [] && o.pdu[0] == o.opcode
    && StageOf(l.life, o.serial).destroy == o.destroy
    && (o.callback ==> StageOf(l.life, o.serial).callback)
    && (o.timer != 0 ==> o.id != 0 && o.timer in l.timers && l.timers[o.timer].opId == o.id && o.timer < l.nextTimer)
  }

  ghost predicate Holds(p: multiset<Op>, k: nat) { exists o :: o in p && o.serial == k }

  ghost predicate HoldsTimer(p: multiset<Op>, t: nat) { exists o :: o in p && o.timer == t }

  ghost predicate Distinct(p: multiset<Op>) {
    && (forall o :: o in p ==> p[o] == 1)
    && (forall o, o1 :: o in p && o1 in p && o.serial == o1.serial ==> o == o1)
    && (forall o, o1 :: o in p && o1 in p && o.id == o1.id && o.id != 0 ==> o == o1)
  }

  ghost predicate AllBooked(p: multiset<Op>, l: Ledger) { forall o :: o in p ==> OpBooked(o, l) }

  ghost predicate KeysBooked(p: multiset<Op>, l: Ledger) {
    && (forall k: nat :: !StageOf(l.life, k).Broken?)
    && (forall k: nat :: StageOf(l.life, k).Alive? ==> Holds(p, k))
    && (forall k: nat :: StageOf(l.life, k).Unborn? <==> k >= l.nextSerial)
  }

  ghost predicate TimersBooked(p: multiset<Op>, l: Ledger) {
    && 0 < l.nextTimer
    && (forall t :: t in l.timers ==> 0 < t < l.nextTimer && HoldsTimer(p, t))
  }

  ghost predicate Books(p: multiset<Op>, l: Ledger) {
    Distinct(p) && AllBooked(p, l) && KeysBooked(p, l) && TimersBooked(p, l)
  }

  // A pool with one operation singled out: `o` shares neither serial, nor id, nor timer with the rest.
  ghost predicate Apart(r: multiset<Op>, o: Op) {
    forall x :: x in r ==> x.serial != o.serial && (x.id == 0 || x.id != o.id)
  }

  lemma Split(r: multiset<Op>, o: Op)
    ensures Distinct(r + multiset{o}) <==> Distinct(r) && Apart(r, o)
  {
    var p := r + multiset{o};
    assert forall x :: x in p <==> x in r || x == o;
    if Distinct(p) {
      assert p[o] == 1 && o !in r;
      forall x | x in r ensures r[x] == 1 && x.serial != o.serial && (x.id == 0 || x.id != o.id) {
        assert x in p && o in p;
        assert p[x] == 1;
      }
    }
    if Distinct(r) && Apart(r, o) {
      assert o !in r;
      forall x | x in p ensures p[x] == 1 {
        if x == o { } else { assert r[x] == 1; }
      }
    }
  }

  // The rest of the pool is untouched by a change that concerns one serial and its timers.
  ghost predicate SameElsewhere(l: Ledger, l1: Ledger, k: nat, t: nat, t1: nat) {
    && l1.nextSerial == l.nextSerial && l1.nextSendId == l.nextSendId && l1.nextTimer >= l.nextTimer
    && (forall j: nat :: j != k ==> StageOf(l1.life, j) == StageOf(l.life, j))
    && (forall u :: u != t && u != t1 ==> (u in l1.timers <==> u in l.timers))
    && (forall u :: u in l1.timers && u in l.timers ==> l1.timers[u] == l.timers[u])
  }

  // The timers of `o` and `o1` are the only ones that differ.
  ghost predicate TimersMove(l: Ledger, l1: Ledger, o: Op, o1: Op) {
    && (o.timer != o1.timer ==> o.timer !in l1.timers && o1.timer !in l.timers)
    && (o.timer == o1.timer ==> l1.timers == l.timers)
    && (o1.timer in l1.timers ==> 0 < o1.timer < l1.nextTimer)
  }

  lemma ReplaceBooked(r: multiset<Op>, l: Ledger, l1: Ledger, o: Op, o1: Op)
    requires AllBooked(r + multiset{o}, l) && Apart(r, o)
    requires SameElsewhere(l, l1, o.serial, o.timer, o1.timer) && TimersMove(l, l1, o, o1)
    requires OpBooked(o1, l1)
    ensures AllBooked(r + multiset{o1}, l1)
  {
    assert o in r + multiset{o};
    assert OpBooked(o, l);
    forall x | x in r + multiset{o1} ensures OpBooked(x, l1) {
      if x != o1 {
        assert x in r && x in r + multiset{o};
        assert OpBooked(x, l);
      }
    }
  }

  lemma ReplaceKeys(r: multiset<Op>, l: Ledger, l1: Ledger, o: Op, o1: Op)
    requires KeysBooked(r + multiset{o}, l) && o1.serial == o.serial
    requires SameElsewhere(l, l1, o.serial, o.timer, o1.timer)
    requires StageOf(l.life, o.serial).Alive? && StageOf(l1.life, o.serial).Alive?
    ensures KeysBooked(r + multiset{o1}, l1)
  {
    forall k: nat | StageOf(l1.life, k).Alive? ensures Holds(r + multiset{o1}, k) {
      if k == o.serial {
        assert o1 in r + multiset{o1};
      } else {
        assert Holds(r + multiset{o}, k);
        var x :| x in r + multiset{o} && x.serial == k;
        assert x in r + multiset{o1};
      }
    }
  }

  lemma ReplaceTimers(r: multiset<Op>, l: Ledger, l1: Ledger, o: Op, o1: Op)
    requires TimersBooked(r + multiset{o}, l)
    requires SameElsewhere(l, l1, o.serial, o.timer, o1.timer) && TimersMove(l, l1, o, o1)
    ensures TimersBooked(r + multiset{o1}, l1)
  {
    forall t | t in l1.timers ensures 0 < t < l1.nextTimer && HoldsTimer(r + multiset{o1}, t) {
      if t == o1.timer {
        assert o1 in r + multiset{o1};
      } else {
        assert t in l.timers;
        assert HoldsTimer(r + multiset{o}, t);
        var x :| x in r + multiset{o} && x.timer == t;
        assert x in r + multiset{o1};
      }
    }
  }

  // One operation changes and everything else stays.
  lemma BookReplace(r: multiset<Op>, l: Ledger, l1: Ledger, o: Op, o1: Op)
    requires Books(r + multiset{o}, l)
    requires o1.serial == o.serial && o1.id == o.id
    requires SameElsewhere(l, l1, o.serial, o.timer, o1.timer) && TimersMove(l, l1, o, o1)
    requires OpBooked(o1, l1)
    ensures Books(r + multiset{o1}, l1)
  {
    assert o in r + multiset{o};
    assert OpBooked(o, l);
    Split(r, o);
    Split(r, o1);
    ReplaceBooked(r, l, l1, o, o1);
    ReplaceKeys(r, l, l1, o, o1);
    ReplaceTimers(r, l, l1, o, o1);
  }

  lemma BookCall(r: multiset<Op>, a: Att, op: Op, rsp: byte, data: seq<byte>)
    requires Books(r + multiset{op}, LedgerOf(a)) && (op.callback ==> Answers(rsp, op.opcode))
    ensures Books(r + multiset{op.(callback := false)}, LedgerOf(CallOp(a, op, rsp, data)))
  {
    hide KeysBooked;
    assert op in r + multiset{op};
    assert OpBooked(op, LedgerOf(a));
    if op.callback {
      StageSnoc(a.life, Called(op.serial, op.opcode, rsp, data));
      BookReplace(r, LedgerOf(a), LedgerOf(CallOp(a, op, rsp, data)), op, op.(callback := false));
    } else {
      assert op.(callback := false) == op;
    }
  }

  lemma BookStrip(r: multiset<Op>, a: Att, op: Op)
    requires Books(r + multiset{op}, LedgerOf(a))
    ensures Books(r + multiset{Stripped(op)}, LedgerOf(a.(life := a.life + DestroyNote(op))))
  {
    assert op in r + multiset{op};
    assert OpBooked(op, LedgerOf(a));
    if op.destroy {
      StageSnoc(a.life, Destroyed(op.serial));
    } else {
      assert a.life + DestroyNote(op) == a.life;
    }
    BookReplace(r, LedgerOf(a), LedgerOf(a.(life := a.life + DestroyNote(op))), op, Stripped(op));
  }

  lemma BookArm(r: multiset<Op>, l: Ledger, op: Op, cid: nat)
    requires Books(r + multiset{op}, l) && op.timer == 0 && op.id != 0
    ensures Books(r + multiset{op.(timer := l.nextTimer)},
                  l.(timers := l.timers[l.nextTimer := Timer(cid, op.id)], nextTimer := l.nextTimer + 1))
  {
    assert op in r + multiset{op};
    assert OpBooked(op, l);
    BookReplace(r, l, l.(timers := l.timers[l.nextTimer := Timer(cid, op.id)], nextTimer := l.nextTimer + 1),
                op, op.(timer := l.nextTimer));
  }

  lemma BookDisarm(r: multiset<Op>, l: Ledger, op: Op)
    requires Books(r + multiset{op}, l)
    ensures Books(r + multiset{op.(timer := 0)}, l.(timers := DropTimer(l.timers, op.timer)))
  {
    assert op in r + multiset{op};
    assert OpBooked(op, l);
    if op.timer == 0 {
      assert op.(timer := 0) == op;
    } else {
      BookReplace(r, l, l.(timers := l.timers - {op.timer}), op, op.(timer := 0));
    }
  }

  lemma BookFree(r: multiset<Op>, l: Ledger, op: Op)
    requires Books(r + multiset{op}, l) && !op.destroy && op.timer == 0
    ensures Books(r, l.(life := l.life + [Freed(op.serial)]))
  {
    StageSnoc(l.life, Freed(op.serial));
    assert op in r + multiset{op};
    assert OpBooked(op, l);
    Split(r, op);
    hide Distinct, StageOf;
    FreeBooked(r, l, op);
    FreeKeys(r, l, op);
    FreeTimers(r, l, op);
    hide AllBooked, KeysBooked, TimersBooked;
  }

  lemma FreeBooked(r: multiset<Op>, l: Ledger, op: Op)
    requires AllBooked(r + multiset{op}, l) && Apart(r, op)
    ensures AllBooked(r, l.(life := l.life + [Freed(op.serial)]))
  {
    StageSnoc(l.life, Freed(op.serial));
    var l1 := l.(life := l.life + [Freed(op.serial)]);
    forall x | x in r ensures OpBooked(x, l1) {
      assert x in r + multiset{op};
      assert OpBooked(x, l);
    }
  }

  lemma FreeKeys(r: multiset<Op>, l: Ledger, op: Op)
    requires KeysBooked(r + multiset{op}, l) && StageOf(l.life, op.serial).Alive? && !StageOf(l.life, op.serial).destroy
    ensures KeysBooked(r, l.(life := l.life + [Freed(op.serial)]))
  {
    StageSnoc(l.life, Freed(op.serial));
    var l1 := l.(life := l.life + [Freed(op.serial)]);
    forall k: nat | StageOf(l1.life, k).Alive? ensures Holds(r, k) {
      assert Holds(r + multiset{op}, k);
      var x :| x in r + multiset{op} && x.serial == k;
      assert x in r;
    }
  }

  lemma FreeTimers(r: multiset<Op>, l: Ledger, op: Op)
    requires TimersBooked(r + multiset{op}, l) && op.timer == 0
    ensures TimersBooked(r, l.(life := l.life + [Freed(op.serial)]))
  {
    forall t | t in l.timers ensures HoldsTimer(r, t) {
      assert HoldsTimer(r + multiset{op}, t);
      var x :| x in r + multiset{op} && x.timer == t;
      assert x in r;
    }
  }

  lemma BookDestroy(r: multiset<Op>, a: Att, op: Op)
    requires Books(r + multiset{op}, LedgerOf(a))
    ensures Books(r, LedgerOf(DestroyOp(a, op)))
  {
    BookStrip(r, a, op);
    var l := LedgerOf(a.(life := a.life + DestroyNote(op)));
    BookDisarm(r, l, Stripped(op));
    BookFree(r, l.(timers := DropTimer(l.timers, op.timer)), Stripped(op).(timer := 0));
  }

  lemma AddKeys(r: multiset<Op>, l: Ledger, l1: Ledger, o: Op)
    requires KeysBooked(r, l)
    requires o.serial == l.nextSerial && l1.nextSerial == l.nextSerial + 1
    requires forall j: nat :: j != o.serial ==> StageOf(l1.life, j) == StageOf(l.life, j)
    requires StageOf(l1.life, o.serial).Alive?
    ensures KeysBooked(r + multiset{o}, l1)
  {
    forall k: nat | StageOf(l1.life, k).Alive? ensures Holds(r + multiset{o}, k) {
      if k == o.serial {
        assert o in r + multiset{o};
      } else {
        assert Holds(r, k);
        var x :| x in r && x.serial == k;
        assert x in r + multiset{o};
      }
    }
  }

  lemma AddTimers(r: multiset<Op>, l: Ledger, l1: Ledger, o: Op)
    requires TimersBooked(r, l) && l1.timers == l.timers && l1.nextTimer == l.nextTimer
    ensures TimersBooked(r + multiset{o}, l1)
  {
    forall t | t in l1.timers ensures 0 < t < l1.nextTimer && HoldsTimer(r + multiset{o}, t) {
      assert HoldsTimer(r, t);
      var x :| x in r && x.timer == t;
      assert x in r + multiset{o};
    }
  }

  // A fresh operation, with the id it is queued under.
  lemma BookAccept(r: multiset<Op>, a: Att, o1: Op, nextSendId: nat)
    requires Books(r, LedgerOf(a))
    requires o1.serial == a.nextSerial && o1.timer == 0 && a.nextSendId <= nextSendId
    requires (o1.id == 0 || a.nextSendId <= o1.id < nextSendId) && o1.pdu != [] && o1.pdu[0] == o1.opcode
    ensures Books(r + multiset{o1}, LedgerOf(Accept(a, o1).(nextSendId := nextSendId)))
  {
    var l, l1 := LedgerOf(a), LedgerOf(Accept(a, o1).(nextSendId := nextSendId));
    StageSnoc(l.life, Accepted(o1.serial, o1.id, o1.pdu, o1.callback, o1.destroy));
    forall x | x in r ensures OpBooked(x, l) && OpBooked(x, l1) {
    }
    forall x | x in r + multiset{o1} ensures OpBooked(x, l1) {
      if x != o1 { assert x in r; }
    }
    Split(r, o1);
    AddKeys(r, l, l1, o1);
    AddTimers(r, l, l1, o1);
  }

  // ---- The pool of an engine -----------------------------------------------------------------

  function SlotPool(o: Option<Op>): multiset<Op> {
    match o case None => multiset{} case Some(op) => multiset{op}
  }

  function ChanPool(c: Chan): multiset<Op> {
    multiset(c.queue) + SlotPool(c.pendingReq) + SlotPool(c.pendingInd)
  }

  function Pools(chans: seq<Chan>): (ps: seq<multiset<Op>>)
    ensures |ps| == |chans|
    ensures forall i :: 0 <= i < |chans| ==> ps[i] == ChanPool(chans[i])
  {
    seq(|chans|, i requires 0 <= i < |chans| => ChanPool(chans[i]))
  }

  function Sum<T>(ms: seq<multiset<T>>): multiset<T> {
    if ms == [] then multiset{} else ms[0] + Sum(ms[1..])
  }

  function ChansPool(chans: seq<Chan>): multiset<Op> { Sum(Pools(chans)) }

  function SharedPool(a: Att): multiset<Op> { multiset(a.reqQ) + multiset(a.indQ) + multiset(a.writeQ) }

  function Pool(a: Att): multiset<Op> { SharedPool(a) + ChansPool(a.chans) }

  function Drop<T>(s: seq<T>, i: nat): seq<T>
    requires i < |s|
  {
    s[..i] + s[i + 1..]
  }

  lemma {:induction false} SumAt<T>(ms: seq<multiset<T>>, i: nat)
    requires i < |ms|
    ensures Sum(ms) == ms[i] + Sum(Drop(ms, i))
  {
    if i == 0 {
      assert Drop(ms, 0) == ms[1..];
    } else {
      SumAt(ms[1..], i - 1);
      assert Drop(ms, i)[0] == ms[0] && Drop(ms, i)[1..] == Drop(ms[1..], i - 1);
      var x, y, z := ms[0], ms[i], Sum(Drop(ms[1..], i - 1));
      assert x + (y + z) == y + (x + z);
    }
  }

  // The operations of every channel but the i-th.
  function RestPool(chans: seq<Chan>, i: nat): multiset<Op>
    requires i < |chans|
  {
    ChansPool(Drop(chans, i))
  }

  lemma ChansPoolAt(chans: seq<Chan>, i: nat)
    requires i < |chans|
    ensures ChansPool(chans) == ChanPool(chans[i]) + RestPool(chans, i)
  {
    SumAt(Pools(chans), i);
    var xs, ys := Pools(Drop(chans, i)), Drop(Pools(chans), i);
    forall j | 0 <= j < |xs| ensures xs[j] == ys[j] {
      assert Drop(chans, i)[j] == chans[if j < i then j else j + 1];
    }
    assert xs == ys;
  }

  lemma ChansPoolUpdate(chans: seq<Chan>, i: nat, c: Chan)
    requires i < |chans|
    ensures ChansPool(chans[i := c]) == ChanPool(c) + RestPool(chans, i)
  {
    ChansPoolAt(chans[i := c], i);
    assert Drop(chans[i := c], i) == Drop(chans, i);
  }

  lemma ChansPoolSame(xs: seq<Chan>, ys: seq<Chan>)
    requires |xs| == |ys|
    requires forall i :: 0 <= i < |xs| ==> ChanPool(xs[i]) == ChanPool(ys[i])
    ensures ChansPool(xs) == ChansPool(ys)
  {
    assert Pools(xs) == Pools(ys);
  }
}
