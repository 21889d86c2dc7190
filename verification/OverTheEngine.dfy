// The theorems about discoveries and long reads, stated of runs of the engine: whatever else happens on
// the bearer, a procedure whose user is called has the right result, or one of its requests was lost.

module OverTheEngine {
  import opened Wire
  import opened Opcodes
  import opened Uuids
  import opened AttPdus
  import opened GattWire
  import opened EndToEnd
  import E = BearerSpec
  import R = BearerRuns
  import P = GattPrimary
  import C = GattChars
  import D = GattDescs
  import L = GattLong
  import G = GAttribs

  // ---- All primary services ------------------------------------------------------------------

  function AllClient(): Client<P.All> {
    Client((s: P.All, r: Reply) => if r.pdu == [] then s.(next := Finish(ECODE_IO)) else P.AllStep(s, r), (s: P.All) => s.next)
  }

  ghost function AllServer(svcs: seq<P.Service>): (seq<byte>, Reply) -> bool
    requires P.Services(svcs)
  {
    (req: seq<byte>, r: Reply) => |req| >= 3 && P.AllAnswer(svcs, req, r)
  }

  lemma {:induction false} AllFolds(svcs: seq<P.Service>, s: P.All, rs: seq<Reply>)
    requires P.Services(svcs) && Whole(rs) && Answered(AllClient(), AllServer(svcs), s, rs)
    ensures P.Whole(rs) && Fold(AllClient(), s, rs) == P.AllRun(s, rs) && P.AllConforms(svcs, s, rs)
    decreases |rs|
  {
    hide P.AllStep, P.AllAnswer, P.Services;
    if rs != [] { AllFolds(svcs, P.AllStep(s, rs[0]), rs[1..]); }
  }

  // A discovery of all services, in any run of the engine that is its own: when its user is called, it is
  // with status 0 and the peer's whole list, or because its last request was lost.
  lemma AllOverTheEngine(svcs: seq<P.Service>, a: E.Att, acts: seq<E.Action>)
    requires P.Services(svcs) && OwnRun(AllClient(), AllServer(svcs), a, acts, P.AllInit)
    ensures var rs := HeardIn(AllClient(), a, acts, P.AllInit); AllRight(svcs, rs, Fold(AllClient(), P.AllInit, rs))
  {
    AllQuits();
    hide AllServer, AllClient, OwnRun, HeardIn, Quits, Outcome, AllRight, P.Services;
    var n := OwnRunHears(AllClient(), AllServer(svcs), a, acts, P.AllInit);
    AllOutcome(svcs, HeardIn(AllClient(), a, acts, P.AllInit), n);
  }

  ghost predicate AllRight(svcs: seq<P.Service>, rs: seq<Reply>, s: P.All) {
    && P.Services(svcs)
    && (s.next.Finish? ==> (s.next == Finish(0) && s.found == P.Reported(svcs)) || LostAtEnd(rs, s.next))
    && (|rs| > |svcs| ==> s.next.Finish?)
  }

  lemma AllQuits()
    ensures Quits(AllClient())
  {
  }

  lemma AllOutcome(svcs: seq<P.Service>, rs: seq<Reply>, n: nat)
    requires P.Services(svcs) && Whole(rs) && Outcome(AllClient(), AllServer(svcs), P.AllInit, rs, n)
    ensures AllRight(svcs, rs, Fold(AllClient(), P.AllInit, rs))
  {
    hide P.Services, Fold, P.AllRun, Answered, P.AllConforms, P.Reported, P.ReqAll;
    AllFolds(svcs, P.AllInit, rs[..n]);
    P.AllComplete(svcs, rs[..n]);
    if n == |rs| { assert rs[..n] == rs; }
  }

  // The last reply says that a request was lost, and the user was told so.
  predicate LostAtEnd(rs: seq<Reply>, next: Next) { rs != [] && rs[|rs| - 1] == G.LOST && next == Finish(ECODE_UNLIKELY) }

  // ---- Primary services by UUID --------------------------------------------------------------

  function ByClient(value: seq<byte>): Client<P.By> {
    Client((s: P.By, r: Reply) => P.ByStep(value, s, r), (s: P.By) => s.next)
  }

  // A server of these services, asked for those of one UUID.
  ghost function ByServer(svcs: seq<P.Service>, u: Uuid): (seq<byte>, Reply) -> bool
    requires P.Services(svcs) && OnWire(u)
  {
    P.HavingInOrder(svcs, UuidBytes(u));
    (req: seq<byte>, r: Reply) => |req| >= 3 && P.ByAnswer(P.Having(svcs, UuidBytes(u)), req, r)
  }

  lemma {:induction false} ByFolds(svcs: seq<P.Service>, u: Uuid, s: P.By, rs: seq<Reply>)
    requires P.Services(svcs) && OnWire(u) && P.Services(P.Having(svcs, UuidBytes(u)))
    requires Answered(ByClient(UuidBytes(u)), ByServer(svcs, u), s, rs)
    ensures var value := UuidBytes(u);
            Fold(ByClient(value), s, rs) == P.ByRun(value, s, rs) && P.ByConforms(P.Having(svcs, value), value, s, rs)
    decreases |rs|
  {
    hide P.ByStep, P.ByAnswer, P.Having, UuidBytes;
    if rs != [] { ByFolds(svcs, u, P.ByStep(UuidBytes(u), s, rs[0]), rs[1..]); }
  }

  lemma ByOverTheEngine(svcs: seq<P.Service>, u: Uuid, a: E.Att, acts: seq<E.Action>)
    requires P.Services(svcs) && OnWire(u)
    requires OwnRun(ByClient(UuidBytes(u)), ByServer(svcs, u), a, acts, P.ByInit(UuidBytes(u)))
    ensures var c, s0 := ByClient(UuidBytes(u)), P.ByInit(UuidBytes(u));
            var rs := HeardIn(c, a, acts, s0); ByRight(svcs, UuidBytes(u), rs, Fold(c, s0, rs))
  {
    var c, s0 := ByClient(UuidBytes(u)), P.ByInit(UuidBytes(u));
    ByQuits(UuidBytes(u));
    hide ByServer, ByClient, OwnRun, HeardIn, Quits, Outcome, ByRight, P.Services, P.ByInit;
    var n := OwnRunHears(c, ByServer(svcs, u), a, acts, s0);
    ByOutcome(svcs, u, HeardIn(c, a, acts, s0), n);
  }

  lemma ByQuits(value: seq<byte>)
    ensures Quits(ByClient(value))
  {
  }

  // The ranges of exactly the services of that UUID, in order, with status 0; or a lost request.
  ghost predicate ByRight(svcs: seq<P.Service>, value: seq<byte>, rs: seq<Reply>, s: P.By) {
    && P.Services(svcs)
    && var some := P.Having(svcs, value);
       && (s.next.Finish? ==> (s.next == Finish(0) && s.found == P.RangesOfServices(some)) || LostAtEnd(rs, s.next))
       && (|rs| > |some| ==> s.next.Finish?)
  }

  lemma ByOutcome(svcs: seq<P.Service>, u: Uuid, rs: seq<Reply>, n: nat)
    requires P.Services(svcs) && OnWire(u)
    requires Outcome(ByClient(UuidBytes(u)), ByServer(svcs, u), P.ByInit(UuidBytes(u)), rs, n)
    ensures ByRight(svcs, UuidBytes(u), rs, Fold(ByClient(UuidBytes(u)), P.ByInit(UuidBytes(u)), rs))
  {
    hide Fold, P.ByRun, Answered, P.ByConforms, P.ReqBy, P.Having, P.RangesOfServices, UuidBytes;
    P.HavingInOrder(svcs, UuidBytes(u));
    ByFolds(svcs, u, P.ByInit(UuidBytes(u)), rs[..n]);
    P.ByComplete(svcs, u, rs[..n]);
    if n == |rs| { assert rs[..n] == rs; }
  }

  // ---- Characteristics -----------------------------------------------------------------------

  predicate Filter(want: Option<Uuid>) { want.Some? ==> !want.value.Unspec? }

  function CharClient(want: Option<Uuid>): Client<C.Chars>
    requires Filter(want)
  {
    Client((s: C.Chars, r: Reply) => CharStep(want, s, r), (s: C.Chars) => s.next)
  }

  function CharStep(want: Option<Uuid>, s: C.Chars, r: Reply): C.Chars
    requires Filter(want)
  {
    if C.Readable(r) then C.Step(want, s, r) else s.(next := Finish(ECODE_IO))
  }

  ghost function CharServer(ds: seq<C.Decl>, start: u16, end: u16): (seq<byte>, Reply) -> bool
    requires C.Declares(ds, start, end)
  {
    (req: seq<byte>, r: Reply) => |req| >= 3 && C.Readable(r) && C.Answer(ds, start, end, req, r)
  }

  lemma {:induction false} CharFolds(want: Option<Uuid>, ds: seq<C.Decl>, start: u16, end: u16, s: C.Chars, rs: seq<Reply>)
    requires Filter(want) && C.Declares(ds, start, end) && Answered(CharClient(want), CharServer(ds, start, end), s, rs)
    ensures C.AllReadable(rs) && Fold(CharClient(want), s, rs) == C.Run(want, s, rs) && C.Conforms(want, ds, start, end, s, rs)
    decreases |rs|
  {
    hide C.Step, C.Answer, C.Declares, C.Readable;
    if rs != [] { CharFolds(want, ds, start, end, C.Step(want, s, rs[0]), rs[1..]); }
  }

  lemma CharsOverTheEngine(want: Option<Uuid>, ds: seq<C.Decl>, start: u16, end: u16, a: E.Att, acts: seq<E.Action>)
    requires Filter(want) && C.Declares(ds, start, end) && C.Fine(want, ds)
    requires OwnRun(CharClient(want), CharServer(ds, start, end), a, acts, C.Init(start, end))
    ensures var c, s0 := CharClient(want), C.Init(start, end);
            var rs := HeardIn(c, a, acts, s0); CharRight(want, ds, end, rs, Fold(c, s0, rs))
  {
    CharQuits(want);
    var c, s0 := CharClient(want), C.Init(start, end);
    hide CharServer, CharClient, OwnRun, HeardIn, Quits, Outcome, CharRight, C.Declares, C.Init, C.Fine;
    var n := OwnRunHears(c, CharServer(ds, start, end), a, acts, s0);
    CharOutcome(want, ds, start, end, HeardIn(c, a, acts, s0), n);
  }

  ghost predicate CharRight(want: Option<Uuid>, ds: seq<C.Decl>, end: u16, rs: seq<Reply>, s: C.Chars) {
    && C.Fine(want, ds)
    && (s.next.Finish? ==> (s.next == Finish(C.Code(want, ds, end)) && s.found == C.Report(want, ds)) || LostAtEnd(rs, s.next))
    && (|rs| > |ds| ==> s.next.Finish?)
  }

  lemma CharOutcome(want: Option<Uuid>, ds: seq<C.Decl>, start: u16, end: u16, rs: seq<Reply>, n: nat)
    requires Filter(want) && C.Declares(ds, start, end) && C.Fine(want, ds)
    requires Outcome(CharClient(want), CharServer(ds, start, end), C.Init(start, end), rs, n)
    ensures CharRight(want, ds, end, rs, Fold(CharClient(want), C.Init(start, end), rs))
  {
    hide C.Declares, Fold, C.Run, Answered, C.Conforms, C.Report, C.Code, C.Init, C.Fine;
    CharLost(want, Fold(CharClient(want), C.Init(start, end), rs[..n]));
    CharFolds(want, ds, start, end, C.Init(start, end), rs[..n]);
    C.Complete(want, ds, start, end, rs[..n]);
    if n == |rs| { assert rs[..n] == rs; }
  }

  lemma CharQuits(want: Option<Uuid>)
    requires Filter(want)
    ensures Quits(CharClient(want))
  {
    forall s ensures CharClient(want).next(CharClient(want).step(s, G.LOST)).Finish? { CharLost(want, s); }
  }

  lemma CharLost(want: Option<Uuid>, s: C.Chars)
    requires Filter(want)
    ensures CharClient(want).step(s, G.LOST) == s.(next := Finish(ECODE_UNLIKELY))
  {
    assert G.LOST.status == ECODE_UNLIKELY && C.Readable(G.LOST);
    assert CharStep(want, s, G.LOST) == s.(next := Finish(ECODE_UNLIKELY));
    hide CharStep;
  }

  // ---- Descriptors ---------------------------------------------------------------------------

  function DescClient(want: Option<Uuid>): Client<D.Descs>
    requires Filter(want)
  {
    Client((s: D.Descs, r: Reply) => DescStep(want, s, r), (s: D.Descs) => s.next)
  }

  function DescStep(want: Option<Uuid>, s: D.Descs, r: Reply): D.Descs
    requires Filter(want)
  {
    if D.Readable(r) then D.Step(want, s, r) else s.(next := Finish(ECODE_IO))
  }

  ghost function DescServer(attrs: seq<D.Attr>, start: u16, end: u16): (seq<byte>, Reply) -> bool
    requires D.Holds(attrs, start, end)
  {
    (req: seq<byte>, r: Reply) => |req| >= 3 && D.Readable(r) && D.Answer(attrs, start, end, req, r)
  }

  lemma {:induction false} DescFolds(want: Option<Uuid>, attrs: seq<D.Attr>, start: u16, end: u16, s: D.Descs, rs: seq<Reply>)
    requires Filter(want) && D.Holds(attrs, start, end) && Answered(DescClient(want), DescServer(attrs, start, end), s, rs)
    ensures D.AllReadable(rs) && Fold(DescClient(want), s, rs) == D.Run(want, s, rs) && D.Conforms(want, attrs, start, end, s, rs)
    decreases |rs|
  {
    hide D.Step, D.Answer, D.Holds, D.Readable;
    if rs != [] { DescFolds(want, attrs, start, end, D.Step(want, s, rs[0]), rs[1..]); }
  }

  lemma DescsOverTheEngine(want: Option<Uuid>, attrs: seq<D.Attr>, start: u16, end: u16, a: E.Att, acts: seq<E.Action>)
    requires Filter(want) && D.Holds(attrs, start, end) && D.Fine(want, attrs)
    requires OwnRun(DescClient(want), DescServer(attrs, start, end), a, acts, D.Init(start, end))
    ensures var c, s0 := DescClient(want), D.Init(start, end);
            var rs := HeardIn(c, a, acts, s0); DescRight(want, attrs, end, rs, Fold(c, s0, rs))
  {
    DescQuits(want);
    var c, s0 := DescClient(want), D.Init(start, end);
    hide DescServer, DescClient, OwnRun, HeardIn, Quits, Outcome, DescRight, D.Holds, D.Init, D.Fine;
    var n := OwnRunHears(c, DescServer(attrs, start, end), a, acts, s0);
    DescOutcome(want, attrs, start, end, HeardIn(c, a, acts, s0), n);
  }

  ghost predicate DescRight(want: Option<Uuid>, attrs: seq<D.Attr>, end: u16, rs: seq<Reply>, s: D.Descs) {
    && D.Fine(want, attrs)
    && (s.next.Finish? ==> (s.next == Finish(D.Code(want, attrs, end)) && s.found == D.Report(want, attrs)) || LostAtEnd(rs, s.next))
    && (|rs| > |attrs| ==> s.next.Finish?)
  }

  lemma DescOutcome(want: Option<Uuid>, attrs: seq<D.Attr>, start: u16, end: u16, rs: seq<Reply>, n: nat)
    requires Filter(want) && D.Holds(attrs, start, end) && D.Fine(want, attrs)
    requires Outcome(DescClient(want), DescServer(attrs, start, end), D.Init(start, end), rs, n)
    ensures DescRight(want, attrs, end, rs, Fold(DescClient(want), D.Init(start, end), rs))
  {
    hide D.Holds, Fold, D.Run, Answered, D.Conforms, D.Report, D.Code, D.Init, D.Fine;
    DescLost(want, Fold(DescClient(want), D.Init(start, end), rs[..n]));
    DescFolds(want, attrs, start, end, D.Init(start, end), rs[..n]);
    D.Complete(want, attrs, start, end, rs[..n]);
    if n == |rs| { assert rs[..n] == rs; }
  }

  lemma DescQuits(want: Option<Uuid>)
    requires Filter(want)
    ensures Quits(DescClient(want))
  {
    forall s ensures DescClient(want).next(DescClient(want).step(s, G.LOST)).Finish? { DescLost(want, s); }
  }

  lemma DescLost(want: Option<Uuid>, s: D.Descs)
    requires Filter(want)
    ensures DescClient(want).step(s, G.LOST) == s.(next := Finish(ECODE_UNLIKELY))
  {
    assert G.LOST.status == ECODE_UNLIKELY && D.Readable(G.LOST);
    assert DescStep(want, s, G.LOST) == s.(next := Finish(ECODE_UNLIKELY));
    hide DescStep;
  }

  // ---- Long reads ----------------------------------------------------------------------------

  // What the read has is consistent, and its request a read or a blob read.
  predicate Reading(s: L.Long) {
    s.size as int <= |s.buffer| && (s.out.Get? ==> |s.out.req| >= 1 && (s.out.req[0] == READ_BLOB_REQ ==> |s.out.req| >= 5))
  }

  function ReadClient(mtu: nat): Client<L.Long> {
    Client((s: L.Long, r: Reply) => if L.Proper(r) && Reading(s) then L.ReadStep(s, r, mtu, true) else s.(out := L.Deliver(ECODE_IO, [])),
           (s: L.Long) => if s.out.Get? then Ask(s.out.req) else Finish(s.out.status))
  }

  // A server that holds this value, and may also answer with an error.
  ghost function ReadServer(value: seq<byte>, mtu: nat): (seq<byte>, Reply) -> bool
    requires mtu >= 1
  {
    (req: seq<byte>, r: Reply) =>
      L.Proper(r) && (|req| >= 1 && (req[0] == READ_BLOB_REQ ==> |req| >= 5) ==> L.ReadAnswer(value, mtu, req, r))
  }

  lemma {:induction false} ReadFolds(value: seq<byte>, mtu: nat, s: L.Long, rs: seq<Reply>)
    requires mtu >= 1 && Reading(s) && Served(ReadClient(mtu), ReadServer(value, mtu), s, rs)
    ensures L.AllProper(rs) && Fold(ReadClient(mtu), s, rs) == L.ReadRun(s, rs, mtu) && L.ReadConforms(value, mtu, s, rs)
    decreases |rs|
  {
    hide L.ReadStep;
    if rs != [] {
      ReadsOn(s, rs[0], mtu);
      ReadFolds(value, mtu, L.ReadStep(s, rs[0], mtu, true), rs[1..]);
    }
  }

  lemma ReadsOn(s: L.Long, r: Reply, mtu: nat)
    requires Reading(s) && L.Proper(r)
    ensures Reading(L.ReadStep(s, r, mtu, true))
  {
  }

  // A long read in any run of the engine that is its own: what is delivered is the whole value, or, when an
  // answer was an error or a request was lost after the first, a part of it from the start.
  lemma ReadOverTheEngine(value: seq<byte>, mtu: nat, handle: u16, a: E.Att, acts: seq<E.Action>)
    requires |value| <= 65534 && mtu >= 2 && OwnRun(ReadClient(mtu), ReadServer(value, mtu), a, acts, L.ReadInit(handle))
    ensures var rs := HeardIn(ReadClient(mtu), a, acts, L.ReadInit(handle));
            var t := Fold(ReadClient(mtu), L.ReadInit(handle), rs);
            && (t.out.Deliver? && L.NoErrors(rs) ==> t.out == L.Deliver(0, [READ_RSP] + value))
            && (t.out.Deliver? && rs != [] && rs[0].status == 0 ==>
                  t.out.status == 0 && exists j :: 0 <= j <= |value| && t.out.data == [READ_RSP] + value[..j])
            && (|rs| * (mtu - 1) > |value| ==> t.out.Deliver?)
  {
    var s0 := L.ReadInit(handle);
    ReadQuits(mtu);
    assert Reading(s0);
    hide OwnRun, HeardIn, Quits, Outcome, L.ReadRun, L.ReadConforms, L.ReadInit, Served, Reading, Fold, L.NoErrors;
    var n := OwnRunHears(ReadClient(mtu), ReadServer(value, mtu), a, acts, s0);
    var rs := HeardIn(ReadClient(mtu), a, acts, s0);
    ReadFolds(value, mtu, s0, rs);
    L.ReadsWhole(value, mtu, handle, rs);
  }

  lemma ReadQuits(mtu: nat)
    ensures Quits(ReadClient(mtu))
  {
  }

  // ---- Long writes ---------------------------------------------------------------------------

  predicate InValue(s: L.Write, r: Reply) { r.status == 0 ==> L.NextOffset(s, r) as int <= |s.value| }

  // Its requests are the parts; Execute Write is the last thing it sends, and ends it here.
  function WriteClient(mtu: nat): Client<L.Write>
    requires mtu >= 6
  {
    Client((s: L.Write, r: Reply) => if InValue(s, r) then L.PrepareCb(s, r, mtu) else s.(phase := L.Failed(ECODE_IO)),
           (s: L.Write) => if s.phase.Preparing? then Ask(L.LastSent(s)) else Finish(0))
  }

  // A server that accepts a part by sending it back, and may also answer with an error.
  predicate WriteServer(req: seq<byte>, r: Reply) { r.status != 0 || (req != [] && r == L.Echo(req)) }

  lemma {:induction false} WriteFolds(handle: u16, value: seq<byte>, mtu: nat, s: L.Write, rs: seq<Reply>)
    requires mtu >= 6 && |value| <= 0xFFFF && L.Tiling(handle, value, s, mtu) && Served(WriteClient(mtu), WriteServer, s, rs)
    ensures L.WriteConforms(s, rs, mtu) && Fold(WriteClient(mtu), s, rs) == L.WriteRun(s, rs, mtu)
    decreases |rs|
  {
    hide L.Tiling, L.PrepareCb, L.Echo;
    if rs != [] {
      var r := rs[0];
      L.EchoAdvances(handle, value, s, mtu);
      L.WriteRound(handle, value, s, r, mtu);
      WriteFolds(handle, value, mtu, L.PrepareCb(s, r, mtu), rs[1..]);
    }
  }

  // A long write in any run of the engine that is its own: the parts go out in order, and Execute Write
  // is sent only after every part was acknowledged; no error and no loss means that it is sent.
  lemma WriteOverTheEngine(handle: u16, value: seq<byte>, mtu: nat, a: E.Att, acts: seq<E.Action>)
    requires mtu >= 6 && mtu - 3 < |value| <= 0xFFFF && OwnRun(WriteClient(mtu), WriteServer, a, acts, L.WriteInit(handle, value, mtu))
    ensures var rs := HeardIn(WriteClient(mtu), a, acts, L.WriteInit(handle, value, mtu));
            var t := Fold(WriteClient(mtu), L.WriteInit(handle, value, mtu), rs); var all := L.Parts(handle, value, 0, mtu);
            && (t.phase.Executed? ==> t.sent == all + [L.EXEC_REQ] && |rs| >= |all|)
            && (!t.phase.Executed? ==> |t.sent| <= |all| && t.sent == all[..|t.sent|])
            && (L.NoErrors(rs) && |rs| >= |all| ==> t.phase.Executed?)
            && L.Stored([], all) == value
  {
    var s0 := L.WriteInit(handle, value, mtu);
    WriteQuits(mtu);
    WriteStarts(handle, value, mtu);
    hide OwnRun, HeardIn, Quits, Outcome, Served, Fold, L.NoErrors, L.WriteInit, L.Tiling, L.WriteRun, L.WriteConforms, L.Parts, L.Stored;
    var n := OwnRunHears(WriteClient(mtu), WriteServer, a, acts, s0);
    var rs := HeardIn(WriteClient(mtu), a, acts, s0);
    WriteFolds(handle, value, mtu, s0, rs);
    L.WritesWhole(handle, value, rs, mtu);
  }

  lemma WriteQuits(mtu: nat)
    requires mtu >= 6
    ensures Quits(WriteClient(mtu))
  {
  }

  lemma WriteStarts(handle: u16, value: seq<byte>, mtu: nat)
    requires mtu >= 6 && mtu - 3 < |value| <= 0xFFFF
    ensures L.Tiling(handle, value, L.WriteInit(handle, value, mtu), mtu)
  {
    hide PrepPdu;
    var s := L.WriteInit(handle, value, mtu);
    assert s.sent == [PrepPdu(PREP_WRITE_REQ, handle, 0, value[0..], mtu)];
  }

  // ---- Such runs exist -----------------------------------------------------------------------

  // The run of a discovery on a peer without services: the request is written, and answered.
  function EmptyPeer(): seq<E.Action> {
    [E.WriterReady(0, 7, []),
     E.Received(0, [ERROR_RSP, READ_BY_GRP_REQ, 1, 0, ECODE_ATTR_NOT_FOUND], E.RxEnv(true, true, true), [])]
  }

  const NOTHING: Reply := G.ReplyOf(ERROR_RSP, [READ_BY_GRP_REQ, 1, 0, ECODE_ATTR_NOT_FOUND])

  // One channel with nothing on it, and what its first request makes of it.
  ghost predicate Ready(a: E.Att, pending: Option<E.Op>, reqQ: seq<E.Op>) {
    && |a.chans| == 1 && a.mtu >= DEFAULT_LE_MTU && a.chans[0].mtu >= DEFAULT_LE_MTU && a.chans[0].link.Le?
    && a.chans[0].secLevel == E.SEC_AUTO && a.chans[0].queue == [] && a.chans[0].pendingReq == pending
    && a.chans[0].pendingInd.None? && a.reqQ == reqQ && a.indQ == [] && a.writeQ == []
  }

  function FirstOp(timer: nat): E.Op { E.Op(0, 1, timer, Req, READ_BY_GRP_REQ, P.ReqAll(1), true, true) }

  lemma ReqForm()
    ensures var req := P.ReqAll(1); |req| == 7 && req[0] == READ_BY_GRP_REQ && StartOf(req) == 1
  {
    P.StartOfAll(1);
  }

  lemma FirstSent(a: E.Att)
    requires Ready(a, None, []) && a.life == [] && a.nextSerial == 0 && a.nextSendId == 0
    ensures var b := Started(a, P.ReqAll(1));
            && Ready(b, None, [FirstOp(0)]) && b.chans[0].writerActive && b.nextSerial == 1
            && b.life == [E.Accepted(0, 1, P.ReqAll(1), true, true)]
  {
    ReqForm();
    hide P.ReqAll;
    var req := P.ReqAll(1);
    assert [req[0]] + req[1..] == req;
  }

  lemma FirstWritten(b: E.Att)
    requires Ready(b, None, [FirstOp(0)]) && b.chans[0].writerActive
    ensures var c := E.Step(b, EmptyPeer()[0]);
            exists t :: Ready(c, Some(FirstOp(t)), []) && c.life == b.life && c.nextSerial == b.nextSerial
  {
    ReqForm();
    hide P.ReqAll;
    var c := E.Step(b, EmptyPeer()[0]);
    assert Ready(c, Some(FirstOp(b.nextTimer)), []);
  }

  lemma FirstAnswered(c: E.Att, t: nat)
    requires Ready(c, Some(FirstOp(t)), []) && c.life == [E.Accepted(0, 1, P.ReqAll(1), true, true)]
    ensures ReplyAt(E.Step(c, EmptyPeer()[1]).life, 0) == Some(NOTHING)
  {
    hide P.ReqAll, Opcodes.Answers;
    var op, body := FirstOp(t), EmptyPeer()[1].bytes[1..];
    var d := E.Step(c, EmptyPeer()[1]);
    assert EmptyPeer()[1].bytes[0] == ERROR_RSP && body == [READ_BY_GRP_REQ, 1, 0, ECODE_ATTR_NOT_FOUND];
    assert d == E.HandleRsp(c, 0, ERROR_RSP, body, EmptyPeer()[1].env, []);
    assert d == E.Finish(c, 0, Req, ERROR_RSP, body, []);
    var entered := c.(chans := c.chans[0 := E.WithSlot(c.chans[0], Req, Some(op.(callback := false)))]);
    var called := E.Called(0, READ_BY_GRP_REQ, ERROR_RSP, body);
    assert E.CallAndRun(entered, op, ERROR_RSP, body, []).life == c.life + [called];
    assert d.life == c.life + [called] + [E.Destroyed(0)] + [E.Freed(0)];
    LastCalled(c.life, called);
  }

  lemma LastCalled(life: seq<E.LifeEvent>, called: E.LifeEvent)
    requires called.Called? && called.serial == 0
    ensures ReplyAt(life + [called] + [E.Destroyed(0)] + [E.Freed(0)], 0) == Some(G.ReplyOf(called.rsp, called.data))
  {
    var x := life + [called];
    var y := x + [E.Destroyed(0)];
    var z := y + [E.Freed(0)];
    assert x[..|life|] == life && y[..|x|] == x && z[..|y|] == y;
    assert ReplyAt(x, 0) == Some(G.ReplyOf(called.rsp, called.data));
    assert ReplyAt(y, 0) == ReplyAt(x, 0);
    assert ReplyAt(z, 0) == ReplyAt(y, 0);
  }

  // Discoveries that come to an end on the engine exist: on a new bearer whose peer has no services, the
  // user is called with status 0 and an empty list.
  lemma AllRunHappens(ioMtu: u16, level: int)
    ensures var a := E.NewAtt(E.Le, ioMtu, level, false); var c := AllClient();
            && a.Some? && P.Services([]) && OwnRun(c, AllServer([]), a.value, EmptyPeer(), P.AllInit)
            && HeardIn(c, a.value, EmptyPeer(), P.AllInit) == [NOTHING]
            && Fold(c, P.AllInit, [NOTHING]) == P.AllInit.(next := Finish(0))
  {
    var a := E.NewAtt(E.Le, ioMtu, level, false).value;
    R.InvNew(E.Le, ioMtu, level, false);
    FirstSent(a);
    ReqForm();
    var b := Started(a, P.ReqAll(1));
    FirstWritten(b);
    var b1 := E.Step(b, EmptyPeer()[0]);
    var t: nat :| Ready(b1, Some(FirstOp(t)), []) && b1.life == b.life && b1.nextSerial == b.nextSerial;
    FirstAnswered(b1, t);
    hide R.Inv, E.Step, Started, Ready;
    EmptyRun(b, b1, t);
    hide Played, Honest, Heard;
    assert a.nextSerial == 0;
  }

  // Nothing is heard while the request is written, and then the answer.
  ghost predicate Quick(b: E.Att, b1: E.Att) {
    && b1 == E.Step(b, EmptyPeer()[0]) && ReplyAt(b1.life, 0).None?
    && ReplyAt(E.Step(b1, EmptyPeer()[1]).life, 0) == Some(NOTHING)
  }

  lemma EmptyRun(b: E.Att, b1: E.Att, t: nat)
    requires b1 == E.Step(b, EmptyPeer()[0]) && Ready(b1, Some(FirstOp(t)), [])
    requires b1.life == b.life == [E.Accepted(0, 1, P.ReqAll(1), true, true)]
    requires ReplyAt(E.Step(b1, EmptyPeer()[1]).life, 0) == Some(NOTHING)
    ensures var c := AllClient();
            && P.Services([]) && Played(c, b, EmptyPeer(), P.AllInit, 0)
            && Honest(c, b, EmptyPeer(), P.AllInit, 0, AllServer([])) && Heard(c, b, EmptyPeer(), P.AllInit, 0) == [NOTHING]
            && Fold(c, P.AllInit, [NOTHING]) == P.AllInit.(next := Finish(0))
  {
    hide E.Step, Ready, P.ReqAll, P.AllStep, P.AllAnswer, AnswersWell, Played, Honest, Heard, ReplyAt;
    OnlyAccepted(P.ReqAll(1));
    EmptyAnswer();
    EmptyWell(b1, t);
    QuickPlayed(b, b1);
    QuickHonest(b, b1);
    assert [NOTHING][1..] == [];
  }

  lemma OnlyAccepted(req: seq<byte>)
    ensures ReplyAt([E.Accepted(0, 1, req, true, true)], 0).None?
  {
    assert [E.Accepted(0, 1, req, true, true)][..0] == [];
  }

  lemma TwoActs()
    ensures EmptyPeer() == [EmptyPeer()[0], EmptyPeer()[1]] && EmptyPeer()[1..] == [EmptyPeer()[1]] && EmptyPeer()[1..][1..] == []
  {
  }

  lemma QuickPlayed(b: E.Att, b1: E.Att)
    requires Quick(b, b1)
    ensures Played(AllClient(), b, EmptyPeer(), P.AllInit, 0) && Heard(AllClient(), b, EmptyPeer(), P.AllInit, 0) == [NOTHING]
  {
    var c, acts, s, b2 := AllClient(), EmptyPeer(), P.AllInit, E.Step(b1, EmptyPeer()[1]);
    EmptyAnswer();
    TwoActs();
    hide E.Step, P.AllStep, P.AllAnswer, P.ReqAll, ReplyAt;
    var done := s.(next := Finish(0));
    assert c.step(s, NOTHING) == done;
    assert Played(c, b2, [], done, b1.nextSerial) && Heard(c, b2, [], done, b1.nextSerial) == [];
    assert Played(c, b1, acts[1..], s, 0) && Heard(c, b1, acts[1..], s, 0) == [NOTHING];
  }

  lemma QuickHonest(b: E.Att, b1: E.Att)
    requires Quick(b, b1) && P.Services([]) && AnswersWell(b1, EmptyPeer()[1], 0, AllServer([]))
    ensures Honest(AllClient(), b, EmptyPeer(), P.AllInit, 0, AllServer([]))
  {
    var c, acts, s, b2 := AllClient(), EmptyPeer(), P.AllInit, E.Step(b1, EmptyPeer()[1]);
    EmptyAnswer();
    TwoActs();
    assert AnswersWell(b, acts[0], 0, AllServer([]));
    hide E.Step, P.AllStep, P.AllAnswer, P.ReqAll, ReplyAt, AnswersWell;
    var done := s.(next := Finish(0));
    assert c.step(s, NOTHING) == done;
    assert Honest(c, b2, [], done, b1.nextSerial, AllServer([]));
    assert Honest(c, b1, acts[1..], s, 0, AllServer([]));
  }

  lemma EmptyAnswer()
    ensures P.Services([]) && P.AllStep(P.AllInit, NOTHING) == P.AllInit.(next := Finish(0))
    ensures |P.ReqAll(1)| >= 3 && P.AllAnswer([], P.ReqAll(1), NOTHING)
  {
    ReqForm();
    BelowIs(P.Starts([]), 1, 0);
  }

  lemma EmptyWell(b1: E.Att, t: nat)
    requires Ready(b1, Some(FirstOp(t)), [])
    ensures P.Services([]) && AnswersWell(b1, EmptyPeer()[1], 0, AllServer([]))
  {
    EmptyAnswer();
    hide P.AllAnswer, P.ReqAll;
    var bytes := EmptyPeer()[1].bytes;
    assert bytes[1..] == [READ_BY_GRP_REQ, 1, 0, ECODE_ATTR_NOT_FOUND];
  }
}
