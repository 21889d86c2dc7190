// Discovery of included services (find_included_cb and resolve_included_uuid_cb of attrib/gatt.c):
// a search whose 128-bit answers each need a read of their own, all on one channel that answers
// requests in the order they were sent.

module GattIncluded {
  import opened Wire
  import opened Opcodes
  import opened Uuids
  import opened AttPdus
  import opened AttCodec
  import opened GattWire

  // struct gatt_included; the UUID is empty until it has been resolved.
  datatype Included = Included(handle: u16, start: u16, end: u16, uuid: string)

  // A request that has been sent and not answered.
  datatype Query = Find(at: u16) | Resolve(incl: Included)

  // One call of the user's callback.
  datatype Outcome = Outcome(err: byte, list: seq<Included>)

  // struct included_discovery, the requests it has under way, and its calls of the user.
  datatype Isd = Isd(start: u16, end: u16, err: byte, includes: seq<Included>, refs: int,
                     queue: seq<Query>, done: seq<Outcome>)

  // The PDU of a request.
  function Request(s: Isd, q: Query): seq<byte> {
    match q
    case Find(at) => RangeReq(READ_BY_TYPE_REQ, at, s.end, INCLUDE_UUID)
    case Resolve(incl) => ReadReq(incl.start)
  }

  // ---- The client ----------------------------------------------------------------------------

  // find_included and resolve_included_uuid: each request holds a reference.
  function Issue(s: Isd, q: Query): Isd { s.(queue := s.queue + [q], refs := s.refs + 1) }

  // gatt_find_included
  function Init(start: u16, end: u16): Isd { Issue(Isd(start, end, 0, [], 0, [], []), Find(start)) }

  // isd_unref
  function Unref(s: Isd): Isd {
    var s1 := s.(refs := s.refs - 1);
    if s1.refs > 0 then s1
    else s1.(done := s.done + [Outcome(s.err, if s.err != 0 then [] else s.includes)])
  }

  function Blame(s: Isd, err: byte): Isd { if s.err == 0 then s.(err := err) else s }

  predicate EntryOk(e: seq<byte>) { |e| == 6 || |e| == 8 }

  // included_from_buf
  function IncludedOf(e: seq<byte>): Included
    requires EntryOk(e)
  {
    Included(GetLe16(e, 0), GetLe16(e, 2), GetLe16(e, 4), if |e| == 8 then Text(U16(GetLe16(e, 6))) else "")
  }

  predicate EntriesOk(es: seq<seq<byte>>) { forall k :: 0 <= k < |es| ==> EntryOk(es[k]) }

  // The loop of find_included_cb
  function TakeIncludes(s: Isd, es: seq<seq<byte>>): Isd
    requires EntriesOk(es)
    decreases |es|
  {
    if es == [] then s
    else
      var incl := IncludedOf(es[0]);
      var s1 := if |es[0]| == 6 then Issue(s, Resolve(incl)) else s.(includes := s.includes + [incl]);
      TakeIncludes(s1, es[1..])
  }

  // After the entries of a response whose last handle is `last`
  function Onward(s: Isd, last: u16): Isd {
    if last < s.start then s.(err := ECODE_UNLIKELY)
    else
      var s1 := s.(start := Succ16(last));
      if last < s1.end then Issue(s1, Find(s1.start)) else s1
  }

  // find_included_cb
  function FindCb(s: Isd, r: Reply): Isd
    requires r.status == 0 ==> |r.pdu| >= 1
  {
    if r.status != 0 then Blame(s, if r.status == ECODE_ATTR_NOT_FOUND then 0 else r.status)
    else match TypeList(r.pdu)
      case None => Blame(s, ECODE_IO)
      case Some(list) =>
        if list.len != 6 && list.len != 8 then Blame(s, ECODE_IO)
        else
          var last := if list.data == [] then s.end else GetLe16(list.data[|list.data| - 1], 0);
          Onward(TakeIncludes(s, list.data), last)
  }

  // resolve_included_uuid_cb; `room` is the size of the buffer the value is read into
  function ResolveCb(s: Isd, incl: Included, r: Reply, room: nat): Isd
    requires r.status == 0 ==> |r.pdu| >= 1
  {
    if r.status != 0 then Blame(s, r.status)
    else
      var out := ReadRspOf(r.pdu, Some(room));
      if out.Value? && |out.bytes| == 16
      then Blame(s.(includes := s.includes + [incl.(uuid := Text(FromLe(out.bytes)))]), 0)
      else Blame(s, ECODE_IO)
  }

  // The oldest request is answered: its callback, then its destroy handler.
  function Step(s: Isd, r: Reply, room: nat): Isd
    requires s.queue != [] && (r.status == 0 ==> |r.pdu| >= 1)
  {
    var s0 := s.(queue := s.queue[1..]);
    Unref(match s.queue[0] case Find(_) => FindCb(s0, r) case Resolve(incl) => ResolveCb(s0, incl, r, room))
  }

  predicate Whole(rs: seq<Reply>) { forall k :: 0 <= k < |rs| ==> rs[k].status == 0 ==> |rs[k].pdu| >= 1 }

  function Run(s: Isd, rs: seq<Reply>, room: nat): Isd
    requires Whole(rs)
    decreases |rs|
  {
    if rs == [] || s.queue == [] then s else Run(Step(s, rs[0], room), rs[1..], room)
  }

  // ---- Any server ----------------------------------------------------------------------------

  // Resolve requests first, then at most one search, which starts where the discovery stands.
  predicate InOrder(s: Isd) {
    forall k :: 0 <= k < |s.queue| && s.queue[k].Find? ==> k == |s.queue| - 1 && s.queue[k].at == s.start
  }

  // One reference for each request under way; the user is called when the last one is gone, once.
  ghost predicate Counted(s: Isd) {
    && s.refs == |s.queue| && InOrder(s)
    && s.done == if s.queue == [] then [Outcome(s.err, if s.err != 0 then [] else s.includes)] else []
  }

  function Searching(s: Isd): bool { s.queue != [] && s.queue[|s.queue| - 1].Find? }

  // Resolving requests for the narrow entries, in front of whatever comes next.
  lemma {:induction false} TakeKeeps(s: Isd, es: seq<seq<byte>>)
    requires EntriesOk(es)
    ensures var t := TakeIncludes(s, es);
            && t.refs - |t.queue| == s.refs - |s.queue| && |s.queue| <= |t.queue| <= |s.queue| + |es|
            && t.queue[..|s.queue|] == s.queue && (forall k :: |s.queue| <= k < |t.queue| ==> t.queue[k].Resolve?)
            && t == s.(includes := t.includes, queue := t.queue, refs := t.refs)
    decreases |es|
  {
    hide EntryOk, IncludedOf;
    if es != [] {
      var incl := IncludedOf(es[0]);
      var s1 := if |es[0]| == 6 then Issue(s, Resolve(incl)) else s.(includes := s.includes + [incl]);
      TakeKeeps(s1, es[1..]);
      var t := TakeIncludes(s, es);
      assert t == TakeIncludes(s1, es[1..]);
      hide TakeIncludes;
      assert t.queue[..|s.queue|] == t.queue[..|s1.queue|][..|s.queue|];
    }
  }

  // A search either goes on from a higher handle, behind at most `room` new requests, or is over.
  lemma FindKeeps(s: Isd, r: Reply)
    requires (r.status == 0 ==> 1 <= |r.pdu| <= 0xFFFF) && (forall k :: 0 <= k < |s.queue| ==> s.queue[k].Resolve?)
    ensures var t := FindCb(s, r);
            && t.end == s.end && t.done == s.done && InOrder(t)
            && t.refs - |t.queue| == s.refs - |s.queue| && |s.queue| <= |t.queue| <= |s.queue| + 0x1_0000
            && (Searching(t) ==> s.start < t.start <= s.end)
            && (!Searching(t) ==> |t.queue| <= |s.queue| + 0xFFFF)
  {
    hide Onward, TakeIncludes, TypeList, GetLe16;
    if r.status == 0 && TypeList(r.pdu).Some? && (TypeList(r.pdu).value.len == 6 || TypeList(r.pdu).value.len == 8) {
      ListSize(r.pdu);
      var es := TypeList(r.pdu).value.data;
      var t := TakeIncludes(s, es);
      TakeKeeps(s, es);
      OnwardKeeps(t, if es == [] then s.end else GetLe16(es[|es| - 1], 0));
      hide InOrder, Searching, EntriesOk, EntryOk;
    }
  }

  lemma OnwardKeeps(s: Isd, last: u16)
    requires forall k :: 0 <= k < |s.queue| ==> s.queue[k].Resolve?
    ensures var t := Onward(s, last);
            && t.end == s.end && t.done == s.done && InOrder(t)
            && t.refs - |t.queue| == s.refs - |s.queue| && |s.queue| <= |t.queue|
            && (Searching(t) ==> s.start < t.start <= s.end && |t.queue| == |s.queue| + 1)
            && (!Searching(t) ==> |t.queue| == |s.queue|)
  {
  }

  lemma ListSize(pdu: seq<byte>)
    requires 1 <= |pdu| <= 0xFFFF && TypeList(pdu).Some?
    ensures |TypeList(pdu).value.data| <= 0xFFFF
  {
    FewChunks(pdu[2..], pdu[1]);
  }

  lemma {:induction false} FewChunks(s: seq<byte>, w: nat)
    requires 0 < w
    ensures |Chunks(s, w)| <= |s|
    decreases |s|
  {
    if |s| >= w {
      FewChunks(s[w..], w);
    }
  }

  // ---- References and the user's callback ----------------------------------------------------

  // How many more searches can be answered, at most: one for every handle of the range still ahead.
  function SearchesLeft(s: Isd): nat {
    if !Searching(s) then 0 else if s.start <= s.end then s.end as int - s.start + 1 else 1
  }

  // How many more requests can be answered, at most: each search can be followed by a read for every
  // entry a response can carry.
  function Left(s: Isd): int { SearchesLeft(s) * 0x2_0000 + |s.queue| }

  predicate Legal(rs: seq<Reply>) { forall k :: 0 <= k < |rs| ==> rs[k].status == 0 ==> 1 <= |rs[k].pdu| <= 0xFFFF }

  lemma StepKeeps(s: Isd, r: Reply, room: nat)
    requires Counted(s) && s.queue != [] && (r.status == 0 ==> 1 <= |r.pdu| <= 0xFFFF)
    ensures Counted(Step(s, r, room)) && Step(s, r, room).end == s.end && Left(Step(s, r, room)) < Left(s)
    ensures SearchesLeft(Step(s, r, room)) + (if s.queue[0].Find? then 1 else 0) <= SearchesLeft(s)
  {
    hide FindCb, ReadRspOf, ResolveCb;
    var s0 := s.(queue := s.queue[1..]);
    match s.queue[0]
    case Find(_) =>
      assert s0.queue == [];
      FindKeeps(s0, r);
      UnrefKeeps(FindCb(s0, r));
    case Resolve(incl) =>
      ResolveKeeps(s0, incl, r, room);
      assert InOrder(s0) && Left(s0) == Left(s) - 1 && SearchesLeft(s0) == SearchesLeft(s);
      hide InOrder, Left, SearchesLeft;
      UnrefKeeps(ResolveCb(s0, incl, r, room));
  }

  lemma ResolveKeeps(s: Isd, incl: Included, r: Reply, room: nat)
    requires (r.status == 0 ==> |r.pdu| >= 1) && InOrder(s)
    ensures var t := ResolveCb(s, incl, r, room);
            t.end == s.end && t.done == s.done && t.queue == s.queue && t.refs == s.refs && InOrder(t)
            && Left(t) == Left(s) && SearchesLeft(t) == SearchesLeft(s)
  {
    hide ReadRspOf;
  }

  lemma UnrefKeeps(t: Isd)
    requires t.refs == |t.queue| + 1 && InOrder(t) && t.done == []
    ensures Counted(Unref(t)) && Left(Unref(t)) == Left(t) && SearchesLeft(Unref(t)) == SearchesLeft(t) && Unref(t).end == t.end
  {
  }

  // Whatever the server answers: the references equal the requests under way, and the user is called
  // exactly once, when and only when nothing is left to wait for.
  lemma {:induction false} CallbackOnce(s: Isd, rs: seq<Reply>, room: nat)
    requires Counted(s) && Legal(rs)
    ensures Whole(rs) && Counted(Run(s, rs, room))
    ensures |rs| >= Left(s) ==> Run(s, rs, room).queue == []
    decreases |rs|
  {
    hide Counted, Step, Left;
    LeftPositive(s);
    if rs != [] && s.queue != [] {
      StepKeeps(s, rs[0], room);
      CallbackOnce(Step(s, rs[0], room), rs[1..], room);
    }
  }

  // The searches among the requests a run answers.
  function Searches(s: Isd, rs: seq<Reply>, room: nat): nat
    requires Whole(rs)
    decreases |rs|
  {
    if rs == [] || s.queue == [] then 0
    else (if s.queue[0].Find? then 1 else 0) + Searches(Step(s, rs[0], room), rs[1..], room)
  }

  // Whatever the server answers: no more searches than there are handles in the range, and one for an
  // empty range.
  lemma {:induction false} SearchesBounded(s: Isd, rs: seq<Reply>, room: nat)
    requires Counted(s) && Legal(rs)
    ensures Whole(rs) && Searches(s, rs, room) <= SearchesLeft(s)
    decreases |rs|
  {
    hide Counted, Step, SearchesLeft, Left;
    if rs != [] && s.queue != [] {
      StepKeeps(s, rs[0], room);
      SearchesBounded(Step(s, rs[0], room), rs[1..], room);
    }
  }

  // From the start of a discovery.
  lemma SearchesInRange(start: u16, end: u16, rs: seq<Reply>, room: nat)
    requires start <= end && Legal(rs)
    ensures Whole(rs) && Searches(Init(start, end), rs, room) <= end as int - start + 1
  {
    InitCounted(start, end);
    SearchesBounded(Init(start, end), rs, room);
    hide Searches, Counted;
  }

  lemma LeftPositive(s: Isd)
    ensures s.queue != [] ==> Left(s) > 0
  {
  }

  lemma InitCounted(start: u16, end: u16)
    ensures Counted(Init(start, end))
    ensures start <= end ==> Left(Init(start, end)) == (end as int - start + 1) * 0x2_0000 + 1
  {
  }

  // ---- Requests that are dropped -------------------------------------------------------------

  // A request is destroyed unanswered, by a cancellation or when the bearer is freed: no callback runs,
  // but its destroy handler drops the reference all the same.
  function Lose(s: Isd, k: nat): Isd
    requires k < |s.queue|
  {
    Unref(s.(queue := s.queue[..k] + s.queue[k + 1..]))
  }

  datatype Turn = Answered(r: Reply) | Lost(k: nat)

  predicate LegalTurns(ts: seq<Turn>) {
    forall k :: 0 <= k < |ts| ==> ts[k].Answered? && ts[k].r.status == 0 ==> 1 <= |ts[k].r.pdu| <= 0xFFFF
  }

  function Take(s: Isd, t: Turn, room: nat): Isd
    requires s.queue != [] && (t.Answered? && t.r.status == 0 ==> |t.r.pdu| >= 1)
  {
    match t
    case Answered(r) => Step(s, r, room)
    case Lost(k) => if k < |s.queue| then Lose(s, k) else s
  }

  function Turns(s: Isd, ts: seq<Turn>, room: nat): Isd
    requires LegalTurns(ts)
    decreases |ts|
  {
    if ts == [] || s.queue == [] then s else Turns(Take(s, ts[0], room), ts[1..], room)
  }

  lemma LoseKeeps(s: Isd, k: nat)
    requires Counted(s) && k < |s.queue|
    ensures Counted(Lose(s, k)) && |Lose(s, k).queue| == |s.queue| - 1
    ensures Lose(s, k).err == s.err && Lose(s, k).includes == s.includes
    ensures Lose(s, k).done != [] <==> |s.queue| == 1
  {
    var s1 := s.(queue := s.queue[..k] + s.queue[k + 1..]);
    assert forall j :: 0 <= j < |s1.queue| ==> s1.queue[j] == s.queue[if j < k then j else j + 1];
  }

  // Whatever is answered and whatever is dropped, in whatever order: references equal requests, and
  // the user is called exactly once, when the last request is gone.
  lemma {:induction false} DropsToldOnce(s: Isd, ts: seq<Turn>, room: nat)
    requires Counted(s) && LegalTurns(ts)
    ensures Counted(Turns(s, ts, room))
    decreases |ts|
  {
    hide Counted, Step, Lose, Left;
    if ts != [] && s.queue != [] {
      var t := Take(s, ts[0], room);
      match ts[0] {
        case Answered(r) => StepKeeps(s, r, room);
        case Lost(k) => if k < |s.queue| { LoseKeeps(s, k); }
      }
      DropsToldOnce(t, ts[1..], room);
    }
  }

  // The oldest request is dropped until none is left, as freeing the bearer or cancelling repeatedly
  // does: the user is called once, and told what there was.
  function LoseAll(s: Isd): Isd
    decreases |s.queue|
  {
    if s.queue == [] then s else LoseAll(Lose(s, 0))
  }

  lemma {:induction false} AllLost(s: Isd)
    requires Counted(s)
    ensures LoseAll(s).queue == [] && LoseAll(s).done == [Outcome(s.err, if s.err != 0 then [] else s.includes)]
    decreases |s.queue|
  {
    if s.queue != [] {
      LoseKeeps(s, 0);
      hide Lose;
      AllLost(Lose(s, 0));
    }
  }

  // ---- The server ----------------------------------------------------------------------------

  // An include declaration.
  datatype Inc = Inc(handle: u16, start: u16, end: u16, uuid: Uuid)

  predicate AllOnWire(incs: seq<Inc>) { forall k :: 0 <= k < |incs| ==> OnWire(incs[k].uuid) }

  // The include declarations between start and end, ascending; a service has one UUID.
  predicate Includes(incs: seq<Inc>, start: u16, end: u16) {
    && AllOnWire(incs)
    && (forall k :: 0 <= k < |incs| ==> start <= incs[k].handle <= end)
    && (forall j, k :: 0 <= j < k < |incs| ==> incs[j].handle < incs[k].handle)
    && (forall j, k :: 0 <= j < k < |incs| && incs[j].start == incs[k].start ==> incs[j].uuid == incs[k].uuid)
  }

  function Handles(incs: seq<Inc>): (keys: seq<int>)
    ensures |keys| == |incs| && forall k :: 0 <= k < |incs| ==> keys[k] == incs[k].handle
  {
    seq(|incs|, k requires 0 <= k < |incs| => incs[k].handle as int)
  }

  // An entry carries the UUID only when it has 16 bits.
  function Entry(i: Inc): (e: seq<byte>)
    requires OnWire(i.uuid)
    ensures |e| == if i.uuid.U16? then 8 else 6
  {
    PutLe16(i.handle) + PutLe16(i.start) + PutLe16(i.end) + (if i.uuid.U16? then UuidBytes(i.uuid) else [])
  }

  function Entries(incs: seq<Inc>): (es: seq<seq<byte>>)
    requires AllOnWire(incs)
    ensures |es| == |incs| && forall k :: 0 <= k < |incs| ==> es[k] == Entry(incs[k])
  {
    seq(|incs|, k requires 0 <= k < |incs| => Entry(incs[k]))
  }

  predicate SameKind(part: seq<Inc>) { forall k :: 0 <= k < |part| ==> part[k].uuid.U16? == part[0].uuid.U16? }

  // Section 4.5.1 of Vol 3, Part G: declarations of one width in one response.
  ghost predicate Tells(part: seq<Inc>, r: Reply)
    requires AllOnWire(part)
  {
    && r.status == 0 && part != [] && SameKind(part)
    && r.pdu == [READ_BY_TYPE_RSP, if part[0].uuid.U16? then 8 else 6] + Flatten(Entries(part))
  }

  // A search is answered with some of the declarations at or above its start; a read of the service a
  // declaration names is answered with that service's UUID.
  ghost predicate Answer(incs: seq<Inc>, req: seq<byte>, r: Reply)
    requires AllOnWire(incs) && |req| >= 3
  {
    if req[0] == READ_BY_TYPE_REQ then
      var n := Below(Handles(incs), StartOf(req));
      if n == |incs| then r.status == ECODE_ATTR_NOT_FOUND
      else exists m :: n < m <= |incs| && AllOnWire(incs[n..m]) && Tells(incs[n..m], r)
    else forall k :: 0 <= k < |incs| && incs[k].start == StartOf(req) && !incs[k].uuid.U16? ==>
           r == Reply(0, [READ_RSP] + UuidBytes(incs[k].uuid))
  }

  lemma RequestForm(s: Isd, q: Query)
    ensures |Request(s, q)| >= 3
    ensures q.Find? ==> Request(s, q)[0] == READ_BY_TYPE_REQ && StartOf(Request(s, q)) == q.at
    ensures q.Resolve? ==> Request(s, q)[0] == READ_REQ && StartOf(Request(s, q)) == q.incl.start
  {
    match q
    case Find(at) =>
      StartOfReq(READ_BY_TYPE_REQ, at, PutLe16(s.end) + PutLe16(INCLUDE_UUID));
      assert Request(s, q) == [READ_BY_TYPE_REQ] + PutLe16(at) + (PutLe16(s.end) + PutLe16(INCLUDE_UUID));
    case Resolve(incl) =>
      StartOfReq(READ_REQ, incl.start, []);
      assert Request(s, q) == [READ_REQ] + PutLe16(incl.start) + [];
  }

  ghost predicate Conforms(incs: seq<Inc>, s: Isd, rs: seq<Reply>, room: nat)
    requires AllOnWire(incs) && Whole(rs)
    decreases |rs|
  {
    rs != [] && s.queue != [] ==>
      && |Request(s, s.queue[0])| >= 3 && Answer(incs, Request(s, s.queue[0]), rs[0])
      && Conforms(incs, Step(s, rs[0], room), rs[1..], room)
  }

  // ---- The join is correct -------------------------------------------------------------------

  function Shown(i: Inc): Included
    requires OnWire(i.uuid)
  {
    Included(i.handle, i.start, i.end, Text(i.uuid))
  }

  function ShownAll(incs: seq<Inc>): (list: seq<Included>)
    requires AllOnWire(incs)
    ensures |list| == |incs| && forall k :: 0 <= k < |incs| ==> list[k] == Shown(incs[k])
  {
    seq(|incs|, k requires 0 <= k < |incs| => Shown(incs[k]))
  }

  function Waiting(incs: seq<Inc>): (qs: seq<Query>)
    ensures |qs| == |incs| && forall k :: 0 <= k < |incs| ==> qs[k] == Resolve(Included(incs[k].handle, incs[k].start, incs[k].end, ""))
  {
    seq(|incs|, k requires 0 <= k < |incs| => Resolve(Included(incs[k].handle, incs[k].start, incs[k].end, "")))
  }

  // The first p declarations are reported, those from p to n wait to be resolved, in order, and the
  // search for the rest, if it is still on, comes after them.
  ghost predicate At(incs: seq<Inc>, p: nat, n: nat, more: bool, s: Isd)
    requires AllOnWire(incs)
  {
    && p <= n <= |incs| && s.err == 0
    && s.includes == ShownAll(incs)[..p]
    && (forall k :: p <= k < n ==> !incs[k].uuid.U16?)
    && s.queue == Waiting(incs)[p..n] + (if more then [Find(s.start)] else [])
    && (if more then Below(Handles(incs), s.start) == n else n == |incs|)
  }

  lemma EntryHead(a: u16, b: u16, c: u16, rest: seq<byte>)
    ensures var e := PutLe16(a) + PutLe16(b) + PutLe16(c) + rest;
            && |e| == 6 + |rest| && GetLe16(e, 0) == a && GetLe16(e, 2) == b && GetLe16(e, 4) == c
            && (|rest| >= 2 ==> GetLe16(e, 6) == GetLe16(rest, 0))
  {
    var e := PutLe16(a) + PutLe16(b) + PutLe16(c) + rest;
    assert e[0] == a % 0x100 && e[1] == a / 0x100 && e[2] == b % 0x100 && e[3] == b / 0x100 && e[4] == c % 0x100 && e[5] == c / 0x100;
    assert |rest| >= 2 ==> e[6] == rest[0] && e[7] == rest[1];
  }

  lemma EntryBack(i: Inc)
    requires OnWire(i.uuid)
    ensures EntryOk(Entry(i)) && GetLe16(Entry(i), 0) == i.handle
    ensures IncludedOf(Entry(i)) == if i.uuid.U16? then Shown(i) else Included(i.handle, i.start, i.end, "")
  {
    if i.uuid.U16? {
      LeRoundTrip(i.uuid);
      EntryHead(i.handle, i.start, i.end, UuidBytes(i.uuid));
    } else {
      EntryHead(i.handle, i.start, i.end, []);
    }
    hide GetLe16, PutLe16, Text, UuidBytes;
  }

  // 16-bit entries are reported at once, 128-bit ones each start a read.
  lemma {:induction false} TakePart(s: Isd, part: seq<Inc>)
    requires AllOnWire(part) && SameKind(part)
    ensures EntriesOk(Entries(part))
    ensures part != [] ==>
              TakeIncludes(s, Entries(part)) ==
              if part[0].uuid.U16? then s.(includes := s.includes + ShownAll(part))
              else s.(queue := s.queue + Waiting(part), refs := s.refs + |part|)
    decreases |part|
  {
    var es := Entries(part);
    forall k | 0 <= k < |es| ensures EntryOk(es[k]) {
      EntryBack(part[k]);
    }
    if part != [] {
      EntryBack(part[0]);
      if part[0].uuid.U16? {
        TakeShort(s, part);
      } else {
        TakeLong(s, part);
      }
    }
  }

  lemma Assoc<T>(a: seq<T>, b: seq<T>, c: seq<T>)
    ensures a + (b + c) == a + b + c
    ensures c == [] ==> a + c == a
  {
  }

  lemma EntriesFirst(part: seq<Inc>)
    requires AllOnWire(part) && part != []
    ensures Entries(part)[0] == Entry(part[0]) && Entries(part)[1..] == Entries(part[1..])
  {
    hide Entry, OnWire;
  }

  lemma ShownFirst(part: seq<Inc>)
    requires AllOnWire(part) && part != []
    ensures ShownAll(part) == [Shown(part[0])] + ShownAll(part[1..])
  {
    hide Shown, OnWire;
  }

  lemma WaitingFirst(part: seq<Inc>)
    requires part != []
    ensures Waiting(part) == [Waiting(part)[0]] + Waiting(part[1..])
  {
  }

  lemma {:induction false} TakeShort(s: Isd, part: seq<Inc>)
    requires AllOnWire(part) && (forall k :: 0 <= k < |part| ==> part[k].uuid.U16?) && EntriesOk(Entries(part))
    ensures TakeIncludes(s, Entries(part)) == s.(includes := s.includes + ShownAll(part))
    decreases |part|
  {
    Assoc(s.includes, [], ShownAll([]));
    if part != [] {
      var rest := part[1..];
      EntriesFirst(part);
      ShownFirst(part);
      EntryBack(part[0]);
      var s1 := s.(includes := s.includes + [Shown(part[0])]);
      TakeShort(s1, rest);
      Assoc(s.includes, [Shown(part[0])], ShownAll(rest));
    }
    hide Entry, Entries, IncludedOf, Shown, ShownAll, OnWire, AllOnWire;
  }

  lemma {:induction false} TakeLong(s: Isd, part: seq<Inc>)
    requires AllOnWire(part) && (forall k :: 0 <= k < |part| ==> !part[k].uuid.U16?) && EntriesOk(Entries(part))
    ensures TakeIncludes(s, Entries(part)) == s.(queue := s.queue + Waiting(part), refs := s.refs + |part|)
    decreases |part|
  {
    Assoc(s.queue, [], Waiting([]));
    if part != [] {
      var rest := part[1..];
      EntriesFirst(part);
      WaitingFirst(part);
      EntryBack(part[0]);
      var s1 := Issue(s, Waiting(part)[0]);
      TakeLong(s1, rest);
      Assoc(s.queue, [Waiting(part)[0]], Waiting(rest));
    }
    hide Entry, Entries, IncludedOf, Waiting, OnWire, AllOnWire;
  }

  lemma SlicesOf(incs: seq<Inc>, n: nat, m: nat)
    requires AllOnWire(incs) && n <= m <= |incs|
    ensures AllOnWire(incs[n..m]) && ShownAll(incs[n..m]) == ShownAll(incs)[n..m] && Waiting(incs[n..m]) == Waiting(incs)[n..m]
  {
    hide Shown, OnWire;
  }

  function Raw(i: Inc): Included { Included(i.handle, i.start, i.end, "") }

  // What the answer to a read does when nothing has gone wrong.
  lemma ResolveEffect(s: Isd, i: Inc, room: nat)
    requires OnWire(i.uuid) && !i.uuid.U16? && room >= 16 && s.err == 0
    ensures ResolveCb(s, Raw(i), Reply(0, [READ_RSP] + UuidBytes(i.uuid)), room) == s.(includes := s.includes + [Shown(i)])
  {
    var bytes := UuidBytes(i.uuid);
    LeRoundTrip(i.uuid);
    assert ([READ_RSP] + bytes)[1..] == bytes;
    hide UuidBytes, Text, FromLe, ToLe;
    assert ReadRspOf([READ_RSP] + bytes, Some(room)) == Value(bytes);
  }

  lemma QueueMoves(incs: seq<Inc>, p: nat, n: nat, tail: seq<Query>)
    requires p < n <= |incs|
    ensures var q := Waiting(incs)[p..n] + tail;
            q != [] && q[0] == Resolve(Raw(incs[p])) && q[1..] == Waiting(incs)[p + 1..n] + tail
  {
  }

  lemma ShownMoves(incs: seq<Inc>, p: nat)
    requires AllOnWire(incs) && p < |incs|
    ensures ShownAll(incs)[..p + 1] == ShownAll(incs)[..p] + [Shown(incs[p])]
  {
    hide Shown, OnWire;
  }

  // The oldest read is answered.
  lemma ResolveRound(incs: seq<Inc>, p: nat, n: nat, more: bool, s: Isd, r: Reply, room: nat)
    requires AllOnWire(incs) && At(incs, p, n, more, s) && p < n && room >= 16
    requires (r.status == 0 ==> |r.pdu| >= 1) && s.queue != []
    requires |Request(s, s.queue[0])| >= 3 && Answer(incs, Request(s, s.queue[0]), r)
    ensures At(incs, p + 1, n, more, Step(s, r, room))
  {
    var inc := incs[p];
    QueueMoves(incs, p, n, if more then [Find(s.start)] else []);
    ShownMoves(incs, p);
    RequestForm(s, s.queue[0]);
    assert OnWire(inc.uuid);
    hide UuidBytes, OnWire, Request, Waiting, ShownAll, Below, Handles, ResolveCb;
    assert r == Reply(0, [READ_RSP] + UuidBytes(inc.uuid));
    ResolveEffect(s.(queue := s.queue[1..]), inc, room);
  }

  lemma Decoded(part: seq<Inc>, r: Reply)
    requires AllOnWire(part) && Tells(part, r)
    ensures |r.pdu| >= 1 && EntriesOk(Entries(part))
    ensures TypeList(r.pdu) == Some(DataList(if part[0].uuid.U16? then 8 else 6, Entries(part)))
    ensures GetLe16(Entries(part)[|part| - 1], 0) == part[|part| - 1].handle
  {
    var es := Entries(part);
    var w := if part[0].uuid.U16? then 8 else 6;
    assert Wide(es, w);
    ListOfPdu(READ_BY_TYPE_RSP, es, w, 5, 3);
    hide ListOf, Flatten, Entry;
    EntryBack(part[|part| - 1]);
  }

  lemma Behind(incs: seq<Inc>, start: u16, end: u16, m: nat)
    requires Includes(incs, start, end) && 0 < m <= |incs|
    ensures var last: int := incs[m - 1].handle;
            && last <= end && Below(Handles(incs), last + 1) == m && (last == end ==> m == |incs|)
            && forall k :: 0 <= k < m ==> incs[k].handle <= last
  {
    var last: int := incs[m - 1].handle;
    if m < |incs| {
      assert incs[m - 1].handle < incs[m].handle;
    }
    hide AllOnWire;
    BelowIs(Handles(incs), last + 1, m);
  }

  // The entries of a search response, taken by a discovery that waits for nothing else.
  function Taken(s: Isd, part: seq<Inc>): Isd
    requires AllOnWire(part) && part != []
  {
    if part[0].uuid.U16? then s.(includes := s.includes + ShownAll(part))
    else s.(queue := Waiting(part), refs := s.refs + |part|)
  }

  lemma TakenIs(s: Isd, part: seq<Inc>)
    requires AllOnWire(part) && SameKind(part) && part != [] && s.queue == []
    ensures EntriesOk(Entries(part)) && TakeIncludes(s, Entries(part)) == Taken(s, part)
  {
    TakePart(s, part);
    assert [] + Waiting(part) == Waiting(part);
    hide TakeIncludes, Entries, ShownAll, Waiting, SameKind, EntriesOk, AllOnWire;
  }

  lemma FindEffect(s: Isd, part: seq<Inc>, r: Reply)
    requires AllOnWire(part) && Tells(part, r) && s.queue == []
    ensures |r.pdu| >= 1 && FindCb(s, r) == Onward(Taken(s, part), part[|part| - 1].handle)
  {
    Decoded(part, r);
    TakenIs(s, part);
    hide TypeList, TakeIncludes, Taken, Entries, GetLe16, Onward, SameKind, EntriesOk, AllOnWire;
  }

  lemma OnwardAt(incs: seq<Inc>, p: nat, n: nat, t: Isd, last: u16)
    requires AllOnWire(incs) && p <= n <= |incs| && t.err == 0 && t.includes == ShownAll(incs)[..p] && t.queue == Waiting(incs)[p..n]
    requires forall k :: p <= k < n ==> !incs[k].uuid.U16?
    requires t.start <= last <= t.end && Below(Handles(incs), last as int + 1) == n && (last == t.end ==> n == |incs|)
    ensures At(incs, p, n, last < t.end, Onward(t, last))
  {
    hide ShownAll, Waiting, Handles, Below, AllOnWire;
    assert Waiting(incs)[p..n] + [] == Waiting(incs)[p..n];
  }

  lemma FoundShort(incs: seq<Inc>, n: nat, m: nat, s: Isd)
    requires AllOnWire(incs) && n < m <= |incs| && s.includes == ShownAll(incs)[..n]
    requires AllOnWire(incs[n..m]) && incs[n..m][0].uuid.U16?
    ensures Taken(s, incs[n..m]) == s.(includes := ShownAll(incs)[..m])
  {
    SlicesOf(incs, n, m);
    Prefixes(ShownAll(incs), n, m);
    hide AllOnWire, ShownAll, OnWire;
  }

  lemma FoundLong(incs: seq<Inc>, n: nat, m: nat, s: Isd)
    requires AllOnWire(incs) && n < m <= |incs|
    requires AllOnWire(incs[n..m]) && SameKind(incs[n..m]) && !incs[n..m][0].uuid.U16?
    ensures Taken(s, incs[n..m]) == s.(queue := Waiting(incs)[n..m], refs := s.refs + (m - n))
    ensures forall k :: n <= k < m ==> !incs[k].uuid.U16?
  {
    SlicesOf(incs, n, m);
    forall k | n <= k < m ensures !incs[k].uuid.U16? {
      assert incs[n..m][k - n] == incs[k];
    }
    hide AllOnWire, ShownAll, OnWire, Waiting, SameKind;
  }

  lemma UnrefAt(incs: seq<Inc>, p: nat, n: nat, more: bool, s: Isd)
    requires AllOnWire(incs) && At(incs, p, n, more, s)
    ensures At(incs, p, n, more, Unref(s))
  {
    hide Waiting, ShownAll, Below, Handles, AllOnWire;
  }

  // The state is ready for declarations n to m.
  ghost predicate Ready(incs: seq<Inc>, n: nat, m: nat, s: Isd, end: u16)
    requires AllOnWire(incs)
  {
    && n < m <= |incs| && s.end == end && s.err == 0 && s.queue == [] && s.includes == ShownAll(incs)[..n]
    && s.start <= incs[m - 1].handle <= end
    && Below(Handles(incs), incs[m - 1].handle as int + 1) == m && (incs[m - 1].handle == end ==> m == |incs|)
  }

  lemma NoSlice<T>(s: seq<T>, m: nat)
    requires m <= |s|
    ensures s[m..m] == []
  {
  }

  lemma FindShort(incs: seq<Inc>, n: nat, m: nat, s: Isd, end: u16)
    requires AllOnWire(incs) && Ready(incs, n, m, s, end) && AllOnWire(incs[n..m]) && incs[n..m][0].uuid.U16?
    ensures var last := incs[m - 1].handle; At(incs, m, m, last < end, Onward(Taken(s, incs[n..m]), last))
  {
    hide AllOnWire, Handles, Below, At, ShownAll, Onward, Taken, Waiting;
    FoundShort(incs, n, m, s);
    NoSlice(Waiting(incs), m);
    OnwardAt(incs, m, m, s.(includes := ShownAll(incs)[..m]), incs[m - 1].handle);
  }

  lemma FindLong(incs: seq<Inc>, n: nat, m: nat, s: Isd, end: u16)
    requires AllOnWire(incs) && Ready(incs, n, m, s, end)
    requires AllOnWire(incs[n..m]) && SameKind(incs[n..m]) && !incs[n..m][0].uuid.U16?
    ensures var last := incs[m - 1].handle; At(incs, n, m, last < end, Onward(Taken(s, incs[n..m]), last))
  {
    hide AllOnWire, Handles, Below, At, ShownAll, Onward, Taken, Waiting, SameKind;
    FoundLong(incs, n, m, s);
    OnwardAt(incs, n, m, s.(queue := Waiting(incs)[n..m], refs := s.refs + (m - n)), incs[m - 1].handle);
  }

  lemma GetReady(incs: seq<Inc>, start: u16, end: u16, n: nat, m: nat, s: Isd)
    requires Includes(incs, start, end) && n < m <= |incs|
    requires s.end == end && s.err == 0 && s.queue == [] && s.includes == ShownAll(incs)[..n] && Below(Handles(incs), s.start) == n
    ensures AllOnWire(incs) && Ready(incs, n, m, s, end)
  {
    Behind(incs, start, end, m);
    assert Handles(incs)[n] >= s.start;
    hide Includes, AllOnWire, Handles, Below, ShownAll;
  }

  // The search is answered, with declarations n to m or with Attribute Not Found.
  lemma FindMore(incs: seq<Inc>, start: u16, end: u16, n: nat, m: nat, s: Isd, r: Reply) returns (p: nat, more: bool)
    requires Includes(incs, start, end) && n < m <= |incs| && AllOnWire(incs[n..m]) && Tells(incs[n..m], r)
    requires s.end == end && s.err == 0 && s.queue == [] && s.includes == ShownAll(incs)[..n] && Below(Handles(incs), s.start) == n
    ensures |r.pdu| >= 1 && At(incs, p, m, more, FindCb(s, r)) && (p == n || p == m)
  {
    GetReady(incs, start, end, n, m, s);
    hide Includes, AllOnWire, Handles, Below, At, ShownAll, Onward, FindCb, Ready, Taken;
    LastOfSlice(incs, n, m);
    FindEffect(s, incs[n..m], r);
    more := incs[m - 1].handle < end;
    if incs[n..m][0].uuid.U16? {
      FindShort(incs, n, m, s, end);
      p := m;
    } else {
      FindLong(incs, n, m, s, end);
      p := n;
    }
  }

  lemma FindRound(incs: seq<Inc>, start: u16, end: u16, n: nat, s: Isd, r: Reply, room: nat)
    returns (p1: nat, n1: nat, more: bool)
    requires Includes(incs, start, end) && At(incs, n, n, true, s) && s.end == end
    requires (r.status == 0 ==> |r.pdu| >= 1) && s.queue != []
    requires |Request(s, s.queue[0])| >= 3 && Answer(incs, Request(s, s.queue[0]), r)
    ensures At(incs, p1, n1, more, Step(s, r, room)) && n1 >= n && p1 >= n && (n1 == n ==> !more)
  {
    assert Waiting(incs)[n..n] + [Find(s.start)] == [Find(s.start)];
    assert Waiting(incs)[n..n] + [] == [];
    RequestForm(s, s.queue[0]);
    var s0 := s.(queue := s.queue[1..]);
    hide Includes, AllOnWire, Request, Waiting, Below, Handles, ShownAll;
    if n == |incs| {
      p1, n1, more := n, n, false;
    } else {
      hide FindCb;
      n1 :| n < n1 <= |incs| && AllOnWire(incs[n..n1]) && Tells(incs[n..n1], r);
      p1, more := FindMore(incs, start, end, n, n1, s0, r);
      hide Tells;
    }
    UnrefAt(incs, p1, n1, more, FindCb(s0, r));
    hide At;
  }

  // Answers still to come: a search for every declaration not yet seen and one more, and a read for
  // every declaration not yet resolved.
  function Rest(incs: seq<Inc>, p: nat, n: nat, more: bool): int {
    2 * (|incs| - n) + (n - p) + (if more then 1 else 0)
  }

  lemma Round(incs: seq<Inc>, start: u16, end: u16, p: nat, n: nat, more: bool, s: Isd, r: Reply, room: nat)
    returns (p1: nat, n1: nat, more1: bool)
    requires Includes(incs, start, end) && At(incs, p, n, more, s) && s.end == end && room >= 16
    requires (r.status == 0 ==> |r.pdu| >= 1) && s.queue != []
    requires |Request(s, s.queue[0])| >= 3 && Answer(incs, Request(s, s.queue[0]), r)
    ensures At(incs, p1, n1, more1, Step(s, r, room)) && Rest(incs, p1, n1, more1) < Rest(incs, p, n, more)
  {
    if p < n {
      ResolveRound(incs, p, n, more, s, r, room);
      p1, n1, more1 := p + 1, n, more;
      hide At;
    } else {
      assert more by {
        assert Waiting(incs)[n..n] == [];
      }
      p1, n1, more1 := FindRound(incs, start, end, n, s, r, room);
      assert p1 <= n1 <= |incs|;
      hide At;
    }
  }

  lemma {:induction false} Rounds(incs: seq<Inc>, start: u16, end: u16, p: nat, n: nat, more: bool, s: Isd, rs: seq<Reply>, room: nat)
    returns (p1: nat, n1: nat, more1: bool)
    requires Includes(incs, start, end) && At(incs, p, n, more, s) && s.end == end && Counted(s) && room >= 16
    requires Legal(rs) && Whole(rs) && Conforms(incs, s, rs, room)
    ensures var t := Run(s, rs, room);
            && At(incs, p1, n1, more1, t) && Counted(t)
            && (t.queue != [] ==> Rest(incs, p1, n1, more1) + |rs| <= Rest(incs, p, n, more))
    decreases |rs|
  {
    hide At, Step, Answer, Includes, Counted, Request, Left;
    p1, n1, more1 := p, n, more;
    if rs != [] && s.queue != [] {
      p1, n1, more1 := Round(incs, start, end, p, n, more, s, rs[0], room);
      StepKeeps(s, rs[0], room);
      p1, n1, more1 := Rounds(incs, start, end, p1, n1, more1, Step(s, rs[0], room), rs[1..], room);
    }
  }

  // However the server splits its answers, the user gets every include declaration, in the server's
  // order and with its UUID, in one call with status 0, after the last read has been answered.
  lemma Complete(incs: seq<Inc>, start: u16, end: u16, rs: seq<Reply>, room: nat)
    requires Includes(incs, start, end) && room >= 16
    requires Legal(rs) && Whole(rs) && Conforms(incs, Init(start, end), rs, room)
    ensures var s := Run(Init(start, end), rs, room);
            && s.done == (if s.queue == [] then [Outcome(0, ShownAll(incs))] else [])
            && (|rs| > 2 * |incs| ==> s.queue == [])
  {
    var s := Init(start, end);
    InitCounted(start, end);
    AtInit(incs, start, end);
    hide Init, At, Counted, Includes, Run, Conforms, AllOnWire, ShownAll, Left;
    var p, n, more := Rounds(incs, start, end, 0, 0, true, s, rs, room);
    AtEnd(incs, p, n, more, Run(s, rs, room));
  }

  lemma AtInit(incs: seq<Inc>, start: u16, end: u16)
    requires Includes(incs, start, end)
    ensures At(incs, 0, 0, true, Init(start, end)) && Init(start, end).end == end
  {
    BelowIs(Handles(incs), start, 0);
    NoSlice(Waiting(incs), 0);
    assert ShownAll(incs)[..0] == [];
    hide ShownAll, Waiting, Handles, Below;
  }

  lemma AtEnd(incs: seq<Inc>, p: nat, n: nat, more: bool, t: Isd)
    requires AllOnWire(incs) && At(incs, p, n, more, t) && Counted(t)
    ensures t.done == (if t.queue == [] then [Outcome(0, ShownAll(incs))] else [])
    ensures Rest(incs, p, n, more) >= 0
  {
    assert ShownAll(incs)[..|incs|] == ShownAll(incs);
    hide ShownAll, AllOnWire, Handles, Below;
    if t.queue == [] {
      assert !more && p == n;
    }
  }

  // A discovery that goes well until it is cancelled, or the bearer freed, still calls its user once, and
  // with status 0: told are the first p declarations, and it cannot be told from a complete answer.
  lemma CancelledLooksDone(incs: seq<Inc>, start: u16, end: u16, rs: seq<Reply>, room: nat) returns (p: nat)
    requires Includes(incs, start, end) && room >= 16
    requires Legal(rs) && Whole(rs) && Conforms(incs, Init(start, end), rs, room)
    ensures var s := Run(Init(start, end), rs, room);
            && p <= |incs| && LoseAll(s).done == [Outcome(0, ShownAll(incs)[..p])]
            && (p < |incs| ==> s.queue != []) && (rs == [] ==> p == 0)
  {
    var s := Init(start, end);
    InitCounted(start, end);
    AtInit(incs, start, end);
    var n, more;
    p, n, more := Rounds(incs, start, end, 0, 0, true, s, rs, room);
    var t := Run(s, rs, room);
    AllLost(t);
    hide LoseAll, Init, Includes, Conforms, AllOnWire, Handles, Below, Waiting, Counted;
  }

  // A server that encodes its declarations with enc_read_by_type_resp into a buffer that holds one, and
  // its services' UUIDs with enc_read_resp, conforms.
  lemma EncoderConforms(incs: seq<Inc>, s: Isd, at: u16, last: nat, len: nat)
    requires AllOnWire(incs) && Below(Handles(incs), at) < last <= |incs| && AllOnWire(incs[Below(Handles(incs), at)..last])
    requires SameKind(incs[Below(Handles(incs), at)..last]) && len >= 10
    ensures var es := Entries(incs[Below(Handles(incs), at)..last]);
            |Request(s, Find(at))| >= 3 && ListOk(DataList(|es[0]|, es))
            && Answer(incs, Request(s, Find(at)), Reply(0, TypePdu(DataList(|es[0]|, es), len)))
  {
    var n := Below(Handles(incs), at);
    var k := PartTells(incs[n..last], len);
    RequestForm(s, Find(at));
    SliceOfSlice(incs, n, last, k);
    hide Request, Handles, AllOnWire, Tells, TypePdu, SameKind;
  }

  // What the encoder writes tells of a prefix of the part.
  lemma PartTells(part: seq<Inc>, len: nat) returns (k: nat)
    requires AllOnWire(part) && SameKind(part) && part != [] && len >= 10
    ensures var es := Entries(part);
            && 0 < k <= |part| && ListOk(DataList(|es[0]|, es)) && AllOnWire(part[..k])
            && Tells(part[..k], Reply(0, TypePdu(DataList(|es[0]|, es), len)))
  {
    var es := Entries(part);
    assert Wide(es, |es[0]|);
    k := Fit(|es|, |es[0]|, len - 2);
    TypePduUncut(DataList(|es[0]|, es), len);
    hide Flatten, Fit, TypePdu, OnWire, Entry;
    assert Entries(part[..k]) == es[..k];
  }

  lemma ReadEncoderConforms(incs: seq<Inc>, start: u16, end: u16, s: Isd, j: nat, len: nat)
    requires Includes(incs, start, end) && j < |incs| && !incs[j].uuid.U16? && len >= 17
    ensures var req := Request(s, Resolve(Raw(incs[j])));
            |req| >= 3 && Answer(incs, req, Reply(0, ReadPdu(UuidBytes(incs[j].uuid), len)))
  {
    RequestForm(s, Resolve(Raw(incs[j])));
    var bytes := UuidBytes(incs[j].uuid);
    assert bytes[..16] == bytes;
    forall k | 0 <= k < |incs| && incs[k].start == incs[j].start && !incs[k].uuid.U16? ensures incs[k].uuid == incs[j].uuid {
      if j < k { assert incs[j].start == incs[k].start; } else if k < j { assert incs[k].start == incs[j].start; }
    }
    hide Request;
  }

  // ---- The program ---------------------------------------------------------------------------

  // struct included_discovery, with the requests it has sent and the calls of the user it has made.
  class IncludedDiscovery {
    const endHandle: u16
    var startHandle: u16
    var err: byte
    var includes: seq<Included>
    var refs: int
    var queue: seq<Query>
    var done: seq<Outcome>

    function State(): Isd
      reads this
    {
      Isd(startHandle, endHandle, err, includes, refs, queue, done)
    }

    // gatt_find_included
    constructor (start: u16, end: u16)
      ensures State() == Init(start, end)
    {
      endHandle, startHandle, err, includes, refs, queue, done := end, start, 0, [], 0, [], [];
      new;
      FindIncluded(start);
    }

    // find_included
    method FindIncluded(start: u16)
      modifies this
      ensures State() == Issue(old(State()), Find(start))
    {
      refs := refs + 1;
      queue := queue + [Find(start)];
    }

    // resolve_included_uuid
    method ResolveIncludedUuid(incl: Included)
      modifies this
      ensures State() == Issue(old(State()), Resolve(incl))
    {
      refs := refs + 1;
      queue := queue + [Resolve(incl)];
    }

    // isd_unref
    method IsdUnref()
      modifies this
      ensures State() == Unref(old(State()))
    {
      refs := refs - 1;
      if refs > 0 {
        return;
      }
      done := done + [Outcome(err, if err != 0 then [] else includes)];
    }

    // The destroy handler of a request that was dropped unanswered
    method QueryDropped(k: nat)
      requires k < |queue|
      modifies this
      ensures State() == Lose(old(State()), k)
    {
      queue := queue[..k] + queue[k + 1..];
      IsdUnref();
    }

    // The loop of find_included_cb
    method AddEntries(es: seq<seq<byte>>) returns (lastHandle: u16)
      requires EntriesOk(es)
      modifies this
      ensures State() == TakeIncludes(old(State()), es)
      ensures lastHandle == if es == [] then endHandle else GetLe16(es[|es| - 1], 0)
    {
      lastHandle := endHandle;
      hide IncludedOf, GetLe16, EntryOk;
      assert es[0..] == es;
      for i := 0 to |es|
        invariant EntriesOk(es[i..]) && TakeIncludes(State(), es[i..]) == TakeIncludes(old(State()), es)
        invariant lastHandle == if i == 0 then endHandle else IncludedOf(es[i - 1]).handle
      {
        var rest := es[i..];
        assert rest[0] == es[i] && rest[1..] == es[i + 1..] && EntriesOk(rest[1..]);
        var incl := IncludedOf(es[i]);
        lastHandle := incl.handle;
        if |es[i]| == 6 {
          ResolveIncludedUuid(incl);
        } else {
          includes := includes + [incl];
        }
      }
      if es != [] {
        HandleOf(es[|es| - 1]);
      }
    }

    // find_included_cb
    method FindIncludedCb(r: Reply)
      requires r.status == 0 ==> |r.pdu| >= 1
      modifies this
      ensures State() == FindCb(old(State()), r)
    {
      hide TypeList, TakeIncludes, GetLe16;
      if r.status != 0 {
        if err == 0 {
          err := if r.status == ECODE_ATTR_NOT_FOUND then 0 else r.status;
        }
        return;
      }
      var list := DecReadByTypeResp(r.pdu);
      if list.None? || (list.value.len != 6 && list.value.len != 8) {
        if err == 0 {
          err := ECODE_IO;
        }
        return;
      }
      var lastHandle := AddEntries(list.value.data);
      if lastHandle < startHandle {
        err := ECODE_UNLIKELY;
        return;
      }
      startHandle := Succ16(lastHandle);
      if lastHandle < endHandle {
        FindIncluded(startHandle);
      }
    }

    // resolve_included_uuid_cb
    method ResolveIncludedUuidCb(incl: Included, r: Reply, room: nat)
      requires r.status == 0 ==> |r.pdu| >= 1
      modifies this
      ensures State() == ResolveCb(old(State()), incl, r, room)
    {
      hide ReadRspOf, Text;
      var bad := r.status;
      if bad == 0 {
        var out := ReadRspOf(r.pdu, Some(room));
        if out.Value? && |out.bytes| == 16 {
          includes := includes + [incl.(uuid := Text(FromLe(out.bytes)))];
        } else {
          bad := ECODE_IO;
        }
      }
      if err == 0 {
        err := bad;
      }
    }

    // The channel hands over the answer to the oldest request, and frees the request.
    method Answered(r: Reply, room: nat)
      requires queue != [] && (r.status == 0 ==> |r.pdu| >= 1)
      modifies this
      ensures State() == Step(old(State()), r, room)
    {
      var query := queue[0];
      queue := queue[1..];
      match query {
        case Find(_) => FindIncludedCb(r);
        case Resolve(incl) => ResolveIncludedUuidCb(incl, r, room);
      }
      hide FindCb, ResolveCb;
      IsdUnref();
    }
  }

  lemma HandleOf(e: seq<byte>)
    requires EntryOk(e)
    ensures IncludedOf(e).handle == GetLe16(e, 0)
  {
  }
}
