// Discovery of descriptors (desc_discovered_cb of attrib/gatt.c): every attribute of a range, or the
// first one of a UUID, against any server that answers with some of the attributes it was asked for.

module GattDescs {
  import opened Wire
  import opened Opcodes
  import opened Uuids
  import opened AttPdus
  import opened AttCodec
  import opened GattWire

  // struct gatt_desc
  datatype Desc = Desc(handle: u16, uuid16: u16, uuid: string)

  // An attribute as Find Information reports it.
  datatype Attr = Attr(handle: u16, uuid: Uuid)

  // ---- The client ----------------------------------------------------------------------------

  datatype Descs = Descs(start: u16, end: u16, found: seq<Desc>, next: Next)

  function Init(start: u16, end: u16): Descs { Descs(start, end, [], Ask(InfoReq(start, end))) }

  predicate EntryOk(e: seq<byte>) { |e| == 4 || |e| == 18 }

  function AttrOf(e: seq<byte>): (a: Attr)
    requires EntryOk(e)
    ensures OnWire(a.uuid)
  {
    Attr(GetLe16(e, 0), FromLe(e[2..]))
  }

  function AttrsOf(es: seq<seq<byte>>): (attrs: seq<Attr>)
    requires forall k :: 0 <= k < |es| ==> EntryOk(es[k])
    ensures |attrs| == |es| && forall k :: 0 <= k < |es| ==> attrs[k] == AttrOf(es[k])
  {
    seq(|es|, k requires 0 <= k < |es| => AttrOf(es[k]))
  }

  predicate Fine(want: Option<Uuid>, attrs: seq<Attr>) {
    (want.Some? ==> !want.value.Unspec?) && forall k :: 0 <= k < |attrs| ==> OnWire(attrs[k].uuid)
  }

  predicate Hit(want: Option<Uuid>, a: Attr)
    requires OnWire(a.uuid) && (want.Some? ==> !want.value.Unspec?)
  {
    want.Some? && Compare(want.value, a.uuid) == 0
  }

  // Index of the first attribute of the wanted UUID, or |attrs|.
  function First(want: Option<Uuid>, attrs: seq<Attr>): (j: nat)
    requires Fine(want, attrs)
    ensures j <= |attrs| && (forall k :: 0 <= k < j ==> !Hit(want, attrs[k])) && (j < |attrs| ==> Hit(want, attrs[j]))
  {
    if attrs == [] || Hit(want, attrs[0]) then 0 else 1 + First(want, attrs[1..])
  }

  function Shown(a: Attr): Desc
    requires OnWire(a.uuid)
  {
    Desc(a.handle, if a.uuid.U16? then a.uuid.v16 else 0, Text(a.uuid))
  }

  function ShownAll(attrs: seq<Attr>): (ds: seq<Desc>)
    requires forall k :: 0 <= k < |attrs| ==> OnWire(attrs[k].uuid)
    ensures |ds| == |attrs| && forall k :: 0 <= k < |attrs| ==> ds[k] == Shown(attrs[k])
  {
    seq(|attrs|, k requires 0 <= k < |attrs| => Shown(attrs[k]))
  }

  // All of them without a filter, the first match with one.
  function Report(want: Option<Uuid>, attrs: seq<Attr>): seq<Desc>
    requires Fine(want, attrs)
  {
    if want.None? then ShownAll(attrs)
    else
      var j := First(want, attrs);
      if j < |attrs| then [Shown(attrs[j])] else []
  }

  // The source reads entries of formats 1 and 2 inside the response only.
  predicate Readable(r: Reply) {
    r.status == 0 ==> |r.pdu| >= 2 && (r.pdu[0] == FIND_INFO_RSP ==> r.pdu[1] == 1 || r.pdu[1] == 2)
  }

  function Heard(r: Reply): (attrs: Option<seq<Attr>>)
    requires Readable(r)
    ensures attrs.Some? ==> forall k :: 0 <= k < |attrs.value| ==> OnWire(attrs.value[k].uuid)
  {
    if r.status != 0 || InfoList(r.pdu).None? then None else Some(AttrsOf(InfoList(r.pdu).value.data))
  }

  // The handle the loop leaves in `last`: of the match, or else of the last entry.
  function LastRead(want: Option<Uuid>, attrs: seq<Attr>): u16
    requires Fine(want, attrs)
  {
    var j := First(want, attrs);
    if j < |attrs| then attrs[j].handle else if attrs == [] then 0xFFFF else attrs[|attrs| - 1].handle
  }

  function Take(want: Option<Uuid>, s: Descs, attrs: seq<Attr>): Descs
    requires Fine(want, attrs)
  {
    var last := LastRead(want, attrs);
    var found := s.found + Report(want, attrs);
    if last < s.start then s.(found := found, next := Finish(ECODE_UNLIKELY))
    else
      var start := Succ16(last);
      if last < s.end && First(want, attrs) == |attrs| then Descs(start, s.end, found, Ask(InfoReq(start, s.end)))
      else Descs(start, s.end, found, Finish(0))
  }

  // desc_discovered_cb
  function Step(want: Option<Uuid>, s: Descs, r: Reply): Descs
    requires Readable(r) && (want.Some? ==> !want.value.Unspec?)
  {
    if r.status == ECODE_ATTR_NOT_FOUND then s.(next := Finish(if s.found != [] then 0 else r.status))
    else if r.status != 0 then s.(next := Finish(r.status))
    else match Heard(r)
      case None => s.(next := Finish(ECODE_IO))
      case Some(attrs) => Take(want, s, attrs)
  }

  predicate AllReadable(rs: seq<Reply>) { forall k :: 0 <= k < |rs| ==> Readable(rs[k]) }

  function Run(want: Option<Uuid>, s: Descs, rs: seq<Reply>): Descs
    requires AllReadable(rs) && (want.Some? ==> !want.value.Unspec?)
    decreases |rs|
  {
    if rs == [] || s.next.Finish? then s else Run(want, Step(want, s, rs[0]), rs[1..])
  }

  // ---- The server ----------------------------------------------------------------------------

  // The attributes between start and end, ascending.
  predicate Holds(attrs: seq<Attr>, start: u16, end: u16) {
    && (forall k :: 0 <= k < |attrs| ==> start <= attrs[k].handle <= end && OnWire(attrs[k].uuid))
    && (forall j, k :: 0 <= j < k < |attrs| ==> attrs[j].handle < attrs[k].handle)
  }

  function Handles(attrs: seq<Attr>): (keys: seq<int>)
    ensures |keys| == |attrs| && forall k :: 0 <= k < |attrs| ==> keys[k] == attrs[k].handle
  {
    seq(|attrs|, k requires 0 <= k < |attrs| => attrs[k].handle as int)
  }

  function Entry(a: Attr): (e: seq<byte>)
    requires OnWire(a.uuid)
    ensures |e| == if a.uuid.U16? then 4 else 18
  {
    PutLe16(a.handle) + UuidBytes(a.uuid)
  }

  function Entries(attrs: seq<Attr>): (es: seq<seq<byte>>)
    requires forall k :: 0 <= k < |attrs| ==> OnWire(attrs[k].uuid)
    ensures |es| == |attrs| && forall k :: 0 <= k < |attrs| ==> es[k] == Entry(attrs[k])
  {
    seq(|attrs|, k requires 0 <= k < |attrs| => Entry(attrs[k]))
  }

  // Section 4.7.1 of Vol 3, Part G: attributes of one format in one response.
  ghost predicate Tells(part: seq<Attr>, r: Reply)
    requires forall k :: 0 <= k < |part| ==> OnWire(part[k].uuid)
  {
    && r.status == 0 && part != []
    && (forall k :: 0 <= k < |part| ==> part[k].uuid.U16? == part[0].uuid.U16?)
    && r.pdu == [FIND_INFO_RSP, if part[0].uuid.U16? then 1 else 2] + Flatten(Entries(part))
  }

  ghost predicate Answer(attrs: seq<Attr>, start: u16, end: u16, req: seq<byte>, r: Reply)
    requires Holds(attrs, start, end) && |req| >= 3
  {
    var n := Below(Handles(attrs), StartOf(req));
    if n == |attrs| then r.status == ECODE_ATTR_NOT_FOUND
    else exists m :: n < m <= |attrs| && Tells(attrs[n..m], r)
  }

  ghost predicate Conforms(want: Option<Uuid>, attrs: seq<Attr>, start: u16, end: u16, s: Descs, rs: seq<Reply>)
    requires Holds(attrs, start, end) && AllReadable(rs) && (want.Some? ==> !want.value.Unspec?)
    decreases |rs|
  {
    rs != [] && s.next.Ask? ==>
      && |s.next.req| >= 3 && Answer(attrs, start, end, s.next.req, rs[0])
      && Conforms(want, attrs, start, end, Step(want, s, rs[0]), rs[1..])
  }

  // ---- The list is complete and exact --------------------------------------------------------

  lemma EntryBack(a: Attr)
    requires OnWire(a.uuid)
    ensures EntryOk(Entry(a)) && AttrOf(Entry(a)) == a
  {
    var e := Entry(a);
    assert e[0] == a.handle % 0x100 && e[1] == a.handle / 0x100;
    assert e[2..] == UuidBytes(a.uuid);
    LeRoundTrip(a.uuid);
  }

  lemma Decoded(part: seq<Attr>, r: Reply)
    requires (forall k :: 0 <= k < |part| ==> OnWire(part[k].uuid)) && Tells(part, r)
    ensures Readable(r) && Heard(r) == Some(part)
  {
    var es := Entries(part);
    var w := |es[0]|;
    assert Wide(es, w) && w == InfoWidth(r.pdu[1]);
    assert r.pdu[2..] == Flatten(es);
    ChunksFlatten(es, w);
    hide Flatten, Chunks, Entry, OnWire;
    assert InfoList(r.pdu) == Some(DataList(w, es));
    forall k | 0 <= k < |part| ensures EntryOk(es[k]) && AttrOf(es[k]) == part[k] {
      EntryBack(part[k]);
    }
    hide AttrOf, InfoList, EntryOk;
    assert AttrsOf(es) == part;
  }

  lemma {:induction false} FirstConcat(want: Option<Uuid>, a: seq<Attr>, b: seq<Attr>)
    requires Fine(want, a) && Fine(want, b)
    ensures Fine(want, a + b)
    ensures First(want, a + b) == if First(want, a) < |a| then First(want, a) else |a| + First(want, b)
  {
    hide Hit, OnWire;
    FineConcat(want, a, b);
    if a == [] {
      assert a + b == b;
    } else {
      FirstConcat(want, a[1..], b);
      assert (a + b)[1..] == a[1..] + b && (a + b)[0] == a[0];
      hide Fine;
    }
  }

  lemma FineConcat(want: Option<Uuid>, a: seq<Attr>, b: seq<Attr>)
    requires Fine(want, a) && Fine(want, b)
    ensures Fine(want, a + b) && (a != [] ==> Fine(want, a[1..]))
  {
    hide OnWire;
  }

  // A match stays the first whatever follows it.
  lemma FirstCut(want: Option<Uuid>, attrs: seq<Attr>, m: nat)
    requires Fine(want, attrs) && m <= |attrs|
    ensures Fine(want, attrs[..m])
    ensures First(want, attrs[..m]) < m ==> First(want, attrs) == First(want, attrs[..m])
  {
    hide Hit, OnWire, First;
    assert attrs == attrs[..m] + attrs[m..];
    FirstConcat(want, attrs[..m], attrs[m..]);
  }

  // As long as nothing has matched, reports add up.
  lemma ReportConcat(want: Option<Uuid>, a: seq<Attr>, b: seq<Attr>)
    requires Fine(want, a) && Fine(want, b) && First(want, a) == |a|
    ensures Fine(want, a + b) && Report(want, a + b) == Report(want, a) + Report(want, b)
    ensures First(want, a + b) == |a| + First(want, b)
  {
    hide First, Shown, OnWire, ShownAll, Hit;
    FirstConcat(want, a, b);
    if want.None? {
      ShownConcat(a, b);
    } else {
      ReportSome(want, a, b);
    }
    hide Report, Fine;
  }

  lemma ReportSome(want: Option<Uuid>, a: seq<Attr>, b: seq<Attr>)
    requires Fine(want, a) && Fine(want, b) && Fine(want, a + b) && want.Some?
    requires First(want, a) == |a| && First(want, a + b) == |a| + First(want, b)
    ensures Report(want, a + b) == Report(want, b) && Report(want, a) == []
  {
    hide First, Shown, OnWire, Hit;
    if First(want, b) < |b| {
      assert (a + b)[|a| + First(want, b)] == b[First(want, b)];
    }
  }

  lemma ShownConcat(a: seq<Attr>, b: seq<Attr>)
    requires (forall k :: 0 <= k < |a| ==> OnWire(a[k].uuid)) && (forall k :: 0 <= k < |b| ==> OnWire(b[k].uuid))
    ensures ShownAll(a + b) == ShownAll(a) + ShownAll(b)
  {
    hide Shown, OnWire;
  }

  lemma FirstNever(attrs: seq<Attr>)
    requires Fine(None, attrs)
    ensures First(None, attrs) == |attrs|
  {
  }

  // What follows a match is not read.
  lemma ReportCut(want: Option<Uuid>, attrs: seq<Attr>, m: nat)
    requires Fine(want, attrs) && m <= |attrs| && Fine(want, attrs[..m]) && First(want, attrs[..m]) < m
    ensures Report(want, attrs) == Report(want, attrs[..m]) != []
  {
    if want.None? {
      FirstNever(attrs[..m]);
    }
    FirstCut(want, attrs, m);
    hide Shown, OnWire, First, ShownAll;
  }

  // A discovery that found nothing says so, unless it stopped at the last handle of the range.
  function Code(want: Option<Uuid>, attrs: seq<Attr>, end: u16): byte
    requires Fine(want, attrs)
  {
    if Report(want, attrs) == [] && (attrs == [] || attrs[|attrs| - 1].handle < end) then ECODE_ATTR_NOT_FOUND else 0
  }

  ghost predicate Asking(want: Option<Uuid>, attrs: seq<Attr>, n: nat, s: Descs)
    requires Fine(want, attrs)
  {
    && n <= |attrs| && Fine(want, attrs[..n]) && s.found == Report(want, attrs[..n]) && First(want, attrs[..n]) == n
    && s.next == Ask(InfoReq(s.start, s.end)) && Below(Handles(attrs), s.start) == n
    && (n > 0 ==> attrs[n - 1].handle < s.end)
  }

  ghost predicate Done(want: Option<Uuid>, attrs: seq<Attr>, s: Descs)
    requires Fine(want, attrs)
  {
    s.found == Report(want, attrs) && s.next == Finish(Code(want, attrs, s.end))
  }

  lemma Behind(attrs: seq<Attr>, start: u16, end: u16, m: nat)
    requires Holds(attrs, start, end) && 0 < m <= |attrs|
    ensures var last: int := attrs[m - 1].handle;
            && last <= end && Below(Handles(attrs), last + 1) == m && (last == end ==> m == |attrs|)
            && forall k :: 0 <= k < m ==> attrs[k].handle <= last
  {
    var last: int := attrs[m - 1].handle;
    if m < |attrs| {
      assert attrs[m - 1].handle < attrs[m].handle;
    }
    BelowIs(Handles(attrs), last + 1, m);
  }

  lemma StartOfDescs(start: u16, end: u16)
    ensures |InfoReq(start, end)| >= 3 && StartOf(InfoReq(start, end)) == start
  {
    StartOfReq(FIND_INFO_REQ, start, PutLe16(end));
  }

  // A part without a match moves the search on; one with a match ends it.
  lemma TakeMiss(want: Option<Uuid>, s: Descs, part: seq<Attr>)
    requires Fine(want, part) && part != [] && First(want, part) == |part|
    requires s.start <= part[|part| - 1].handle <= s.end
    ensures var last := part[|part| - 1].handle; var t := Take(want, s, part);
            && t.found == s.found + Report(want, part) && t.end == s.end
            && (last < s.end ==> t.start == last + 1 && t.next == Ask(InfoReq(last + 1, s.end)))
            && (last == s.end ==> t.next == Finish(0))
  {
    hide Report, First, InfoReq;
  }

  lemma TakeHit(want: Option<Uuid>, s: Descs, part: seq<Attr>)
    requires Fine(want, part) && First(want, part) < |part| && s.start <= part[First(want, part)].handle
    ensures var t := Take(want, s, part);
            t.found == s.found + Report(want, part) && t.end == s.end && t.next == Finish(0)
  {
    hide Report, First, InfoReq;
  }

  lemma Parts(want: Option<Uuid>, attrs: seq<Attr>, n: nat, m: nat)
    requires Fine(want, attrs) && n < m <= |attrs| && Fine(want, attrs[..n]) && First(want, attrs[..n]) == n
    ensures Fine(want, attrs[n..m]) && Fine(want, attrs[..m])
    ensures Report(want, attrs[..n]) + Report(want, attrs[n..m]) == Report(want, attrs[..m])
    ensures First(want, attrs[..m]) == n + First(want, attrs[n..m])
  {
    hide Report, First, OnWire;
    Prefixes(attrs, n, m);
    ReportConcat(want, attrs[..n], attrs[n..m]);
  }

  lemma AdvanceHit(want: Option<Uuid>, attrs: seq<Attr>, start: u16, end: u16, n: nat, m: nat, s: Descs, part: seq<Attr>)
    requires Holds(attrs, start, end) && Fine(want, attrs) && Asking(want, attrs, n, s) && s.end == end
    requires n < m <= |attrs| && part == attrs[n..m] && Fine(want, part) && First(want, part) < |part|
    ensures var t := Take(want, s, part); Done(want, attrs, t) && t.end == end
  {
    hide OnWire, InfoReq, Report, First, Take, Holds, Handles, Below, Asking, Done, Fine;
    var j := First(want, part);
    Reaches(want, attrs, start, end, n, n + j + 1, s);
    assert part[j] == attrs[n + j];
    PartsHit(want, attrs, n, m, s, part);
    TakeHit(want, s, part);
    HitEnds(want, attrs, Take(want, s, part));
  }

  // What has been found so far and in the part, up to its match, is all there is to report.
  lemma PartsHit(want: Option<Uuid>, attrs: seq<Attr>, n: nat, m: nat, s: Descs, part: seq<Attr>)
    requires Fine(want, attrs) && Asking(want, attrs, n, s) && n < m <= |attrs| && part == attrs[n..m]
    requires Fine(want, part) && First(want, part) < |part|
    ensures s.found + Report(want, part) == Report(want, attrs) && First(want, attrs) < |attrs|
  {
    hide OnWire, InfoReq, Report, First, Handles, Below;
    Parts(want, attrs, n, m);
    ReportCut(want, attrs, m);
    hide Fine;
  }

  lemma HitEnds(want: Option<Uuid>, attrs: seq<Attr>, t: Descs)
    requires Fine(want, attrs) && First(want, attrs) < |attrs| && t.found == Report(want, attrs) && t.next == Finish(0)
    ensures Done(want, attrs, t)
  {
    hide Shown, OnWire;
  }

  lemma Reaches(want: Option<Uuid>, attrs: seq<Attr>, start: u16, end: u16, n: nat, m: nat, s: Descs)
    requires Holds(attrs, start, end) && Fine(want, attrs) && Asking(want, attrs, n, s) && n < m <= |attrs|
    ensures s.start <= attrs[m - 1].handle
  {
    hide OnWire, InfoReq, Report, First, Fine;
    assert s.start <= Handles(attrs)[n] && Handles(attrs)[n] == attrs[n].handle && attrs[n].handle <= attrs[m - 1].handle;
  }

  // What has been found so far and in the part is what is found up to its end.
  lemma PartsFound(want: Option<Uuid>, attrs: seq<Attr>, n: nat, m: nat, s: Descs, part: seq<Attr>)
    requires Fine(want, attrs) && Asking(want, attrs, n, s) && n < m <= |attrs| && part == attrs[n..m]
    requires Fine(want, part) && First(want, part) == |part|
    ensures Fine(want, attrs[..m]) && s.found + Report(want, part) == Report(want, attrs[..m]) && First(want, attrs[..m]) == m
  {
    hide OnWire, InfoReq, Report, First, Handles, Below;
    Parts(want, attrs, n, m);
    hide Fine;
  }

  // The search stands before attribute n, and a response carries those up to m, without a match.
  ghost predicate Missing(want: Option<Uuid>, attrs: seq<Attr>, start: u16, end: u16, n: nat, m: nat, s: Descs, part: seq<Attr>) {
    && Holds(attrs, start, end) && Fine(want, attrs) && Asking(want, attrs, n, s) && s.end == end && n < m <= |attrs|
    && part == attrs[n..m] && Fine(want, part) && First(want, part) == |part|
  }

  lemma AdvanceMiss(want: Option<Uuid>, attrs: seq<Attr>, start: u16, end: u16, n: nat, m: nat, s: Descs, part: seq<Attr>, t: Descs)
    requires Fine(want, attrs) && Fine(want, part) && Missing(want, attrs, start, end, n, m, s, part) && t == Take(want, s, part)
    ensures t.end == end && (Done(want, attrs, t) || Asking(want, attrs, m, t))
  {
    hide Missing, Fine, Done, Asking, Take, First, Report, Below, Handles;
    MissTakes(want, attrs, start, end, n, m, s, part);
    MissLeaves(want, attrs, end, m, t);
  }

  // It goes on behind its last handle, or stops at the end of the range.
  lemma MissLeaves(want: Option<Uuid>, attrs: seq<Attr>, end: u16, m: nat, t: Descs)
    requires Fine(want, attrs) && 0 < m <= |attrs| && t.end == end && attrs[m - 1].handle <= end
    requires Fine(want, attrs[..m]) && t.found == Report(want, attrs[..m]) && First(want, attrs[..m]) == m
    requires attrs[m - 1].handle < end ==> t.next == Ask(InfoReq(t.start, end)) && Below(Handles(attrs), t.start) == m
    requires attrs[m - 1].handle == end ==> t.next == Finish(0) && m == |attrs|
    ensures if attrs[m - 1].handle < end then Asking(want, attrs, m, t) else Done(want, attrs, t)
  {
    hide OnWire, InfoReq, Report, First, Handles, Below, Asking, Done, Fine;
    if attrs[m - 1].handle < end { MissAsks(want, attrs, m, t); } else { MissEnds(want, attrs, t); }
  }

  // A part without a match, up to its last handle.
  lemma MissTakes(want: Option<Uuid>, attrs: seq<Attr>, start: u16, end: u16, n: nat, m: nat, s: Descs, part: seq<Attr>)
    requires Missing(want, attrs, start, end, n, m, s, part)
    ensures 0 < m <= |attrs| && Fine(want, part) && Fine(want, attrs)
    ensures var last := attrs[m - 1].handle; var t := Take(want, s, part);
            && last <= end && t.end == end
            && Fine(want, attrs[..m]) && t.found == Report(want, attrs[..m]) && First(want, attrs[..m]) == m
            && (last < end ==> t.start == last + 1 && t.next == Ask(InfoReq(last + 1, end)) && Below(Handles(attrs), t.start) == m)
            && (last == end ==> t.next == Finish(0) && m == |attrs|)
  {
    hide OnWire, InfoReq, Report, First, Take, Holds, Handles, Below, Asking, Fine;
    Behind(attrs, start, end, m);
    Reaches(want, attrs, start, end, n, m, s);
    LastOfSlice(attrs, n, m);
    TakeMiss(want, s, part);
    PartsFound(want, attrs, n, m, s, part);
  }

  lemma MissAsks(want: Option<Uuid>, attrs: seq<Attr>, m: nat, t: Descs)
    requires Fine(want, attrs) && 0 < m <= |attrs| && Fine(want, attrs[..m]) && t.found == Report(want, attrs[..m]) && First(want, attrs[..m]) == m
    requires t.next == Ask(InfoReq(t.start, t.end)) && Below(Handles(attrs), t.start) == m && attrs[m - 1].handle < t.end
    ensures Asking(want, attrs, m, t)
  {
  }

  lemma MissEnds(want: Option<Uuid>, attrs: seq<Attr>, t: Descs)
    requires Fine(want, attrs) && attrs != [] && Fine(want, attrs[..|attrs|]) && t.found == Report(want, attrs[..|attrs|])
    requires t.next == Finish(0) && attrs[|attrs| - 1].handle == t.end
    ensures Done(want, attrs, t)
  {
    hide Report;
    assert attrs[..|attrs|] == attrs;
  }

  lemma Advances(want: Option<Uuid>, attrs: seq<Attr>, start: u16, end: u16, n: nat, m: nat, s: Descs)
    requires Holds(attrs, start, end) && Fine(want, attrs) && Asking(want, attrs, n, s) && s.end == end && n < m <= |attrs|
    ensures Fine(want, attrs[n..m])
    ensures var t := Take(want, s, attrs[n..m]); t.end == end && (Done(want, attrs, t) || Asking(want, attrs, m, t))
  {
    Parts(want, attrs, n, m);
    hide OnWire, Report, First, Take, Done, Holds, Asking, Handles, Below, InfoReq, Fine;
    if First(want, attrs[n..m]) < m - n {
      AdvanceHit(want, attrs, start, end, n, m, s, attrs[n..m]);
    } else {
      AdvanceMiss(want, attrs, start, end, n, m, s, attrs[n..m], Take(want, s, attrs[n..m]));
    }
  }

  lemma Round(want: Option<Uuid>, attrs: seq<Attr>, start: u16, end: u16, n: nat, s: Descs, r: Reply) returns (m: nat)
    requires Holds(attrs, start, end) && Fine(want, attrs) && Asking(want, attrs, n, s) && s.end == end
    requires Readable(r) && Answer(attrs, start, end, s.next.req, r)
    ensures var t := Step(want, s, r); t.end == end && (Done(want, attrs, t) || (m > n && Asking(want, attrs, m, t)))
  {
    StartOfDescs(s.start, end);
    hide Holds, InfoReq, Report, Heard, First, OnWire;
    m := n;
    if n < |attrs| {
      m :| n < m <= |attrs| && Tells(attrs[n..m], r);
      assert Fine(want, attrs[n..m]);
      Decoded(attrs[n..m], r);
      Advances(want, attrs, start, end, n, m, s);
      hide Take, Tells, Asking, Done;
    } else {
      assert attrs[..n] == attrs;
    }
  }

  lemma {:induction false} Rounds(want: Option<Uuid>, attrs: seq<Attr>, start: u16, end: u16, n: nat, s: Descs, rs: seq<Reply>)
    returns (m: nat)
    requires Holds(attrs, start, end) && Fine(want, attrs) && Asking(want, attrs, n, s) && s.end == end
    requires AllReadable(rs) && Conforms(want, attrs, start, end, s, rs)
    ensures var t := Run(want, s, rs);
            t.end == end && (Done(want, attrs, t) || (m >= n + |rs| && Asking(want, attrs, m, t)))
    decreases |rs|
  {
    hide Step, Answer, Holds, Readable, OnWire, Report, First, InfoReq;
    m := n;
    if rs != [] {
      m := Round(want, attrs, start, end, n, s, rs[0]);
      var t := Step(want, s, rs[0]);
      if Asking(want, attrs, m, t) {
        m := Rounds(want, attrs, start, end, m, t, rs[1..]);
      }
    }
  }

  // A discovery that ends reports every attribute of the range in order, or just the first of the
  // wanted UUID, with the stated code; it ends within one round more than there are attributes.
  lemma Complete(want: Option<Uuid>, attrs: seq<Attr>, start: u16, end: u16, rs: seq<Reply>)
    requires Holds(attrs, start, end) && Fine(want, attrs)
    requires AllReadable(rs) && Conforms(want, attrs, start, end, Init(start, end), rs)
    ensures var s := Run(want, Init(start, end), rs);
            && (s.next.Finish? ==> s.found == Report(want, attrs) && s.next == Finish(Code(want, attrs, end)))
            && (|rs| > |attrs| ==> s.next.Finish?)
  {
    BelowIs(Handles(attrs), start, 0);
    assert attrs[..0] == [];
    var m := Rounds(want, attrs, start, end, 0, Init(start, end), rs);
  }

  // A server that encodes its attributes with enc_find_info_resp, in the format of their width, into a
  // buffer that holds one conforms.
  lemma EncoderConforms(attrs: seq<Attr>, start: u16, end: u16, from: u16, last: nat, len: nat)
    requires Holds(attrs, start, end) && Below(Handles(attrs), from) < last <= |attrs|
    requires var part := attrs[Below(Handles(attrs), from)..last];
             (forall k :: 0 <= k < |part| ==> part[k].uuid.U16? == part[0].uuid.U16?) && len >= if part[0].uuid.U16? then 6 else 20
    ensures var part := attrs[Below(Handles(attrs), from)..last]; var es := Entries(part);
            |InfoReq(from, end)| >= 3 && ListOk(DataList(|es[0]|, es))
            && Answer(attrs, start, end, InfoReq(from, end),
                      Reply(0, InfoPdu(if part[0].uuid.U16? then 1 else 2, DataList(|es[0]|, es), len)))
  {
    var n := Below(Handles(attrs), from);
    var part := attrs[n..last];
    var es := Entries(part);
    assert Wide(es, |es[0]|);
    var k := PartTells(part, len);
    StartOfDescs(from, end);
    SliceOfSlice(attrs, n, last, k);
    hide Holds, InfoReq, Handles, Fit, OnWire, Entry, Tells, InfoPdu;
    assert Tells(attrs[n..n + k], Reply(0, InfoPdu(if part[0].uuid.U16? then 1 else 2, DataList(|es[0]|, es), len)));
  }

  // The encoder's list of a part tells a prefix of it.
  lemma PartTells(part: seq<Attr>, len: nat) returns (k: nat)
    requires part != [] && (forall k :: 0 <= k < |part| ==> OnWire(part[k].uuid) && part[k].uuid.U16? == part[0].uuid.U16?)
    requires len >= if part[0].uuid.U16? then 6 else 20
    ensures 0 < k <= |part| && var es := Entries(part);
            ListOk(DataList(|es[0]|, es)) && Tells(part[..k], Reply(0, InfoPdu(if part[0].uuid.U16? then 1 else 2, DataList(|es[0]|, es), len)))
  {
    var es := Entries(part);
    assert Wide(es, |es[0]|);
    k := Fit(|es|, |es[0]|, len - 2);
    FittingBytes(es, |es[0]|, len - 2);
    hide Flatten, Fit, OnWire, Entry;
    assert Entries(part[..k]) == es[..k];
  }

  // ---- Any server ----------------------------------------------------------------------------

  // Whatever the server says, a request that is sent starts above the one before it, inside the range.
  lemma Rises(want: Option<Uuid>, s: Descs, r: Reply)
    requires Readable(r) && (want.Some? ==> !want.value.Unspec?) && Step(want, s, r).next.Ask?
    ensures s.start < Step(want, s, r).start <= s.end == Step(want, s, r).end
  {
    hide Heard, Report, First, LastRead, InfoReq;
  }

  lemma {:induction false} Ends(want: Option<Uuid>, s: Descs, rs: seq<Reply>)
    requires AllReadable(rs) && (want.Some? ==> !want.value.Unspec?)
    requires |rs| >= 1 && |rs| > s.end as int - s.start
    ensures Run(want, s, rs).next.Finish?
    decreases |rs|
  {
    hide Step, Readable;
    if s.next.Ask? {
      var s1 := Step(want, s, rs[0]);
      if s1.next.Ask? {
        Rises(want, s, rs[0]);
        Ends(want, s1, rs[1..]);
      }
    }
  }

  // ---- The program ---------------------------------------------------------------------------

  // struct discover_desc
  class DiscoverDesc {
    const uuid: Option<Uuid>
    const end: u16
    var start: u16
    var descriptors: seq<Desc>
    var next: Next

    function State(): Descs
      reads this
    {
      Descs(start, end, descriptors, next)
    }

    // gatt_discover_desc
    constructor (start: u16, end: u16, uuid: Option<Uuid>)
      ensures State() == Init(start, end) && this.uuid == uuid
    {
      this.uuid, this.end, this.start, descriptors := uuid, end, start, [];
      next := Ask(InfoReq(start, end));
    }

    // desc_discovered_cb
    method DescDiscoveredCb(r: Reply)
      requires Readable(r) && (uuid.Some? ==> !uuid.value.Unspec?)
      modifies this
      ensures State() == Step(uuid, old(State()), r)
    {
      hide InfoList, Report, First, LastRead, InfoReq, AttrsOf;
      if r.status == ECODE_ATTR_NOT_FOUND {
        next := Finish(if descriptors != [] then 0 else r.status);
        return;
      }
      if r.status != 0 {
        next := Finish(r.status);
        return;
      }
      var list, format := DecFindInfoResp(r.pdu);
      if list.None? {
        next := Finish(ECODE_IO);
        return;
      }
      InfoEntries(r);
      var last, uuidFound := AddDescs(list.value.data);
      if last < start {
        next := Finish(ECODE_UNLIKELY);
        return;
      }
      start := Succ16(last);
      next := if last < end && !uuidFound then Ask(InfoReq(start, end)) else Finish(0);
    }

    // One round of the loop
    method AddDesc(e: seq<byte>) returns (last: u16, uuidFound: bool)
      requires EntryOk(e) && (uuid.Some? ==> !uuid.value.Unspec?)
      modifies this`descriptors
      ensures var a := AttrOf(e);
              && last == a.handle && uuidFound == Hit(uuid, a)
              && descriptors == if uuid.None? || uuidFound then old(descriptors) + [Shown(a)] else old(descriptors)
    {
      hide Shown, Compare;
      var a := AttrOf(e);
      last := a.handle;
      uuidFound := uuid.Some? && Compare(uuid.value, a.uuid) == 0;
      if uuid.None? || uuidFound {
        descriptors := descriptors + [Shown(a)];
      }
    }

    // The loop of desc_discovered_cb, which stops at the first match.
    method AddDescs(es: seq<seq<byte>>) returns (last: u16, uuidFound: bool)
      requires (forall k :: 0 <= k < |es| ==> EntryOk(es[k])) && (uuid.Some? ==> !uuid.value.Unspec?)
      modifies this`descriptors
      ensures var attrs := AttrsOf(es);
              && descriptors == old(descriptors) + Report(uuid, attrs)
              && last == LastRead(uuid, attrs) && uuidFound == (First(uuid, attrs) < |attrs|)
    {
      last, uuidFound := 0xFFFF, false;
      ghost var was := descriptors;
      ReadNone(uuid, was);
      assert Fine(uuid, AttrsOf(es));
      hide Read, Report, AttrOf, EntryOk, First, LastRead, Hit, Shown, AttrsOf, Fine;
      var i := 0;
      while i < |es|
        invariant i <= |es| && Read(uuid, es[..i], was, descriptors, last, uuidFound)
        invariant !uuidFound
      {
        ReadNext(uuid, es, i, was, descriptors, last);
        last, uuidFound := AddDesc(es[i]);
        i := i + 1;
        if uuidFound {
          break;
        }
      }
      ReadIs(uuid, es, AttrsOf(es), i, was, descriptors, last, uuidFound);
    }
  }

  lemma InfoEntries(r: Reply)
    requires Readable(r) && r.status == 0 && InfoList(r.pdu).Some?
    ensures forall k :: 0 <= k < |InfoList(r.pdu).value.data| ==> EntryOk(InfoList(r.pdu).value.data[k])
  {
  }

  // What the loop has done with the entries read so far.
  ghost predicate Read(want: Option<Uuid>, es: seq<seq<byte>>, was: seq<Desc>, now: seq<Desc>, last: u16, hit: bool) {
    && EntriesOk(es) && (want.Some? ==> !want.value.Unspec?)
    && var attrs := AttrsOf(es);
       && now == was + Report(want, attrs) && last == LastRead(want, attrs)
       && First(want, attrs) == if hit then |es| - 1 else |es|
  }

  lemma ReadNone(want: Option<Uuid>, was: seq<Desc>)
    requires want.Some? ==> !want.value.Unspec?
    ensures Read(want, [], was, was, 0xFFFF, false)
  {
  }

  lemma ReadNext(want: Option<Uuid>, es: seq<seq<byte>>, i: nat, was: seq<Desc>, now: seq<Desc>, last: u16)
    requires i < |es| && Read(want, es[..i], was, now, last, false) && (want.Some? ==> !want.value.Unspec?) && EntryOk(es[i])
    ensures var a := AttrOf(es[i]); var hit := Hit(want, a);
            Read(want, es[..i + 1], was, if want.None? || hit then now + [Shown(a)] else now, a.handle, hit)
  {
    hide AttrOf, EntryOk, OnWire;
    var part, a := es[..i], AttrOf(es[i]);
    var attrs := AttrsOf(part);
    EntriesNext(es, i);
    hide AttrsOf;
    ReportNext(want, attrs, a, was);
    hide Report, First, LastRead, Shown;
  }

  predicate EntriesOk(es: seq<seq<byte>>) { forall k :: 0 <= k < |es| ==> EntryOk(es[k]) }

  lemma EntriesNext(es: seq<seq<byte>>, i: nat)
    requires i < |es| && EntriesOk(es[..i]) && EntryOk(es[i])
    ensures EntriesOk(es[..i + 1]) && AttrsOf(es[..i + 1]) == AttrsOf(es[..i]) + [AttrOf(es[i])]
  {
    hide AttrOf, EntryOk;
    var part := es[..i];
    assert es[..i + 1] == part + [es[i]];
    forall k | 0 <= k < |part + [es[i]]| ensures EntryOk((part + [es[i]])[k]) {
      assert k < i ==> EntryOk(part[k]);
    }
  }

  // One attribute more, when nothing has matched so far.
  lemma ReportNext(want: Option<Uuid>, attrs: seq<Attr>, a: Attr, was: seq<Desc>)
    requires Fine(want, attrs) && OnWire(a.uuid) && First(want, attrs) == |attrs|
    ensures var all := attrs + [a];
            && Fine(want, all)
            && was + Report(want, all)
               == was + Report(want, attrs) + (if want.None? || Hit(want, a) then [Shown(a)] else [])
            && LastRead(want, all) == a.handle && First(want, all) == if Hit(want, a) then |attrs| else |attrs| + 1
  {
    hide Shown, OnWire;
    ReportConcat(want, attrs, [a]);
    ReportOne(want, a);
    hide Report, First;
    assert was + (Report(want, attrs) + Report(want, [a])) == was + Report(want, attrs) + Report(want, [a]);
  }

  lemma ReportOne(want: Option<Uuid>, a: Attr)
    requires OnWire(a.uuid) && (want.Some? ==> !want.value.Unspec?)
    ensures Report(want, [a]) == if want.None? || Hit(want, a) then [Shown(a)] else []
    ensures First(want, [a]) == if Hit(want, a) then 0 else 1
  {
    hide Shown;
  }

  // Where the loop stopped is as good as the end.
  lemma ReadIs(want: Option<Uuid>, es: seq<seq<byte>>, attrs: seq<Attr>, i: nat, was: seq<Desc>, now: seq<Desc>, last: u16, hit: bool)
    requires i <= |es| && Read(want, es[..i], was, now, last, hit) && (i == |es| || (hit && i > 0))
    requires (forall k :: 0 <= k < |es| ==> EntryOk(es[k])) && attrs == AttrsOf(es) && Fine(want, attrs)
    ensures now == was + Report(want, attrs) && last == LastRead(want, attrs) && hit == (First(want, attrs) < |attrs|)
  {
    EntriesCut(es, i);
    hide AttrsOf, AttrOf, EntryOk, Shown, OnWire;
    assert es[..|es|] == es;
    if i < |es| {
      CutShort(want, attrs, i);
      hide Report, First, LastRead;
    }
  }

  lemma EntriesCut(es: seq<seq<byte>>, i: nat)
    requires i <= |es| && forall k :: 0 <= k < |es| ==> EntryOk(es[k])
    ensures AttrsOf(es[..i]) == AttrsOf(es)[..i]
  {
    hide AttrOf, EntryOk;
  }

  lemma CutShort(want: Option<Uuid>, attrs: seq<Attr>, i: nat)
    requires 0 < i <= |attrs| && Fine(want, attrs) && Fine(want, attrs[..i]) && First(want, attrs[..i]) == i - 1
    ensures Report(want, attrs[..i]) == Report(want, attrs) && LastRead(want, attrs[..i]) == LastRead(want, attrs)
    ensures First(want, attrs) == i - 1
  {
    hide Shown, OnWire;
    ReportCut(want, attrs, i);
    FirstCut(want, attrs, i);
    hide Report, First;
  }
}
