// Discovery of primary services (primary_all_cb and primary_by_uuid_cb of attrib/gatt.c), against
// any server that answers with some of the services it was asked for.

module GattPrimary {
  import opened Wire
  import opened Opcodes
  import opened Uuids
  import opened AttPdus
  import opened AttCodec
  import opened GattWire

  // struct gatt_primary
  datatype Primary = Primary(start: u16, end: u16, uuid: string)

  // ---- The client ----------------------------------------------------------------------------

  datatype All = All(start: u16, found: seq<Primary>, next: Next)

  function ReqAll(start: u16): seq<byte> { RangeReq(READ_BY_GRP_REQ, start, 0xFFFF, PRIM_SVC_UUID) }

  const AllInit: All := All(1, [], Ask(ReqAll(1)))

  function PrimaryOf(e: seq<byte>): Primary
    requires |e| == 6 || |e| == 20
  {
    Primary(GetLe16(e, 0), GetLe16(e, 2), Text(FromLe(e[4..])))
  }

  function PrimariesOf(es: seq<seq<byte>>): (ps: seq<Primary>)
    requires forall k :: 0 <= k < |es| ==> |es[k]| == 6 || |es[k]| == 20
    ensures |ps| == |es| && forall k :: 0 <= k < |es| ==> ps[k] == PrimaryOf(es[k])
  {
    seq(|es|, k requires 0 <= k < |es| => PrimaryOf(es[k]))
  }

  lemma PrimariesNext(es: seq<seq<byte>>, i: nat)
    requires i < |es| && forall k :: 0 <= k < |es| ==> |es[k]| == 6 || |es[k]| == 20
    ensures PrimariesOf(es[..i + 1]) == PrimariesOf(es[..i]) + [PrimaryOf(es[i])]
  {
    hide PrimaryOf;
    assert es[..i + 1] == es[..i] + [es[i]];
  }

  function LastEnd(ps: seq<Primary>): u16 { if ps == [] then 0 else ps[|ps| - 1].end }

  // primary_all_cb
  function AllStep(s: All, r: Reply): All
    requires r.status == 0 ==> |r.pdu| >= 1
  {
    if r.status == ECODE_ATTR_NOT_FOUND then s.(next := Finish(0))
    else if r.status != 0 then s.(next := Finish(r.status))
    else match GrpList(r.pdu)
      case None => s.(next := Finish(ECODE_IO))
      case Some(list) =>
        if list.len != 6 && list.len != 20 then s.(next := Finish(ECODE_INVALID_PDU))
        else
          var ps := PrimariesOf(list.data);
          var end := LastEnd(ps);
          var found := s.found + ps;
          if end < s.start then All(s.start, found, Finish(ECODE_UNLIKELY))
          else if end != 0xFFFF then All(Succ16(end), found, Ask(ReqAll(Succ16(end))))
          else All(Succ16(end), found, Finish(0))
  }

  predicate Whole(rs: seq<Reply>) { forall k :: 0 <= k < |rs| ==> rs[k].status == 0 ==> |rs[k].pdu| >= 1 }

  // The responses in turn; once the user has been called, nothing more is read.
  function AllRun(s: All, rs: seq<Reply>): All
    requires Whole(rs)
    decreases |rs|
  {
    if rs == [] || s.next.Finish? then s else AllRun(AllStep(s, rs[0]), rs[1..])
  }

  // ---- The server ----------------------------------------------------------------------------

  datatype Service = Service(start: u16, end: u16, uuid: Uuid)

  function Starts(svcs: seq<Service>): (keys: seq<int>)
    ensures |keys| == |svcs| && forall k :: 0 <= k < |svcs| ==> keys[k] == svcs[k].start
  {
    seq(|svcs|, k requires 0 <= k < |svcs| => svcs[k].start as int)
  }

  // Services occupy disjoint handle ranges, in ascending order.
  predicate Services(svcs: seq<Service>) {
    && (forall k :: 0 <= k < |svcs| ==> 1 <= svcs[k].start <= svcs[k].end && OnWire(svcs[k].uuid))
    && (forall j, k :: 0 <= j < k < |svcs| ==> svcs[j].end < svcs[k].start)
  }

  function Entry(s: Service): (e: seq<byte>)
    requires OnWire(s.uuid)
    ensures |e| == if s.uuid.U16? then 6 else 20
  {
    PutLe16(s.start) + PutLe16(s.end) + UuidBytes(s.uuid)
  }

  function Entries(svcs: seq<Service>): (es: seq<seq<byte>>)
    requires forall k :: 0 <= k < |svcs| ==> OnWire(svcs[k].uuid)
    ensures |es| == |svcs| && forall k :: 0 <= k < |svcs| ==> es[k] == Entry(svcs[k])
  {
    seq(|svcs|, k requires 0 <= k < |svcs| => Entry(svcs[k]))
  }

  // Section 4.4.1 of Vol 3, Part G: services n up to m, all of one width, in one response.
  ghost predicate AllHolds(svcs: seq<Service>, n: nat, m: nat, r: Reply)
    requires Services(svcs)
  {
    && n < m <= |svcs| && r.status == 0
    && var es := Entries(svcs[n..m]);
       Wide(es, |es[0]|) && r.pdu == [READ_BY_GRP_RSP, |es[0]|] + Flatten(es)
  }

  // A conforming answer: some of the services at or above the requested start, or Attribute Not
  // Found when there are none.
  ghost predicate AllAnswer(svcs: seq<Service>, req: seq<byte>, r: Reply)
    requires Services(svcs) && |req| >= 3
  {
    var n := Below(Starts(svcs), StartOf(req));
    if n == |svcs| then r.status == ECODE_ATTR_NOT_FOUND else exists m :: AllHolds(svcs, n, m, r)
  }

  ghost predicate AllConforms(svcs: seq<Service>, s: All, rs: seq<Reply>)
    requires Services(svcs) && Whole(rs)
    decreases |rs|
  {
    rs != [] && s.next.Ask? ==>
      |s.next.req| >= 3 && AllAnswer(svcs, s.next.req, rs[0]) && AllConforms(svcs, AllStep(s, rs[0]), rs[1..])
  }

  // ---- The list is complete and exact --------------------------------------------------------

  function Reported(svcs: seq<Service>): (ps: seq<Primary>)
    requires Services(svcs)
    ensures |ps| == |svcs|
    ensures forall k :: 0 <= k < |svcs| ==> ps[k] == Primary(svcs[k].start, svcs[k].end, Text(svcs[k].uuid))
  {
    seq(|svcs|, k requires 0 <= k < |svcs| => Primary(svcs[k].start, svcs[k].end, Text(svcs[k].uuid)))
  }

  // What has been found is the first n services, and the next request starts behind them.
  ghost predicate AllAt(svcs: seq<Service>, n: nat, s: All)
    requires Services(svcs)
  {
    && n <= |svcs| && s.found == Reported(svcs)[..n]
    && match s.next
       case Ask(req) => req == ReqAll(s.start) && Below(Starts(svcs), s.start) == n
       case Finish(err) => err == 0 && n == |svcs|
  }

  lemma EntryBack(s: Service)
    requires OnWire(s.uuid)
    ensures PrimaryOf(Entry(s)) == Primary(s.start, s.end, Text(s.uuid))
  {
    var e := Entry(s);
    assert e[0] == s.start % 0x100 && e[1] == s.start / 0x100 && e[2] == s.end % 0x100 && e[3] == s.end / 0x100;
    assert e[4..] == UuidBytes(s.uuid);
    LeRoundTrip(s.uuid);
  }

  lemma AllDecoded(svcs: seq<Service>, n: nat, m: nat, r: Reply)
    requires Services(svcs) && AllHolds(svcs, n, m, r)
    ensures var list := GrpList(r.pdu);
            && list.Some? && (list.value.len == 6 || list.value.len == 20)
            && PrimariesOf(list.value.data) == Reported(svcs)[n..m]
  {
    var part := svcs[n..m];
    var es := Entries(part);
    ListOfPdu(READ_BY_GRP_RSP, es, |es[0]|, 7, 5);
    hide ListOf, Flatten, Entry, Text;
    forall k | 0 <= k < m - n ensures PrimaryOf(es[k]) == Reported(svcs)[n..m][k] {
      assert part[k] == svcs[n + k];
      EntryBack(svcs[n + k]);
      hide PrimaryOf;
    }
  }

  // The state after a response whose last service ends at `end`.
  function AllAfter(s: All, ps: seq<Primary>, end: u16): All {
    All(Succ16(end), s.found + ps, if end == 0xFFFF then Finish(0) else Ask(ReqAll(Succ16(end))))
  }

  lemma AllTakes(s: All, r: Reply, ps: seq<Primary>, end: u16)
    requires r.status == 0 && |r.pdu| >= 1 && GrpList(r.pdu).Some?
    requires var list := GrpList(r.pdu).value; (list.len == 6 || list.len == 20) && PrimariesOf(list.data) == ps
    requires LastEnd(ps) == end >= s.start
    ensures AllStep(s, r) == AllAfter(s, ps, end)
  {
    hide GrpList, PrimariesOf, LastEnd, ReqAll;
  }

  // A request behind service m-1 asks for service m and the rest.
  lemma Behind(svcs: seq<Service>, m: nat)
    requires Services(svcs) && 0 < m <= |svcs|
    ensures var end: int := svcs[m - 1].end;
            && Below(Starts(svcs), end + 1) == m && (end == 0xFFFF ==> m == |svcs|)
            && forall k :: 0 <= k < m ==> svcs[k].start <= end
  {
    var end: int := svcs[m - 1].end;
    forall k | 0 <= k < m ensures svcs[k].start <= end {
      if k < m - 1 {
        assert svcs[k].end < svcs[m - 1].start;
      }
    }
    if m < |svcs| {
      assert svcs[m - 1].end < svcs[m].start;
    }
    hide Services;
    BelowIs(Starts(svcs), end + 1, m);
  }

  lemma AllAdvances(svcs: seq<Service>, n: nat, m: nat, s: All)
    requires Services(svcs) && AllAt(svcs, n, s) && s.next.Ask? && n < m <= |svcs|
    ensures s.start <= svcs[m - 1].end && AllAt(svcs, m, AllAfter(s, Reported(svcs)[n..m], svcs[m - 1].end))
  {
    hide Services, ReqAll, Reported, Text;
    Behind(svcs, m);
    StartsAt(svcs, n, m, s.start);
    hide Starts, Below;
    Prefixes(Reported(svcs), n, m);
  }

  lemma StartsAt(svcs: seq<Service>, n: nat, m: nat, start: u16)
    requires Services(svcs) && Below(Starts(svcs), start) == n < m <= |svcs|
    ensures start <= svcs[m - 1].end
  {
    assert start <= Starts(svcs)[n];
  }

  lemma LastReported(svcs: seq<Service>, n: nat, m: nat)
    requires Services(svcs) && n < m <= |svcs|
    ensures LastEnd(Reported(svcs)[n..m]) == svcs[m - 1].end
  {
    LastOfSlice(Reported(svcs), n, m);
    assert Reported(svcs)[m - 1].end == svcs[m - 1].end;
    hide Services, Text, Reported;
  }

  lemma StartOfAll(start: u16)
    ensures |ReqAll(start)| >= 3 && StartOf(ReqAll(start)) == start
  {
    StartOfReq(READ_BY_GRP_REQ, start, PutLe16(0xFFFF) + PutLe16(PRIM_SVC_UUID));
    assert ReqAll(start) == [READ_BY_GRP_REQ] + PutLe16(start) + (PutLe16(0xFFFF) + PutLe16(PRIM_SVC_UUID));
  }

  lemma AllRound(svcs: seq<Service>, n: nat, s: All, r: Reply) returns (m: nat)
    requires Services(svcs) && AllAt(svcs, n, s) && s.next.Ask? && AllAnswer(svcs, s.next.req, r)
    requires r.status == 0 ==> |r.pdu| >= 1
    ensures AllAt(svcs, m, AllStep(s, r))
    ensures AllStep(s, r).next.Ask? ==> m > n
  {
    StartOfAll(s.start);
    hide Services, GrpList, PrimariesOf, ReqAll;
    m := n;
    if n < |svcs| {
      m :| AllHolds(svcs, n, m, r);
      AllDecoded(svcs, n, m, r);
      AllAdvances(svcs, n, m, s);
      LastReported(svcs, n, m);
      hide AllAt, AllHolds, AllStep, LastEnd;
      AllTakes(s, r, Reported(svcs)[n..m], svcs[m - 1].end);
    }
  }

  lemma {:induction false} AllRounds(svcs: seq<Service>, n: nat, s: All, rs: seq<Reply>) returns (m: nat)
    requires Services(svcs) && AllAt(svcs, n, s) && Whole(rs) && AllConforms(svcs, s, rs)
    ensures AllAt(svcs, m, AllRun(s, rs))
    ensures AllRun(s, rs).next.Ask? ==> m >= n + |rs|
    decreases |rs|
  {
    hide AllAt, AllStep, AllAnswer, Services;
    if rs == [] || s.next.Finish? {
      m := n;
    } else {
      m := AllRound(svcs, n, s, rs[0]);
      m := AllRounds(svcs, m, AllStep(s, rs[0]), rs[1..]);
    }
  }

  // However the server splits its services over responses, a discovery that ends has status 0 and
  // the whole list, in order; and it ends within one round more than there are services.
  lemma AllComplete(svcs: seq<Service>, rs: seq<Reply>)
    requires Services(svcs) && Whole(rs) && AllConforms(svcs, AllInit, rs)
    ensures var s := AllRun(AllInit, rs);
            && (s.next.Finish? ==> s.next == Finish(0) && s.found == Reported(svcs))
            && (|rs| > |svcs| ==> s.next.Finish?)
  {
    BelowIs(Starts(svcs), 1, 0);
    assert Reported(svcs)[..0] == [];
    var m := AllRounds(svcs, 0, AllInit, rs);
    assert Reported(svcs)[..|svcs|] == Reported(svcs);
  }

  // A server that encodes its services with enc_read_by_grp_resp into any buffer conforms.
  lemma EncoderConforms(svcs: seq<Service>, start: u16, last: nat, len: nat)
    requires Services(svcs)
    requires Below(Starts(svcs), start) < last <= |svcs|
    requires var es := Entries(svcs[Below(Starts(svcs), start)..last]); Wide(es, |es[0]|) && |es[0]| + 2 <= len
    ensures var es := Entries(svcs[Below(Starts(svcs), start)..last]);
            AllAnswer(svcs, ReqAll(start), Reply(0, GrpPdu(DataList(|es[0]|, es), len)))
  {
    var n := Below(Starts(svcs), start);
    var es := Entries(svcs[n..last]);
    var k := PartHolds(svcs[n..last], len);
    SliceOfSlice(svcs, n, last, k);
    StartOfAll(start);
    hide ReqAll, Starts, Below, GrpPdu, Entries, Wide, OnWire, Flatten;
    assert AllHolds(svcs, n, n + k, Reply(0, GrpPdu(DataList(|es[0]|, es), len)));
  }

  // The encoder's list of a part holds a prefix of it.
  lemma PartHolds(part: seq<Service>, len: nat) returns (k: nat)
    requires part != [] && forall j :: 0 <= j < |part| ==> OnWire(part[j].uuid)
    requires var es := Entries(part); Wide(es, |es[0]|) && |es[0]| + 2 <= len
    ensures 0 < k <= |part|
    ensures var es, fit := Entries(part), Entries(part[..k]);
            && Wide(fit, |fit[0]|) && ListOk(DataList(|es[0]|, es))
            && GrpPdu(DataList(|es[0]|, es), len) == [READ_BY_GRP_RSP, |fit[0]|] + Flatten(fit)
  {
    var es := Entries(part);
    var fit := Fitting(es, |es[0]|, len - 2);
    FittingBytes(es, |es[0]|, len - 2);
    k := |fit|;
    hide Flatten, OnWire, Entry;
    assert Entries(part[..k]) == fit;
  }

  // ---- Any server ----------------------------------------------------------------------------

  // Whatever the server says, a request that is sent starts above the one before it.
  lemma AllRises(s: All, r: Reply)
    requires r.status == 0 ==> |r.pdu| >= 1
    ensures AllStep(s, r).next.Ask? ==> AllStep(s, r).start > s.start
  {
    hide GrpList, PrimariesOf, LastEnd, ReqAll;
  }

  lemma {:induction false} AllEnds(s: All, rs: seq<Reply>)
    requires Whole(rs) && |rs| >= 0x1_0000 - s.start
    ensures AllRun(s, rs).next.Finish?
    decreases |rs|
  {
    if s.next.Ask? {
      AllRises(s, rs[0]);
      var s1 := AllStep(s, rs[0]);
      if s1.next.Ask? {
        AllEnds(s1, rs[1..]);
      }
    }
  }

  // ---- By UUID -------------------------------------------------------------------------------

  datatype By = By(start: u16, found: seq<Range>, next: Next)

  function ReqBy(value: seq<byte>, start: u16): seq<byte> { FindReq(start, 0xFFFF, PRIM_SVC_UUID, value) }

  function ByInit(value: seq<byte>): By { By(1, [], Ask(ReqBy(value, 1))) }

  // primary_by_uuid_cb
  function ByStep(value: seq<byte>, s: By, r: Reply): By {
    if r.status == ECODE_ATTR_NOT_FOUND then s.(next := Finish(0))
    else if r.status != 0 then s.(next := Finish(r.status))
    else
      var ranges := FoundRanges(r.pdu);
      if ranges == [] then s.(next := Finish(0))
      else
        var end := ranges[|ranges| - 1].end;
        var found := s.found + ranges;
        if end == 0xFFFF then By(s.start, found, Finish(0))
        else if end < s.start then By(s.start, found, Finish(ECODE_UNLIKELY))
        else By(Succ16(end), found, Ask(ReqBy(value, Succ16(end))))
  }

  function ByRun(value: seq<byte>, s: By, rs: seq<Reply>): By
    decreases |rs|
  {
    if rs == [] || s.next.Finish? then s else ByRun(value, ByStep(value, s, rs[0]), rs[1..])
  }

  // The services whose UUID has this value.
  function Having(svcs: seq<Service>, value: seq<byte>): (some: seq<Service>)
    requires forall k :: 0 <= k < |svcs| ==> OnWire(svcs[k].uuid)
    ensures forall s :: s in some <==> s in svcs && UuidBytes(s.uuid) == value
  {
    if svcs == [] then []
    else
      assert forall s :: s in svcs <==> s == svcs[0] || s in svcs[1..];
      var rest := Having(svcs[1..], value);
      if UuidBytes(svcs[0].uuid) == value then [svcs[0]] + rest else rest
  }

  lemma {:induction false} HavingInOrder(svcs: seq<Service>, value: seq<byte>)
    requires Services(svcs)
    ensures Services(Having(svcs, value))
  {
    hide UuidBytes;
    if svcs != [] {
      var rest := Having(svcs[1..], value);
      HavingInOrder(svcs[1..], value);
      ServicesAfter(svcs, rest);
      hide Services;
    }
  }

  // Services taken from behind the first one follow it.
  lemma ServicesAfter(svcs: seq<Service>, rest: seq<Service>)
    requires Services(svcs) && svcs != [] && Services(rest) && forall s :: s in rest ==> s in svcs[1..]
    ensures Services([svcs[0]] + rest)
  {
    forall k | 0 <= k < |rest| ensures svcs[0].end < rest[k].start {
      assert rest[k] in svcs[1..];
    }
  }

  function RangesOfServices(svcs: seq<Service>): (rs: seq<Range>)
    ensures |rs| == |svcs| && forall k :: 0 <= k < |svcs| ==> rs[k] == Range(svcs[k].start, svcs[k].end)
  {
    seq(|svcs|, k requires 0 <= k < |svcs| => Range(svcs[k].start, svcs[k].end))
  }

  // Section 4.4.2 of Vol 3, Part G
  ghost predicate ByAnswer(some: seq<Service>, req: seq<byte>, r: Reply)
    requires Services(some) && |req| >= 3
  {
    var n := Below(Starts(some), StartOf(req));
    if n == |some| then r.status == ECODE_ATTR_NOT_FOUND
    else r.status == 0 && exists m :: n < m <= |some| && r.pdu == FoundBytes(some, n, m)
  }

  function FoundBytes(some: seq<Service>, n: nat, m: nat): seq<byte>
    requires n <= m <= |some|
  {
    [FIND_BY_TYPE_RSP] + Flatten(RangesBytes(RangesOfServices(some)[n..m]))
  }

  ghost predicate ByConforms(some: seq<Service>, value: seq<byte>, s: By, rs: seq<Reply>)
    requires Services(some)
    decreases |rs|
  {
    rs != [] && s.next.Ask? ==>
      |s.next.req| >= 3 && ByAnswer(some, s.next.req, rs[0]) && ByConforms(some, value, ByStep(value, s, rs[0]), rs[1..])
  }

  ghost predicate ByAt(some: seq<Service>, value: seq<byte>, n: nat, s: By)
    requires Services(some)
  {
    && n <= |some| && s.found == RangesOfServices(some)[..n]
    && match s.next
       case Ask(req) => req == ReqBy(value, s.start) && Below(Starts(some), s.start) == n
       case Finish(err) => err == 0 && n == |some|
  }

  lemma ByDecoded(some: seq<Service>, n: nat, m: nat)
    requires n < m <= |some|
    ensures FoundRanges(FoundBytes(some, n, m)) == RangesOfServices(some)[n..m]
  {
    var rs := RangesOfServices(some)[n..m];
    var es := RangesBytes(rs);
    var len := 1 + |Flatten(es)|;
    FoundRoundTrip(rs, len);
    FlattenLength(es, 4);
    FitAll(|rs|, 4, len - 1);
    assert es[..|rs|] == es && rs[..|rs|] == rs;
  }

  lemma StartOfBy(value: seq<byte>, start: u16)
    ensures |ReqBy(value, start)| >= 3 && StartOf(ReqBy(value, start)) == start
  {
    var rest := PutLe16(0xFFFF) + PutLe16(PRIM_SVC_UUID) + value;
    StartOfReq(FIND_BY_TYPE_REQ, start, rest);
    assert ReqBy(value, start) == [FIND_BY_TYPE_REQ] + PutLe16(start) + rest;
  }

  function ByAfter(value: seq<byte>, s: By, ranges: seq<Range>, end: u16): By {
    if end == 0xFFFF then By(s.start, s.found + ranges, Finish(0))
    else By(Succ16(end), s.found + ranges, Ask(ReqBy(value, Succ16(end))))
  }

  lemma ByTakes(value: seq<byte>, s: By, r: Reply, ranges: seq<Range>)
    requires r.status == 0 && FoundRanges(r.pdu) == ranges != [] && ranges[|ranges| - 1].end >= s.start
    ensures ByStep(value, s, r) == ByAfter(value, s, ranges, ranges[|ranges| - 1].end)
  {
    hide FoundRanges, ReqBy;
  }

  lemma ByAdvances(some: seq<Service>, value: seq<byte>, n: nat, m: nat, s: By)
    requires Services(some) && ByAt(some, value, n, s) && s.next.Ask? && n < m <= |some|
    ensures s.start <= some[m - 1].end && RangesOfServices(some)[n..m][m - n - 1].end == some[m - 1].end
    ensures ByAt(some, value, m, ByAfter(value, s, RangesOfServices(some)[n..m], some[m - 1].end))
  {
    Behind(some, m);
    hide Services, ReqBy;
    assert Starts(some)[n] >= s.start;
    Prefixes(RangesOfServices(some), n, m);
  }

  lemma ByRound(some: seq<Service>, value: seq<byte>, n: nat, s: By, r: Reply) returns (m: nat)
    requires Services(some) && ByAt(some, value, n, s) && s.next.Ask? && ByAnswer(some, s.next.req, r)
    ensures ByAt(some, value, m, ByStep(value, s, r))
    ensures ByStep(value, s, r).next.Ask? ==> m > n
  {
    StartOfBy(value, s.start);
    m := n;
    hide Services, FoundRanges, FoundBytes, ReqBy;
    if n < |some| {
      m :| n < m <= |some| && r.pdu == FoundBytes(some, n, m);
      ByDecoded(some, n, m);
      ByAdvances(some, value, n, m, s);
      hide ByAt, ByStep;
      ByTakes(value, s, r, RangesOfServices(some)[n..m]);
    }
  }

  lemma {:induction false} ByRounds(some: seq<Service>, value: seq<byte>, n: nat, s: By, rs: seq<Reply>) returns (m: nat)
    requires Services(some) && ByAt(some, value, n, s) && ByConforms(some, value, s, rs)
    ensures ByAt(some, value, m, ByRun(value, s, rs))
    ensures ByRun(value, s, rs).next.Ask? ==> m >= n + |rs|
    decreases |rs|
  {
    hide ByAt, ByStep, ByAnswer, Services;
    m := n;
    if rs != [] && s.next.Ask? {
      m := ByRound(some, value, n, s, rs[0]);
      m := ByRounds(some, value, m, ByStep(value, s, rs[0]), rs[1..]);
    }
  }

  // The server answers the searches for this UUID with its services of that UUID.
  ghost predicate ByServed(svcs: seq<Service>, u: Uuid, rs: seq<Reply>)
    requires Services(svcs) && OnWire(u)
  {
    var value := UuidBytes(u);
    HavingInOrder(svcs, value);
    ByConforms(Having(svcs, value), value, ByInit(value), rs)
  }

  // A discovery by UUID ends with status 0 and the ranges of exactly the services of that UUID, in
  // order, within one round more than there are of them.
  lemma ByComplete(svcs: seq<Service>, u: Uuid, rs: seq<Reply>)
    requires Services(svcs) && OnWire(u) && ByServed(svcs, u, rs)
    ensures var value := UuidBytes(u); var some := Having(svcs, value); var s := ByRun(value, ByInit(value), rs);
            && (s.next.Finish? ==> s.next == Finish(0) && s.found == RangesOfServices(some))
            && (|rs| > |some| ==> s.next.Finish?)
  {
    var value := UuidBytes(u);
    var some := Having(svcs, value);
    HavingInOrder(svcs, value);
    hide Having, ByRun;
    BelowIs(Starts(some), 1, 0);
    var m := ByRounds(some, value, 0, ByInit(value), rs);
    assert RangesOfServices(some)[..|some|] == RangesOfServices(some);
  }

  // So does one that writes the ranges with enc_find_by_type_resp.
  lemma ByEncoderConforms(some: seq<Service>, value: seq<byte>, start: u16, last: nat, len: nat)
    requires Services(some) && Below(Starts(some), start) < last <= |some| && 5 <= len
    ensures var n := Below(Starts(some), start);
            |ReqBy(value, start)| >= 3 && ByAnswer(some, ReqBy(value, start), Reply(0, FoundPdu(RangesOfServices(some)[n..last], len)))
  {
    var n := Below(Starts(some), start);
    var rs := RangesOfServices(some)[n..last];
    var k := Fit(|rs|, 4, len - 1);
    FittingBytes(RangesBytes(rs), 4, len - 1);
    StartOfBy(value, start);
    hide Services, ReqBy, Starts, Flatten, Fit;
    assert RangesBytes(rs)[..k] == RangesBytes(rs[..k]);
    SliceOfSlice(RangesOfServices(some), n, last, k);
    assert FoundPdu(rs, len) == FoundBytes(some, n, n + k);
  }

  lemma ByRises(value: seq<byte>, s: By, r: Reply)
    ensures ByStep(value, s, r).next.Ask? ==> ByStep(value, s, r).start > s.start
  {
    hide FoundRanges, ReqBy;
  }

  lemma {:induction false} ByEnds(value: seq<byte>, s: By, rs: seq<Reply>)
    requires |rs| >= 0x1_0000 - s.start
    ensures ByRun(value, s, rs).next.Finish?
    decreases |rs|
  {
    hide ByStep;
    if s.next.Ask? {
      ByRises(value, s, rs[0]);
      var s1 := ByStep(value, s, rs[0]);
      if s1.next.Ask? {
        ByEnds(value, s1, rs[1..]);
      }
    }
  }

  // ---- Other widths --------------------------------------------------------------------------

  // What lies behind a 32-bit value in the union of a bt_uuid_t.
  type Rest = r: seq<byte> | |r| == 12 witness [0, 0, 0, 0, 0, 0, 0, 0, 0, 0, 0, 0]

  // What the search asks for: put_uuid_le, then bt_uuid_len bytes of it.  Anything but 16 bits is turned
  // round as 128 bits, so that of a 32-bit UUID the last four bytes of the union come first.
  function Sought(u: Uuid, rest: Rest): seq<byte> {
    match u
    case Unspec => []
    case U32(_) => [rest[11], rest[10], rest[9], rest[8]]
    case _ => UuidBytes(u)
  }

  lemma {:induction false} HavingNone(svcs: seq<Service>, value: seq<byte>)
    requires (forall k :: 0 <= k < |svcs| ==> OnWire(svcs[k].uuid)) && |value| != 2 && |value| != 16
    ensures Having(svcs, value) == []
  {
    if svcs != [] { HavingNone(svcs[1..], value); }
  }

  // The services of a UUID, whatever width it is given in.
  function OfUuid(svcs: seq<Service>, u: Uuid): seq<Service>
    requires !u.Unspec? && forall k :: 0 <= k < |svcs| ==> !svcs[k].uuid.Unspec?
  {
    if svcs == [] then [] else (if Expand(svcs[0].uuid) == Expand(u) then [svcs[0]] else []) + OfUuid(svcs[1..], u)
  }

  // A search for a 32-bit UUID does not ask for it at all: against a server that answers what it is asked,
  // it ends with status 0 and nothing found, and so rightly if and only if there is no such service.
  lemma ShortUuidFindsNothing(svcs: seq<Service>, u: Uuid, rest: Rest, rs: seq<Reply>)
    requires Services(svcs) && u.U32? && Services(Having(svcs, Sought(u, rest)))
    requires ByConforms(Having(svcs, Sought(u, rest)), Sought(u, rest), ByInit(Sought(u, rest)), rs)
    ensures var s := ByRun(Sought(u, rest), ByInit(Sought(u, rest)), rs);
            && s.found == [] && (rs != [] ==> s.next == Finish(0))
            && (s.found == RangesOfServices(OfUuid(svcs, u)) <==> OfUuid(svcs, u) == [])
  {
    var value := Sought(u, rest);
    HavingNone(svcs, value);
    hide Services, Having, OfUuid;
    BelowIs(Starts([]), 1, 0);
    if rs != [] {
      StartOfBy(value, 1);
      assert ByRun(value, ByStep(value, ByInit(value), rs[0]), rs[1..]) == ByStep(value, ByInit(value), rs[0]);
    }
  }

  // A service that is there and is not found: its 16-bit UUID, asked for in 32 bits.
  lemma ShortUuidMisses(v: u16, start: u16, end: u16, rest: Rest)
    requires 1 <= start <= end
    ensures var svcs := [Service(start, end, U16(v))]; var rs := [Reply(ECODE_ATTR_NOT_FOUND, [])];
            && Services(svcs) && OfUuid(svcs, U32(v as u32)) == svcs
            && Services(Having(svcs, Sought(U32(v as u32), rest)))
            && ByConforms(Having(svcs, Sought(U32(v as u32), rest)), Sought(U32(v as u32), rest), ByInit(Sought(U32(v as u32), rest)), rs)
  {
    var svcs, value := [Service(start, end, U16(v))], Sought(U32(v as u32), rest);
    HavingNone(svcs, value);
    StartOfBy(value, 1);
    BelowIs(Starts([]), 1, 0);
    assert Expand(U16(v)) == Expand(U32(v as u32));
    assert svcs[1..] == [] && OfUuid([], U32(v as u32)) == [];
  }

  // ---- The program ---------------------------------------------------------------------------

  // struct discover_primary.  `primaries` and `ranges` are the two kinds of list it collects; `next`
  // is what its last callback did.
  class DiscoverPrimary {
    const uuid: Option<Uuid>
    const rest: Rest
    var start: u16
    var primaries: seq<Primary>
    var ranges: seq<Range>
    var next: Next

    // gatt_discover_primary
    constructor (uuid: Option<Uuid>, rest: Rest)
      ensures this.uuid == uuid && this.rest == rest
      ensures uuid.None? ==> All(start, primaries, next) == AllInit
      ensures uuid.Some? ==> By(start, ranges, next) == ByInit(Sought(uuid.value, rest))
    {
      this.uuid := uuid;
      this.rest := rest;
      start := 1;
      primaries := [];
      ranges := [];
      next := Ask(if uuid.None? then ReqAll(1) else ReqBy(Sought(uuid.value, rest), 1));
    }

    // The loop of primary_all_cb: append the entries, and remember where the last one ends.
    method AddPrimaries(es: seq<seq<byte>>) returns (end: u16)
      requires forall k :: 0 <= k < |es| ==> |es[k]| == 6 || |es[k]| == 20
      modifies this`primaries
      ensures primaries == old(primaries) + PrimariesOf(es) && end == LastEnd(PrimariesOf(es))
    {
      end := 0;
      for i := 0 to |es|
        invariant primaries == old(primaries) + PrimariesOf(es[..i]) && end == LastEnd(PrimariesOf(es[..i]))
      {
        PrimariesNext(es, i);
        hide PrimariesOf, PrimaryOf, GetLe16;
        AddPrimary(es[i]);
        end := GetLe16(es[i], 2);
      }
      assert es[..|es|] == es;
    }

    method AddPrimary(e: seq<byte>)
      requires |e| == 6 || |e| == 20
      modifies this`primaries
      ensures primaries == old(primaries) + [PrimaryOf(e)] && PrimaryOf(e).end == GetLe16(e, 2)
    {
      primaries := primaries + [Primary(GetLe16(e, 0), GetLe16(e, 2), Text(FromLe(e[4..])))];
    }

    // primary_all_cb
    method PrimaryAllCb(r: Reply)
      requires r.status == 0 ==> |r.pdu| >= 1
      modifies this`start, this`primaries, this`next
      ensures All(start, primaries, next) == AllStep(old(All(start, primaries, next)), r)
    {
      hide GrpList, PrimariesOf, ReqAll;
      if r.status != 0 {
        next := Finish(if r.status == ECODE_ATTR_NOT_FOUND then 0 else r.status);
        return;
      }
      var list := DecReadByGrpResp(r.pdu);
      if list.None? {
        next := Finish(ECODE_IO);
        return;
      }
      var es := list.value.data;
      if list.value.len != 6 && list.value.len != 20 {
        next := Finish(ECODE_INVALID_PDU);
        return;
      }
      var end := AddPrimaries(es);
      if end < start {
        next := Finish(ECODE_UNLIKELY);
        return;
      }
      start := Succ16(end);
      next := if end != 0xFFFF then Ask(ReqAll(start)) else Finish(0);
    }

    // primary_by_uuid_cb
    method PrimaryByUuidCb(r: Reply)
      requires uuid.Some?
      modifies this`start, this`ranges, this`next
      ensures By(start, ranges, next) == ByStep(Sought(uuid.value, rest), old(By(start, ranges, next)), r)
    {
      if r.status != 0 {
        next := Finish(if r.status == ECODE_ATTR_NOT_FOUND then 0 else r.status);
        return;
      }
      var found := DecFindByTypeResp(r.pdu);
      if found == [] {
        next := Finish(0);
        return;
      }
      ranges := ranges + found;
      var last := found[|found| - 1];
      if last.end == 0xFFFF {
        next := Finish(0);
        return;
      }
      if last.end < start {
        next := Finish(ECODE_UNLIKELY);
        return;
      }
      start := Succ16(last.end);
      next := Ask(ReqBy(Sought(uuid.value, rest), start));
    }
  }
}
