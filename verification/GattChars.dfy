// Discovery of characteristics (char_discovered_cb of attrib/gatt.c), all of them or those of one
// UUID, against any server that answers with some of the declarations it was asked for.

module GattChars {
  import opened Wire
  import opened Opcodes
  import opened Uuids
  import opened AttPdus
  import opened AttCodec
  import opened GattWire

  // struct gatt_char
  datatype Char = Char(handle: u16, properties: byte, valueHandle: u16, uuid: string)

  // A characteristic declaration as it travels.
  datatype Decl = Decl(handle: u16, properties: byte, valueHandle: u16, uuid: Uuid)

  // ---- The client ----------------------------------------------------------------------------

  datatype Chars = Chars(start: u16, end: u16, found: seq<Char>, next: Next)

  function CharReq(start: u16, end: u16): seq<byte> { RangeReq(READ_BY_TYPE_REQ, start, end, CHARAC_UUID) }

  function Init(start: u16, end: u16): Chars { Chars(start, end, [], Ask(CharReq(start, end))) }

  // Entries are 7 bytes with a 16-bit UUID; any other width is read as a 128-bit one.
  predicate EntryOk(e: seq<byte>) { |e| == 7 || |e| >= 21 }

  function DeclOf(e: seq<byte>): (d: Decl)
    requires EntryOk(e)
    ensures OnWire(d.uuid)
  {
    Decl(GetLe16(e, 0), e[2], GetLe16(e, 3), FromLe(if |e| == 7 then e[5..7] else e[5..21]))
  }

  function DeclsOf(es: seq<seq<byte>>): (ds: seq<Decl>)
    requires forall k :: 0 <= k < |es| ==> EntryOk(es[k])
    ensures |ds| == |es| && forall k :: 0 <= k < |es| ==> ds[k] == DeclOf(es[k])
  {
    seq(|es|, k requires 0 <= k < |es| => DeclOf(es[k]))
  }

  predicate Wanted(want: Option<Uuid>, d: Decl)
    requires OnWire(d.uuid) && (want.Some? ==> !want.value.Unspec?)
  {
    want.None? || Compare(want.value, d.uuid) == 0
  }

  predicate Fine(want: Option<Uuid>, ds: seq<Decl>) {
    (want.Some? ==> !want.value.Unspec?) && forall k :: 0 <= k < |ds| ==> OnWire(ds[k].uuid)
  }

  // The declarations that pass the filter, in order, as the user sees them.
  function Report(want: Option<Uuid>, ds: seq<Decl>): seq<Char>
    requires Fine(want, ds)
  {
    if ds == [] then []
    else
      var d := ds[0];
      (if Wanted(want, d) then [Char(d.handle, d.properties, d.valueHandle, Text(d.uuid))] else []) + Report(want, ds[1..])
  }

  lemma ReportFirst(want: Option<Uuid>, ds: seq<Decl>)
    requires Fine(want, ds) && ds != []
    ensures Report(want, ds) == Report(want, ds[..1]) + Report(want, ds[1..])
  {
    hide Wanted, Text;
    assert ds[..1][1..] == [];
  }

  lemma {:induction false} ReportConcat(want: Option<Uuid>, a: seq<Decl>, b: seq<Decl>)
    requires Fine(want, a) && Fine(want, b)
    ensures Report(want, a + b) == Report(want, a) + Report(want, b)
  {
    hide Wanted, Text;
    if a == [] {
      assert a + b == b;
    } else {
      ReportConcat(want, a[1..], b);
      assert (a + b)[1..] == a[1..] + b && (a + b)[..1] == a[..1];
      ReportFirst(want, a);
      ReportFirst(want, a + b);
      hide Report, Fine;
    }
  }

  // The source reads each entry as 7 bytes or as at least 21.
  predicate Readable(r: Reply) {
    r.status == 0 ==> |r.pdu| >= 1 && (TypeList(r.pdu).Some? ==> TypeList(r.pdu).value.len == 7 || TypeList(r.pdu).value.len >= 21)
  }

  // The declarations of a response, if it is one.
  function Heard(r: Reply): (ds: Option<seq<Decl>>)
    requires Readable(r)
    ensures ds.Some? ==> forall k :: 0 <= k < |ds.value| ==> OnWire(ds.value[k].uuid)
  {
    if r.status != 0 || TypeList(r.pdu).None? then None else Some(DeclsOf(TypeList(r.pdu).value.data))
  }

  function LastHandle(ds: seq<Decl>): u16 { if ds == [] then 0 else ds[|ds| - 1].handle }

  // char_discovered_cb
  function Step(want: Option<Uuid>, s: Chars, r: Reply): Chars
    requires Readable(r) && (want.Some? ==> !want.value.Unspec?)
  {
    if r.status == ECODE_ATTR_NOT_FOUND then s.(next := Finish(if s.found != [] then 0 else r.status))
    else if r.status != 0 then s.(next := Finish(r.status))
    else match Heard(r)
      case None => s.(next := Finish(ECODE_IO))
      case Some(ds) => Take(want, s, ds)
  }

  function Take(want: Option<Uuid>, s: Chars, ds: seq<Decl>): Chars
    requires Fine(want, ds)
  {
    var last := LastHandle(ds);
    var found := s.found + Report(want, ds);
    if last < s.start then s.(found := found, next := Finish(ECODE_UNLIKELY))
    else
      var start := Succ16(last);
      if last != 0 && start < s.end then Chars(start, s.end, found, Ask(CharReq(start, s.end)))
      else Chars(start, s.end, found, Finish(0))
  }

  predicate AllReadable(rs: seq<Reply>) { forall k :: 0 <= k < |rs| ==> Readable(rs[k]) }

  function Run(want: Option<Uuid>, s: Chars, rs: seq<Reply>): Chars
    requires AllReadable(rs) && (want.Some? ==> !want.value.Unspec?)
    decreases |rs|
  {
    if rs == [] || s.next.Finish? then s else Run(want, Step(want, s, rs[0]), rs[1..])
  }

  // ---- The server ----------------------------------------------------------------------------

  // The declarations between start and end, ascending; each value handle follows its declaration,
  // inside the range and before the next declaration.
  predicate Declares(ds: seq<Decl>, start: u16, end: u16) {
    && 1 <= start
    && (forall k :: 0 <= k < |ds| ==> start <= ds[k].handle < ds[k].valueHandle <= end && OnWire(ds[k].uuid))
    && (forall j, k :: 0 <= j < k < |ds| ==> ds[j].valueHandle < ds[k].handle)
  }

  function Handles(ds: seq<Decl>): (keys: seq<int>)
    ensures |keys| == |ds| && forall k :: 0 <= k < |ds| ==> keys[k] == ds[k].handle
  {
    seq(|ds|, k requires 0 <= k < |ds| => ds[k].handle as int)
  }

  function Entry(d: Decl): (e: seq<byte>)
    requires OnWire(d.uuid)
    ensures |e| == if d.uuid.U16? then 7 else 21
  {
    PutLe16(d.handle) + [d.properties] + PutLe16(d.valueHandle) + UuidBytes(d.uuid)
  }

  function Entries(ds: seq<Decl>): (es: seq<seq<byte>>)
    requires forall k :: 0 <= k < |ds| ==> OnWire(ds[k].uuid)
    ensures |es| == |ds| && forall k :: 0 <= k < |ds| ==> es[k] == Entry(ds[k])
  {
    seq(|ds|, k requires 0 <= k < |ds| => Entry(ds[k]))
  }

  // Section 4.6.1 of Vol 3, Part G: declarations of one width in one response.
  ghost predicate Holds(part: seq<Decl>, r: Reply)
    requires forall k :: 0 <= k < |part| ==> OnWire(part[k].uuid)
  {
    && r.status == 0 && part != []
    && var es := Entries(part);
       Wide(es, |es[0]|) && r.pdu == [READ_BY_TYPE_RSP, |es[0]|] + Flatten(es)
  }

  ghost predicate Answer(ds: seq<Decl>, start: u16, end: u16, req: seq<byte>, r: Reply)
    requires Declares(ds, start, end) && |req| >= 3
  {
    var n := Below(Handles(ds), StartOf(req));
    if n == |ds| then r.status == ECODE_ATTR_NOT_FOUND
    else exists m :: n < m <= |ds| && Holds(ds[n..m], r)
  }

  ghost predicate Conforms(want: Option<Uuid>, ds: seq<Decl>, start: u16, end: u16, s: Chars, rs: seq<Reply>)
    requires Declares(ds, start, end) && AllReadable(rs) && (want.Some? ==> !want.value.Unspec?)
    decreases |rs|
  {
    rs != [] && s.next.Ask? ==>
      && |s.next.req| >= 3 && Answer(ds, start, end, s.next.req, rs[0])
      && Conforms(want, ds, start, end, Step(want, s, rs[0]), rs[1..])
  }

  // ---- The list is complete and exact --------------------------------------------------------

  lemma EntryBack(d: Decl)
    requires OnWire(d.uuid)
    ensures EntryOk(Entry(d)) && DeclOf(Entry(d)) == d
  {
    var e := Entry(d);
    assert e[0] == d.handle % 0x100 && e[1] == d.handle / 0x100 && e[2] == d.properties;
    assert e[3] == d.valueHandle % 0x100 && e[4] == d.valueHandle / 0x100;
    assert e[5..] == UuidBytes(d.uuid) && (if |e| == 7 then e[5..7] else e[5..21]) == e[5..];
    LeRoundTrip(d.uuid);
  }

  lemma Decoded(part: seq<Decl>, r: Reply)
    requires (forall k :: 0 <= k < |part| ==> OnWire(part[k].uuid)) && Holds(part, r)
    ensures Readable(r) && Heard(r) == Some(part)
  {
    var es := Entries(part);
    ListOfPdu(READ_BY_TYPE_RSP, es, |es[0]|, 5, 3);
    hide ListOf, Flatten, Entry;
    forall k | 0 <= k < |part| ensures EntryOk(es[k]) && DeclOf(es[k]) == part[k] {
      EntryBack(part[k]);
    }
    hide DeclOf, TypeList;
    assert DeclsOf(es) == part;
  }

  // The error code of a discovery that found nothing says so, unless it stopped at the end of the
  // range without asking further.
  function Code(want: Option<Uuid>, ds: seq<Decl>, end: u16): byte
    requires Fine(want, ds)
  {
    if Report(want, ds) == [] && (ds == [] || ds[|ds| - 1].handle + 1 < end as int) then ECODE_ATTR_NOT_FOUND else 0
  }

  ghost predicate At(want: Option<Uuid>, ds: seq<Decl>, n: nat, s: Chars)
    requires Fine(want, ds)
  {
    && n <= |ds| && s.found == Report(want, ds[..n])
    && (s.next.Ask? ==> s.next.req == CharReq(s.start, s.end) && Below(Handles(ds), s.start) == n
                        && (n > 0 ==> ds[n - 1].handle + 1 < s.end as int))
    && (s.next.Finish? ==> n == |ds| && s.next.err == Code(want, ds, s.end))
  }

  lemma Behind(ds: seq<Decl>, start: u16, end: u16, m: nat)
    requires Declares(ds, start, end) && 0 < m <= |ds|
    ensures var last: int := ds[m - 1].handle;
            && 0 < last < end && Below(Handles(ds), last + 1) == m && (last + 1 >= end ==> m == |ds|)
            && forall k :: 0 <= k < m ==> ds[k].handle <= last
  {
    var last: int := ds[m - 1].handle;
    forall k | 0 <= k < m ensures ds[k].handle <= last {
      if k < m - 1 {
        assert ds[k].valueHandle < ds[m - 1].handle;
      }
    }
    if m < |ds| {
      assert ds[m - 1].valueHandle < ds[m].handle;
    }
    hide Declares;
    BelowIs(Handles(ds), last + 1, m);
  }

  lemma Advances(want: Option<Uuid>, ds: seq<Decl>, start: u16, end: u16, n: nat, m: nat, s: Chars)
    requires Declares(ds, start, end) && Fine(want, ds) && At(want, ds, n, s) && s.next.Ask? && s.end == end && n < m <= |ds|
    ensures Fine(want, ds[n..m])
    ensures At(want, ds, m, Take(want, s, ds[n..m])) && Take(want, s, ds[n..m]).end == end
  {
    Behind(ds, start, end, m);
    Appended(want, ds, n, m);
    assert Handles(ds)[n] >= s.start;
    hide Declares, CharReq, Report, Fine, OnWire;
    TakeForward(want, s, ds[n..m]);
    hide Take, LastHandle;
  }

  lemma TakeForward(want: Option<Uuid>, s: Chars, part: seq<Decl>)
    requires Fine(want, part) && 0 < LastHandle(part) < s.end && s.start <= LastHandle(part)
    ensures var start := LastHandle(part) + 1; var found := s.found + Report(want, part);
            Take(want, s, part) == Chars(start, s.end, found, if start < s.end then Ask(CharReq(start, s.end)) else Finish(0))
  {
    hide Report, CharReq, LastHandle;
  }

  lemma Appended(want: Option<Uuid>, ds: seq<Decl>, n: nat, m: nat)
    requires Fine(want, ds) && n < m <= |ds|
    ensures Fine(want, ds[n..m]) && LastHandle(ds[n..m]) == ds[m - 1].handle
    ensures Report(want, ds[..n]) + Report(want, ds[n..m]) == Report(want, ds[..m])
    ensures ds[..|ds|] == ds
  {
    hide Report, OnWire;
    ReportConcat(want, ds[..n], ds[n..m]);
    Prefixes(ds, n, m);
  }

  lemma StartOfChars(start: u16, end: u16)
    ensures |CharReq(start, end)| >= 3 && StartOf(CharReq(start, end)) == start
  {
    StartOfReq(READ_BY_TYPE_REQ, start, PutLe16(end) + PutLe16(CHARAC_UUID));
    assert CharReq(start, end) == [READ_BY_TYPE_REQ] + PutLe16(start) + (PutLe16(end) + PutLe16(CHARAC_UUID));
  }

  lemma Round(want: Option<Uuid>, ds: seq<Decl>, start: u16, end: u16, n: nat, s: Chars, r: Reply) returns (m: nat)
    requires Declares(ds, start, end) && Fine(want, ds) && At(want, ds, n, s) && s.next.Ask? && s.end == end
    requires Readable(r) && Answer(ds, start, end, s.next.req, r)
    ensures At(want, ds, m, Step(want, s, r)) && Step(want, s, r).end == end
    ensures Step(want, s, r).next.Ask? ==> m > n
  {
    StartOfChars(s.start, end);
    hide Declares, CharReq, Report, Heard;
    m := n;
    if n < |ds| {
      m :| n < m <= |ds| && Holds(ds[n..m], r);
      hide At;
      Decoded(ds[n..m], r);
      Advances(want, ds, start, end, n, m, s);
      hide Take, Holds;
    } else {
      assert ds[..n] == ds;
    }
  }

  lemma {:induction false} Rounds(want: Option<Uuid>, ds: seq<Decl>, start: u16, end: u16, n: nat, s: Chars, rs: seq<Reply>)
    returns (m: nat)
    requires Declares(ds, start, end) && Fine(want, ds) && At(want, ds, n, s) && s.end == end
    requires AllReadable(rs) && Conforms(want, ds, start, end, s, rs)
    ensures At(want, ds, m, Run(want, s, rs)) && Run(want, s, rs).end == end
    ensures Run(want, s, rs).next.Ask? ==> m >= n + |rs|
    decreases |rs|
  {
    hide At, Step, Answer, Declares, Readable;
    m := n;
    if rs != [] && s.next.Ask? {
      m := Round(want, ds, start, end, n, s, rs[0]);
      m := Rounds(want, ds, start, end, m, Step(want, s, rs[0]), rs[1..]);
    }
  }

  // A discovery that ends reports exactly the declarations in the range that pass the filter, in
  // order, with the stated code; it ends within one round more than there are declarations.
  lemma Complete(want: Option<Uuid>, ds: seq<Decl>, start: u16, end: u16, rs: seq<Reply>)
    requires Declares(ds, start, end) && Fine(want, ds)
    requires AllReadable(rs) && Conforms(want, ds, start, end, Init(start, end), rs)
    ensures var s := Run(want, Init(start, end), rs);
            && (s.next.Finish? ==> s.found == Report(want, ds) && s.next == Finish(Code(want, ds, end)))
            && (|rs| > |ds| ==> s.next.Finish?)
  {
    BelowIs(Handles(ds), start, 0);
    var m := Rounds(want, ds, start, end, 0, Init(start, end), rs);
    assert ds[..|ds|] == ds;
  }

  // A server that encodes its declarations with enc_read_by_type_resp into a buffer that holds one
  // conforms.
  lemma EncoderConforms(ds: seq<Decl>, start: u16, end: u16, from: u16, last: nat, len: nat)
    requires Declares(ds, start, end) && Below(Handles(ds), from) < last <= |ds|
    requires var part := ds[Below(Handles(ds), from)..last];
             var es := Entries(part); Wide(es, |es[0]|) && |es[0]| + 2 <= len
    ensures var part := ds[Below(Handles(ds), from)..last]; var es := Entries(part);
            |CharReq(from, end)| >= 3
            && Answer(ds, start, end, CharReq(from, end), Reply(0, TypePdu(DataList(|es[0]|, es), len)))
  {
    var n := Below(Handles(ds), from);
    var part := ds[n..last];
    var es := Entries(part);
    var k := Fit(|es|, |es[0]|, len - 2);
    TypePduUncut(DataList(|es[0]|, es), len);
    StartOfChars(from, end);
    SliceOfSlice(ds, n, last, k);
    hide Declares, CharReq, Handles, Flatten, Fit, TypePdu, OnWire, Entry;
    assert Entries(part[..k]) == es[..k];
    assert Holds(ds[n..n + k], Reply(0, TypePdu(DataList(|es[0]|, es), len)));
  }

  // What passes the filter: nothing else is reported, and nothing that passes is missing.
  lemma {:induction false} ReportExact(want: Option<Uuid>, ds: seq<Decl>, c: Char)
    requires Fine(want, ds)
    ensures c in Report(want, ds) <==>
            exists k :: 0 <= k < |ds| && Wanted(want, ds[k])
                        && c == Char(ds[k].handle, ds[k].properties, ds[k].valueHandle, Text(ds[k].uuid))
  {
    hide Wanted, Text;
    if ds != [] {
      ReportExact(want, ds[1..], c);
      assert forall k :: 0 < k < |ds| ==> ds[k] == ds[1..][k - 1];
    }
  }

  // ---- Any server ----------------------------------------------------------------------------

  // A request that is sent starts above the one before it precisely when the last handle of the
  // response is not 0xFFFF: `last + 1` wraps to 0 before it is compared.
  lemma RisesUnlessLast(want: Option<Uuid>, s: Chars, r: Reply)
    requires Readable(r) && (want.Some? ==> !want.value.Unspec?) && Step(want, s, r).next.Ask?
    ensures Heard(r).Some? && (Step(want, s, r).start > s.start <==> LastHandle(Heard(r).value) != 0xFFFF)
    ensures Step(want, s, r).start < s.end == Step(want, s, r).end
  {
    hide Heard, Report, CharReq, LastHandle;
  }

  // No response names 0xFFFF last.
  predicate NoWrap(rs: seq<Reply>)
    requires AllReadable(rs)
  {
    forall k :: 0 <= k < |rs| ==> Heard(rs[k]).Some? ==> LastHandle(Heard(rs[k]).value) != 0xFFFF
  }

  lemma {:induction false} Ends(want: Option<Uuid>, s: Chars, rs: seq<Reply>)
    requires AllReadable(rs) && NoWrap(rs) && (want.Some? ==> !want.value.Unspec?)
    requires |rs| >= 1 && |rs| > s.end as int - s.start
    ensures Run(want, s, rs).next.Finish?
    decreases |rs|
  {
    hide Step, Readable, Heard;
    if s.next.Ask? {
      var s1 := Step(want, s, rs[0]);
      if s1.next.Ask? {
        RisesUnlessLast(want, s, rs[0]);
        Ends(want, s1, rs[1..]);
      }
    }
  }

  // One declaration at 0xFFFF, sent again and again, keeps the discovery asking for ever.
  const LOOP: Reply := Reply(0, [READ_BY_TYPE_RSP, 7, 0xFF, 0xFF, 0, 0, 0, 0, 0])

  lemma LoopHeard()
    ensures Readable(LOOP) && Heard(LOOP) == Some([Decl(0xFFFF, 0, 0, U16(0))])
  {
    var d := Decl(0xFFFF, 0, 0, U16(0));
    assert PutLe16(0xFFFF) == [0xFF, 0xFF] && PutLe16(0) == [0, 0];
    assert UuidBytes(U16(0)) == [0, 0];
    var e := Entry(d);
    assert e == [0xFF, 0xFF, 0, 0, 0, 0, 0];
    assert Entries([d]) == [e];
    assert Flatten([e]) == e + Flatten([]);
    Decoded([d], LOOP);
  }

  lemma {:induction false} WrapNeverEnds(s: Chars, rs: seq<Reply>)
    requires s.next.Ask? && s.end >= 1
    requires AllReadable(rs) && forall k :: 0 <= k < |rs| ==> rs[k] == LOOP
    ensures Run(None, s, rs).next.Ask? && (rs != [] ==> Run(None, s, rs).start == 0)
    decreases |rs|
  {
    if rs != [] {
      LoopHeard();
      WrapNeverEnds(Step(None, s, LOOP), rs[1..]);
    }
  }

  // ---- The program ---------------------------------------------------------------------------

  // struct discover_char
  class DiscoverChar {
    const uuid: Option<Uuid>
    const end: u16
    var start: u16
    var characteristics: seq<Char>
    var next: Next

    function State(): Chars
      reads this
    {
      Chars(start, end, characteristics, next)
    }

    // gatt_discover_char
    constructor (start: u16, end: u16, uuid: Option<Uuid>)
      ensures State() == Init(start, end) && this.uuid == uuid
    {
      this.uuid, this.end, this.start, characteristics := uuid, end, start, [];
      next := Ask(CharReq(start, end));
    }

    // char_discovered_cb
    method CharDiscoveredCb(r: Reply)
      requires Readable(r) && (uuid.Some? ==> !uuid.value.Unspec?)
      modifies this
      ensures State() == Step(uuid, old(State()), r)
    {
      hide TypeList, Report, CharReq, DeclsOf;
      if r.status == ECODE_ATTR_NOT_FOUND {
        next := Finish(if characteristics != [] then 0 else r.status);
        return;
      }
      if r.status != 0 {
        next := Finish(r.status);
        return;
      }
      var list := DecReadByTypeResp(r.pdu);
      if list.None? {
        next := Finish(ECODE_IO);
        return;
      }
      var last := AddChars(list.value.data);
      if last < start {
        next := Finish(ECODE_UNLIKELY);
        return;
      }
      start := Succ16(last);
      next := if last != 0 && start < end then Ask(CharReq(start, end)) else Finish(0);
    }

    // The loop of char_discovered_cb
    method AddChars(es: seq<seq<byte>>) returns (last: u16)
      requires (forall k :: 0 <= k < |es| ==> EntryOk(es[k])) && (uuid.Some? ==> !uuid.value.Unspec?)
      modifies this`characteristics
      ensures characteristics == old(characteristics) + Report(uuid, DeclsOf(es)) && last == LastHandle(DeclsOf(es))
    {
      last := 0;
      ghost var was := characteristics;
      ReadNone(uuid, was);
      hide Read, Report, DeclOf, EntryOk;
      for i := 0 to |es|
        invariant Read(uuid, es[..i], was, characteristics, last)
      {
        ReadNext(uuid, es, i, was, characteristics, last);
        last := GetLe16(es[i], 0);
        AddChar(es[i]);
      }
      assert es[..|es|] == es;
      ReadIs(uuid, es, was, characteristics, last);
    }

    method AddChar(value: seq<byte>)
      requires EntryOk(value) && (uuid.Some? ==> !uuid.value.Unspec?)
      modifies this`characteristics
      ensures characteristics == old(characteristics) + Report(uuid, [DeclOf(value)])
    {
      var uuid128 := FromLe(if |value| == 7 then value[5..7] else value[5..21]);
      if uuid.Some? && Compare(uuid.value, uuid128) != 0 {
        return;
      }
      characteristics := characteristics + [Char(GetLe16(value, 0), value[2], GetLe16(value, 3), Text(uuid128))];
    }
  }

  // What the loop has done with the entries read so far.
  ghost predicate Read(want: Option<Uuid>, es: seq<seq<byte>>, was: seq<Char>, now: seq<Char>, last: u16) {
    && (forall k :: 0 <= k < |es| ==> EntryOk(es[k])) && (want.Some? ==> !want.value.Unspec?)
    && now == was + Report(want, DeclsOf(es)) && last == LastHandle(DeclsOf(es))
  }

  lemma ReadNone(want: Option<Uuid>, was: seq<Char>)
    requires want.Some? ==> !want.value.Unspec?
    ensures Read(want, [], was, was, 0)
  {
  }

  lemma ReadIs(want: Option<Uuid>, es: seq<seq<byte>>, was: seq<Char>, now: seq<Char>, last: u16)
    requires Read(want, es, was, now, last)
    requires (forall k :: 0 <= k < |es| ==> EntryOk(es[k])) && (want.Some? ==> !want.value.Unspec?)
    ensures now == was + Report(want, DeclsOf(es)) && last == LastHandle(DeclsOf(es))
  {
  }

  lemma ReadNext(want: Option<Uuid>, es: seq<seq<byte>>, i: nat, was: seq<Char>, now: seq<Char>, last: u16)
    requires i < |es| && Read(want, es[..i], was, now, last) && (want.Some? ==> !want.value.Unspec?) && EntryOk(es[i])
    ensures Read(want, es[..i + 1], was, now + Report(want, [DeclOf(es[i])]), GetLe16(es[i], 0))
  {
    hide Report, EntryOk, GetLe16;
    var part := es[..i];
    assert es[..i + 1] == part + [es[i]];
    assert forall k :: 0 <= k < i ==> EntryOk(part[k]);
    assert DeclsOf(part + [es[i]]) == DeclsOf(part) + [DeclOf(es[i])];
    ReportConcat(want, DeclsOf(part), [DeclOf(es[i])]);
    assert was + Report(want, DeclsOf(part)) + Report(want, [DeclOf(es[i])]) == was + (Report(want, DeclsOf(part)) + Report(want, [DeclOf(es[i])]));
    HandleOf(es[i]);
    hide DeclOf;
  }

  lemma HandleOf(e: seq<byte>)
    requires EntryOk(e)
    ensures DeclOf(e).handle == GetLe16(e, 0)
  {
  }
}
