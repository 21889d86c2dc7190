// The PDU codecs of attrib/att.c: list responses cut to the buffer, reads, prepared writes and the
// requests of the discovery procedures.
//
// A PDU is at most 65535 bytes: its length is returned as a 16-bit number.

module AttPdus {
  import opened Wire
  import opened Opcodes
  import opened Uuids

  // struct att_data_list: `len` is the width of every entry.
  datatype DataList = DataList(len: nat, data: seq<seq<byte>>)

  // struct att_range
  datatype Range = Range(start: u16, end: u16)

  predicate Wide(es: seq<seq<byte>>, width: nat) { forall k :: 0 <= k < |es| ==> |es[k]| == width }

  // att_data_list_alloc refuses wider entries.
  predicate ListOk(list: DataList) { list.len <= 0xFF && Wide(list.data, list.len) }

  function Flatten(es: seq<seq<byte>>): seq<byte> {
    if es == [] then [] else es[0] + Flatten(es[1..])
  }

  // Whole entries of a byte string; an incomplete tail is dropped.
  function Chunks(s: seq<byte>, width: nat): (es: seq<seq<byte>>)
    requires width > 0
    ensures Wide(es, width)
    decreases |s|
  {
    if |s| < width then [] else [s[..width]] + Chunks(s[width..], width)
  }

  // How many of num entries fit in room bytes.
  function Fit(num: nat, width: nat, room: nat): (k: nat)
    ensures k <= num
  {
    if num == 0 || width > room then 0 else 1 + Fit(num - 1, width, room - width)
  }

  function Cut(es: seq<seq<byte>>, width: nat): (r: seq<seq<byte>>)
    requires forall k :: 0 <= k < |es| ==> |es[k]| >= width
    ensures |r| == |es| && Wide(r, width)
    ensures forall k :: 0 <= k < |es| ==> r[k] == es[k][..width]
  {
    seq(|es|, k requires 0 <= k < |es| => es[k][..width])
  }

  // ---- What the list codecs compute ----------------------------------------------------------

  function Fitting(es: seq<seq<byte>>, width: nat, room: nat): seq<seq<byte>> { es[..Fit(|es|, width, room)] }

  function GrpPdu(list: DataList, len: nat): seq<byte>
    requires ListOk(list) && list.len + 2 <= len
  {
    [READ_BY_GRP_RSP, list.len] + Flatten(Fitting(list.data, list.len, len - 2))
  }

  function TypePdu(list: DataList, len: nat): seq<byte>
    requires ListOk(list) && 2 <= len
  {
    var w := Min(len - 2, list.len);
    [READ_BY_TYPE_RSP, w] + Flatten(Fitting(Cut(list.data, w), w, len - 2))
  }

  function InfoPdu(format: byte, list: DataList, len: nat): seq<byte>
    requires ListOk(list) && list.len + 2 <= len
  {
    [FIND_INFO_RSP, format] + Flatten(Fitting(list.data, list.len, len - 2))
  }

  function RangeBytes(r: Range): seq<byte> { PutLe16(r.start) + PutLe16(r.end) }

  function RangesBytes(rs: seq<Range>): (es: seq<seq<byte>>)
    ensures |es| == |rs| && Wide(es, 4)
    ensures forall k :: 0 <= k < |rs| ==> es[k] == RangeBytes(rs[k])
  {
    seq(|rs|, k requires 0 <= k < |rs| => RangeBytes(rs[k]))
  }

  function FoundPdu(rs: seq<Range>, len: nat): seq<byte>
    requires 1 <= len
  {
    [FIND_BY_TYPE_RSP] + Flatten(Fitting(RangesBytes(rs), 4, len - 1))
  }

  function ListOf(pdu: seq<byte>, opcode: byte, minLen: nat, minWidth: nat): (r: Option<DataList>)
    requires 1 <= |pdu| && 2 <= minLen && 0 < minWidth
    ensures r.Some? ==> ListOk(r.value)
  {
    if pdu[0] != opcode || |pdu| < minLen || pdu[1] < minWidth || (|pdu| - 2) % pdu[1] != 0 then None
    else Some(DataList(pdu[1], Chunks(pdu[2..], pdu[1])))
  }

  function GrpList(pdu: seq<byte>): (r: Option<DataList>)
    requires 1 <= |pdu|
    ensures r.Some? ==> ListOk(r.value)
  {
    ListOf(pdu, READ_BY_GRP_RSP, 7, 5)
  }

  function TypeList(pdu: seq<byte>): (r: Option<DataList>)
    requires 1 <= |pdu|
    ensures r.Some? ==> ListOk(r.value)
  {
    ListOf(pdu, READ_BY_TYPE_RSP, 5, 3)
  }

  function InfoWidth(format: byte): (w: nat)
    ensures 2 <= w <= 18
  {
    2 + (if format == 1 then 2 else if format == 2 then 16 else 0)
  }

  function InfoList(pdu: seq<byte>): (r: Option<DataList>)
    requires 2 <= |pdu|
    ensures r.Some? ==> ListOk(r.value) && r.value.len == InfoWidth(pdu[1])
  {
    if pdu[0] != FIND_INFO_RSP then None
    else Some(DataList(InfoWidth(pdu[1]), Chunks(pdu[2..], InfoWidth(pdu[1]))))
  }

  function RangeAt(s: seq<byte>): Range
    requires |s| == 4
  {
    Range(GetLe16(s, 0), GetLe16(s, 2))
  }

  function RangesOf(es: seq<seq<byte>>): (rs: seq<Range>)
    requires Wide(es, 4)
    ensures |rs| == |es| && forall k :: 0 <= k < |es| ==> rs[k] == RangeAt(es[k])
  {
    seq(|es|, k requires 0 <= k < |es| => RangeAt(es[k]))
  }

  // An empty list is what the decoder returns for a PDU it rejects.
  function FoundRanges(pdu: seq<byte>): seq<Range> {
    if |pdu| < 5 || pdu[0] != FIND_BY_TYPE_RSP || (|pdu| - 1) % 4 != 0 then []
    else RangesOf(Chunks(pdu[1..], 4))
  }

  // ---- Entries and bytes ---------------------------------------------------------------------

  lemma {:induction false} FlattenSnoc(es: seq<seq<byte>>, e: seq<byte>)
    ensures Flatten(es + [e]) == Flatten(es) + e
  {
    if es == [] {
      assert es + [e] == [e] && Flatten([e]) == e + Flatten([]);
    } else {
      FlattenSnoc(es[1..], e);
      assert (es + [e])[1..] == es[1..] + [e];
      assert es[0] + (Flatten(es[1..]) + e) == es[0] + Flatten(es[1..]) + e;
    }
  }

  lemma {:induction false} ChunksFlatten(es: seq<seq<byte>>, width: nat)
    requires width > 0 && Wide(es, width)
    ensures Chunks(Flatten(es), width) == es && |Flatten(es)| % width == 0
    ensures es != [] ==> |Flatten(es)| >= width
  {
    if es != [] {
      var s := Flatten(es);
      ChunksFlatten(es[1..], width);
      assert s[..width] == es[0] && s[width..] == Flatten(es[1..]);
      ModDown(|s|, width);
    }
  }

  lemma ModDown(n: nat, width: nat)
    requires 0 < width <= n
    ensures n % width == (n - width) % width && n / width == (n - width) / width + 1
  {
    var q, r := (n - width) / width, (n - width) % width;
    assert n == width * (q + 1) + r;
    DivUnique(n, width, q + 1, r);
  }

  lemma DivUnique(n: nat, w: nat, q: nat, r: nat)
    requires 0 < w && r < w && n == w * q + r
    ensures n / w == q && n % w == r
  {
    SameQuotient(w, n / w, n % w, q, r);
  }

  lemma SameQuotient(w: nat, q1: int, r1: nat, q: int, r: nat)
    requires r1 < w && r < w && w * q1 + r1 == w * q + r
    ensures q1 == q && r1 == r
  {
    if q1 < q {
      Product(w, q1, q);
    } else if q < q1 {
      Product(w, q, q1);
    }
  }

  lemma {:induction false} Product(w: nat, a: int, b: int)
    requires a < b
    ensures w * b >= w * a + w
    decreases b - a
  {
    if a + 1 < b {
      Product(w, a, b - 1);
      assert w * b == w * (b - 1) + w;
    } else {
      assert w * (a + 1) == w * a + w;
    }
  }

  lemma {:induction false} FlattenChunks(s: seq<byte>, width: nat)
    requires width > 0
    ensures Flatten(Chunks(s, width)) == s[..|s| - |s| % width]
    ensures |Chunks(s, width)| == |s| / width
    decreases |s|
  {
    if |s| >= width {
      ModDown(|s|, width);
      var t := s[width..];
      FlattenChunks(t, width);
      var cs := Chunks(s, width);
      assert cs[1..] == Chunks(t, width) && cs[0] == s[..width];
      hide Chunks;
      var n := |t| - |t| % width;
      assert |s| - |s| % width == width + n;
      SplitAt(s, width, n);
    }
  }

  lemma SplitAt(s: seq<byte>, n: nat, m: nat)
    requires n + m <= |s|
    ensures s[..n] + s[n..][..m] == s[..n + m]
  {
  }

  // Fit is the longest prefix that fits.
  lemma {:induction false} FitIsLongest(num: nat, width: nat, room: nat)
    ensures Fit(num, width, room) * width <= room
    ensures Fit(num, width, room) < num ==> (Fit(num, width, room) + 1) * width > room
  {
    if num > 0 && width <= room {
      FitIsLongest(num - 1, width, room - width);
    }
  }

  lemma {:induction false} FitAll(num: nat, width: nat, room: nat)
    requires num * width <= room
    ensures Fit(num, width, room) == num
  {
    if num > 0 {
      assert num * width == (num - 1) * width + width && (num - 1) * width >= 0;
      FitAll(num - 1, width, room - width);
    }
  }

  lemma {:induction false} FlattenLength(es: seq<seq<byte>>, width: nat)
    requires Wide(es, width)
    ensures |Flatten(es)| == |es| * width
  {
    if es != [] {
      FlattenLength(es[1..], width);
      assert |es| * width == (|es| - 1) * width + width;
    }
  }

  lemma {:induction false} FittingBytes(es: seq<seq<byte>>, width: nat, room: nat)
    requires width > 0 && Wide(es, width)
    ensures var fit := Fitting(es, width, room);
            && Wide(fit, width) && Chunks(Flatten(fit), width) == fit && |Flatten(fit)| % width == 0
            && |Flatten(fit)| == |fit| * width <= room
            && (es != [] && width <= room ==> |fit| > 0 && |Flatten(fit)| >= width)
  {
    var fit := Fitting(es, width, room);
    ChunksFlatten(fit, width);
    FlattenLength(fit, width);
    FitIsLongest(|es|, width, room);
  }

  lemma ListOfPdu(opcode: byte, fit: seq<seq<byte>>, width: nat, minLen: nat, minWidth: nat)
    requires 2 <= minLen == 2 + minWidth && 0 < minWidth && width <= 0xFF && Wide(fit, width)
    ensures var pdu := [opcode, width] + Flatten(fit);
            ListOf(pdu, opcode, minLen, minWidth) == if width >= minWidth && fit != [] then Some(DataList(width, fit)) else None
  {
    var pdu := [opcode, width] + Flatten(fit);
    assert pdu[2..] == Flatten(fit);
    if width > 0 {
      ChunksFlatten(fit, width);
    }
    hide Chunks, Flatten;
  }

  // Decoding an encoded list gives exactly the longest prefix that fitted, provided there is one and
  // its entries are as wide as the decoder demands; otherwise the decoder refuses the PDU.
  lemma GrpRoundTrip(list: DataList, len: nat)
    requires ListOk(list) && list.len + 2 <= len
    ensures GrpList(GrpPdu(list, len)) ==
            if list.len >= 5 && list.data != [] then Some(DataList(list.len, Fitting(list.data, list.len, len - 2))) else None
  {
    var fit := Fitting(list.data, list.len, len - 2);
    if list.len > 0 {
      FittingBytes(list.data, list.len, len - 2);
    }
    ListOfPdu(READ_BY_GRP_RSP, fit, list.len, 7, 5);
  }

  // Read By Type also cuts each entry to the room there is.
  lemma TypeRoundTrip(list: DataList, len: nat)
    requires ListOk(list) && 2 <= len
    ensures var w := Min(len - 2, list.len);
            TypeList(TypePdu(list, len)) ==
            if w >= 3 && list.data != [] then Some(DataList(w, Fitting(Cut(list.data, w), w, len - 2))) else None
  {
    var w := Min(len - 2, list.len);
    var fit := Fitting(Cut(list.data, w), w, len - 2);
    if w > 0 {
      FittingBytes(Cut(list.data, w), w, len - 2);
    }
    ListOfPdu(READ_BY_TYPE_RSP, fit, w, 5, 3);
  }

  // Find Information: exact precisely when the entries have the width the format stands for.
  lemma InfoRoundTrip(format: byte, list: DataList, len: nat)
    requires ListOk(list) && list.len + 2 <= len
    ensures InfoList(InfoPdu(format, list, len)) == Some(DataList(list.len, Fitting(list.data, list.len, len - 2)))
            <==> list.len == InfoWidth(format)
  {
    var fit := Fitting(list.data, list.len, len - 2);
    var pdu := InfoPdu(format, list, len);
    assert pdu[2..] == Flatten(fit);
    if list.len > 0 {
      FittingBytes(list.data, list.len, len - 2);
    }
  }

  lemma RangeBack(r: Range)
    ensures |RangeBytes(r)| == 4 && RangeAt(RangeBytes(r)) == r
  {
    var s := RangeBytes(r);
    assert s[0] == r.start % 0x100 && s[1] == r.start / 0x100 && s[2] == r.end % 0x100 && s[3] == r.end / 0x100;
  }

  lemma BytesBack(s: seq<byte>)
    requires |s| == 4
    ensures RangeBytes(RangeAt(s)) == s
  {
    var a: int, b: int, c: int, d: int := s[0], s[1], s[2], s[3];
    assert (a + 0x100 * b) % 0x100 == a && (a + 0x100 * b) / 0x100 == b;
    assert (c + 0x100 * d) % 0x100 == c && (c + 0x100 * d) / 0x100 == d;
  }

  lemma FoundRoundTrip(rs: seq<Range>, len: nat)
    requires 1 <= len
    ensures FoundRanges(FoundPdu(rs, len)) == rs[..Fit(|rs|, 4, len - 1)]
  {
    var k := Fit(|rs|, 4, len - 1);
    var fit := Fitting(RangesBytes(rs), 4, len - 1);
    var pdu := FoundPdu(rs, len);
    FittingBytes(RangesBytes(rs), 4, len - 1);
    assert pdu[1..] == Flatten(fit);
    forall j | 0 <= j < k ensures RangeAt(fit[j]) == rs[j] {
      RangeBack(rs[j]);
    }
  }

  // Re-encoding whatever the by-group decoder accepts gives the same bytes back.
  lemma GrpReencode(pdu: seq<byte>, len: nat)
    requires 1 <= |pdu| <= len && GrpList(pdu).Some?
    ensures var list := GrpList(pdu).value; list.len + 2 <= len && GrpPdu(list, len) == pdu
  {
    var w := pdu[1];
    FlattenChunks(pdu[2..], w);
    Reencoded(pdu, w, len);
  }

  lemma Reencoded(pdu: seq<byte>, w: nat, len: nat)
    requires 2 <= |pdu| <= len && 0 < w && |pdu| > 2 && (|pdu| - 2) % w == 0
    ensures Flatten(Fitting(Chunks(pdu[2..], w), w, len - 2)) == pdu[2..] && w + 2 <= |pdu|
  {
    var es := Chunks(pdu[2..], w);
    FlattenChunks(pdu[2..], w);
    FlattenLength(es, w);
    FitAll(|es|, w, len - 2);
    assert Fitting(es, w, len - 2) == es;
  }

  lemma CutSame(es: seq<seq<byte>>, width: nat)
    requires Wide(es, width)
    ensures Cut(es, width) == es
  {
    forall k | 0 <= k < |es| ensures Cut(es, width)[k] == es[k] {
      assert es[k][..width] == es[k];
    }
  }

  lemma TypeReencode(pdu: seq<byte>, len: nat)
    requires 1 <= |pdu| <= len && TypeList(pdu).Some?
    ensures TypePdu(TypeList(pdu).value, len) == pdu
  {
    var w, list := pdu[1], TypeList(pdu).value;
    Reencoded(pdu, w, len);
    CutSame(list.data, w);
    hide Chunks, Fit;
  }

  lemma FoundReencode(pdu: seq<byte>, len: nat)
    requires |pdu| <= len && FoundRanges(pdu) != []
    ensures FoundPdu(FoundRanges(pdu), len) == pdu
  {
    var body := pdu[1..];
    var es := Chunks(body, 4);
    FlattenChunks(body, 4);
    FlattenLength(es, 4);
    FitAll(|es|, 4, len - 1);
    var rs := FoundRanges(pdu);
    forall k | 0 <= k < |es| ensures RangesBytes(rs)[k] == es[k] {
      BytesBack(es[k]);
    }
    assert RangesBytes(rs) == es && Fitting(es, 4, len - 1) == es;
  }

  // Find Information drops an incomplete tail, and loses nothing else.
  lemma InfoReencode(pdu: seq<byte>, len: nat)
    requires 2 <= |pdu| <= len && InfoList(pdu).Some? && InfoWidth(pdu[1]) + 2 <= len
    ensures InfoPdu(pdu[1], InfoList(pdu).value, len) == pdu[..|pdu| - (|pdu| - 2) % InfoWidth(pdu[1])]
  {
    var w := InfoWidth(pdu[1]);
    var es := Chunks(pdu[2..], w);
    FlattenChunks(pdu[2..], w);
    FlattenLength(es, w);
    FitAll(|es|, w, len - 2);
    assert Fitting(es, w, len - 2) == es;
    var n := |pdu| - (|pdu| - 2) % w;
    assert pdu[..n] == pdu[..2] + pdu[2..][..n - 2];
  }

  // What is in a by-type response for entries that are narrow enough not to be cut.
  lemma TypePduUncut(list: DataList, len: nat)
    requires ListOk(list) && 0 < list.len && list.len + 2 <= len && list.data != []
    ensures var k := Fit(|list.data|, list.len, len - 2);
            0 < k && TypePdu(list, len) == [READ_BY_TYPE_RSP, list.len] + Flatten(list.data[..k])
  {
    FittingBytes(list.data, list.len, len - 2);
    CutSame(list.data, list.len);
    hide Fit, Flatten, Cut;
  }

  // ---- Requests for a range of handles -------------------------------------------------------

  datatype Typed = Typed(start: u16, end: u16, uuid: Uuid)

  // enc_read_by_grp_req and enc_read_by_type_req, which differ in the opcode; a UUID that is neither
  // 16 nor 128 bits wide writes nothing.
  function TypedReq(opcode: byte, start: u16, end: u16, uuid: Uuid): seq<byte> {
    if !uuid.U16? && !uuid.U128? then [] else [opcode] + PutLe16(start) + PutLe16(end) + ToLe(uuid).value
  }

  // dec_read_by_grp_req and dec_read_by_type_req
  function TypedReqOf(opcode: byte, pdu: seq<byte>): Option<Typed> {
    if (|pdu| != 7 && |pdu| != 21) || pdu[0] != opcode then None
    else Some(Typed(GetLe16(pdu, 1), GetLe16(pdu, 3), FromLe(pdu[5..])))
  }

  lemma TypedRoundTrip(opcode: byte, start: u16, end: u16, uuid: Uuid)
    ensures uuid.U16? || uuid.U128? ==> TypedReqOf(opcode, TypedReq(opcode, start, end, uuid)) == Some(Typed(start, end, uuid))
    ensures !uuid.U16? && !uuid.U128? ==> TypedReqOf(opcode, TypedReq(opcode, start, end, uuid)) == None
  {
    if uuid.U16? || uuid.U128? {
      LeRoundTrip(uuid);
      PrepHeader(opcode, start, end, ToLe(uuid).value);
      hide FromLe, ToLe;
    }
  }

  lemma TypedReencode(opcode: byte, pdu: seq<byte>)
    requires TypedReqOf(opcode, pdu).Some?
    ensures var t := TypedReqOf(opcode, pdu).value; TypedReq(opcode, t.start, t.end, t.uuid) == pdu
  {
    FromLeBack(pdu[5..]);
    assert PutLe16(GetLe16(pdu, 1)) == pdu[1..3];
    assert PutLe16(GetLe16(pdu, 3)) == pdu[3..5];
    assert pdu == [pdu[0]] + pdu[1..3] + pdu[3..5] + pdu[5..];
    hide ToLe;
  }

  // ---- Reads and prepared writes -------------------------------------------------------------

  function ReadReq(handle: u16): seq<byte> { [READ_REQ] + PutLe16(handle) }

  function BlobReq(handle: u16, offset: u16): seq<byte> { [READ_BLOB_REQ] + PutLe16(handle) + PutLe16(offset) }

  function ReadPdu(value: seq<byte>, len: nat): seq<byte>
    requires 1 <= len
  {
    [READ_RSP] + value[..Min(|value|, len - 1)]
  }

  function BlobPdu(value: seq<byte>, offset: nat, len: nat): seq<byte>
    requires 1 <= len && offset <= |value|
  {
    [READ_BLOB_RSP] + value[offset..][..Min(|value| - offset, len - 1)]
  }

  // enc_prep_write_req and enc_prep_write_resp differ in the opcode only.
  function PrepPdu(opcode: byte, handle: u16, offset: u16, value: seq<byte>, len: nat): seq<byte>
    requires 5 <= len
  {
    [opcode] + PutLe16(handle) + PutLe16(offset) + value[..Min(|value|, len - 5)]
  }

  datatype Prepared = Prepared(handle: u16, offset: u16, value: seq<byte>)

  // dec_prep_write_req
  function PrepReqOf(pdu: seq<byte>): Option<Prepared> {
    if |pdu| < 5 || pdu[0] != PREP_WRITE_REQ then None
    else Some(Prepared(GetLe16(pdu, 1), GetLe16(pdu, 3), pdu[5..]))
  }

  // dec_prep_write_resp tests the opcode of the request.
  function PrepRspOf(pdu: seq<byte>): Option<Prepared> {
    if |pdu| < 5 || pdu[0] != PREP_WRITE_REQ then None
    else Some(Prepared(GetLe16(pdu, 1), GetLe16(pdu, 3), pdu[5..]))
  }

  lemma PrepHeader(opcode: byte, handle: u16, offset: u16, rest: seq<byte>)
    ensures var pdu := [opcode] + PutLe16(handle) + PutLe16(offset) + rest;
            |pdu| >= 5 && pdu[0] == opcode && GetLe16(pdu, 1) == handle && GetLe16(pdu, 3) == offset && pdu[5..] == rest
  {
    var pdu := [opcode] + PutLe16(handle) + PutLe16(offset) + rest;
    assert pdu[1] == handle % 0x100 && pdu[2] == handle / 0x100 && pdu[3] == offset % 0x100 && pdu[4] == offset / 0x100;
  }

  lemma PrepRoundTrip(handle: u16, offset: u16, value: seq<byte>, len: nat)
    requires 5 <= len
    ensures PrepReqOf(PrepPdu(PREP_WRITE_REQ, handle, offset, value, len))
            == Some(Prepared(handle, offset, value[..Min(|value|, len - 5)]))
  {
    PrepHeader(PREP_WRITE_REQ, handle, offset, value[..Min(|value|, len - 5)]);
  }

  lemma PrepReencode(pdu: seq<byte>, len: nat)
    requires |pdu| <= len && PrepReqOf(pdu).Some?
    ensures var p := PrepReqOf(pdu).value; 5 <= len && PrepPdu(PREP_WRITE_REQ, p.handle, p.offset, p.value, len) == pdu
  {
    assert PutLe16(GetLe16(pdu, 1)) == pdu[1..3];
    assert PutLe16(GetLe16(pdu, 3)) == pdu[3..5];
    assert pdu == [pdu[0]] + pdu[1..3] + pdu[3..5] + pdu[5..];
  }

  // The prepare-write response decoder inverts no response at all: it refuses every PDU the response
  // encoder writes, and reads requests instead.
  lemma PrepRspIsNoInverse(handle: u16, offset: u16, value: seq<byte>, len: nat, pdu: seq<byte>)
    requires 5 <= len
    ensures PrepRspOf(PrepPdu(PREP_WRITE_RSP, handle, offset, value, len)) == None
    ensures PrepRspOf(pdu) == PrepReqOf(pdu)
    ensures PrepRspOf(pdu).Some? ==> pdu != PrepPdu(PREP_WRITE_RSP, handle, offset, value, len)
  {
    PrepHeader(PREP_WRITE_RSP, handle, offset, value[..Min(|value|, len - 5)]);
  }

  // dec_read_resp; vlen None when the caller only asks for the length.
  datatype ReadOut = Length(n: nat) | Value(bytes: seq<byte>) | Invalid | NoSpace

  function ReadRspOf(pdu: seq<byte>, vlen: Option<nat>): ReadOut
    requires 1 <= |pdu|
  {
    if pdu[0] != READ_RSP then Invalid
    else match vlen
      case None => Length(|pdu| - 1)
      case Some(n) => if n < |pdu| - 1 then NoSpace else Value(pdu[1..])
  }

  // A read response carries the first len-1 bytes, and the blob response at any offset carries on
  // from there: what the two together deliver is the value.
  lemma ReadThenBlob(value: seq<byte>, offset: nat, len: nat)
    requires 2 <= len && offset <= |value|
    ensures ReadRspOf(ReadPdu(value, len), Some(len - 1)) == Value(value[..Min(|value|, len - 1)])
    ensures value[..offset] + BlobPdu(value, offset, len)[1..] == value[..Min(|value|, offset + len - 1)]
    ensures |BlobPdu(value, offset, len)| < len <==> offset + len - 1 > |value|
  {
    assert ReadPdu(value, len)[1..] == value[..Min(|value|, len - 1)];
  }
}
