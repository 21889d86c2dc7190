// The encoders and decoders of attrib/att.c as the program runs them: bytes written into the
// caller's buffer, lists filled entry by entry.  Each computes the function of AttPdus it names.

module AttCodec {
  import opened Wire
  import opened Opcodes
  import opened AttPdus

  // `pdu` holds `written` up to w and is unchanged from there on.
  twostate predicate Holds(pdu: array<byte>, written: seq<byte>, w: nat)
    reads pdu
  {
    w == |written| <= pdu.Length && pdu[..w] == written && forall k :: w <= k < pdu.Length ==> pdu[k] == old(pdu[k])
  }

  lemma FitStep(num: nat, width: nat, room: nat)
    requires num > 0 && width <= room
    ensures Fit(num, width, room) == 1 + Fit(num - 1, width, room - width)
  {
  }

  lemma FitStops(num: nat, width: nat, room: nat)
    requires num == 0 || width > room
    ensures Fit(num, width, room) == 0
  {
  }

  lemma FlattenNext(es: seq<seq<byte>>, i: nat)
    requires i < |es|
    ensures Flatten(es[..i + 1]) == Flatten(es[..i]) + es[i]
  {
    assert es[..i + 1] == es[..i] + [es[i]];
    FlattenSnoc(es[..i], es[i]);
  }

  // memcpy
  method Copy(pdu: array<byte>, at: nat, s: seq<byte>)
    requires at + |s| <= pdu.Length
    modifies pdu
    ensures pdu[..at + |s|] == old(pdu[..at]) + s
    ensures forall k :: at + |s| <= k < pdu.Length ==> pdu[k] == old(pdu[k])
  {
    forall j | 0 <= j < |s| {
      pdu[at + j] := s[j];
    }
  }

  // The loop of the three list encoders: the first `width` bytes of every entry that still fits.
  method PutEntries(es: seq<seq<byte>>, width: nat, pdu: array<byte>, len: nat) returns (w: nat)
    requires 2 <= len <= pdu.Length && forall k :: 0 <= k < |es| ==> |es[k]| >= width
    modifies pdu
    ensures Holds(pdu, old(pdu[..2]) + Flatten(Fitting(Cut(es, width), width, len - 2)), w)
  {
    ghost var cut := Cut(es, width);
    var i := 0;
    w := 2;
    ghost var head, done := pdu[..2], Flatten(cut[..0]);
    hide Fit, Flatten, Cut;
    while i < |es| && w + width <= len
      invariant i <= |es| && 2 <= w <= len
      invariant i + Fit(|es| - i, width, len - w) == Fit(|es|, width, len - 2)
      invariant done == Flatten(cut[..i]) && pdu[..w] == head + done
      invariant forall k :: w <= k < pdu.Length ==> pdu[k] == old(pdu[k])
    {
      FlattenNext(cut, i);
      FitStep(|es| - i, width, len - w);
      assert cut[i] == es[i][..width];
      done := done + cut[i];
      Copy(pdu, w, es[i][..width]);
      assert head + done == head + Flatten(cut[..i]) + cut[i];
      w := w + width;
      i := i + 1;
    }
    FitStops(|es| - i, width, len - w);
  }

  // enc_read_by_grp_resp
  method EncReadByGrpResp(list: DataList, pdu: array<byte>, len: nat) returns (w: nat)
    requires ListOk(list) && len <= pdu.Length && len < 0x1_0000
    modifies pdu
    ensures if len < list.len + 2 then w == 0 && pdu[..] == old(pdu[..]) else Holds(pdu, GrpPdu(list, len), w)
  {
    if len < list.len + 2 {
      return 0;
    }
    pdu[0] := READ_BY_GRP_RSP;
    pdu[1] := list.len;
    CutSame(list.data, list.len);
    w := PutEntries(list.data, list.len, pdu, len);
  }

  // enc_read_by_type_resp
  method EncReadByTypeResp(list: DataList, pdu: array<byte>, len: nat) returns (w: nat)
    requires ListOk(list) && 2 <= len <= pdu.Length && len < 0x1_0000
    modifies pdu
    ensures Holds(pdu, TypePdu(list, len), w)
  {
    var l := Min(len - 2, list.len);
    pdu[0] := READ_BY_TYPE_RSP;
    pdu[1] := l;
    w := PutEntries(list.data, l, pdu, len);
  }

  // enc_find_info_resp
  method EncFindInfoResp(format: byte, list: DataList, pdu: array<byte>, len: nat) returns (w: nat)
    requires ListOk(list) && len <= pdu.Length && len < 0x1_0000
    modifies pdu
    ensures if len < list.len + 2 then w == 0 && pdu[..] == old(pdu[..]) else Holds(pdu, InfoPdu(format, list, len), w)
  {
    if len < list.len + 2 {
      return 0;
    }
    pdu[0] := FIND_INFO_RSP;
    pdu[1] := format;
    CutSame(list.data, list.len);
    w := PutEntries(list.data, list.len, pdu, len);
  }

  // enc_find_by_type_resp
  method EncFindByTypeResp(matches: seq<Range>, pdu: array<byte>, len: nat) returns (offset: nat)
    requires 1 <= len <= pdu.Length && len < 0x1_0000
    modifies pdu
    ensures Holds(pdu, FoundPdu(matches, len), offset)
  {
    pdu[0] := FIND_BY_TYPE_RSP;
    ghost var es := RangesBytes(matches);
    var i := 0;
    offset := 1;
    ghost var done := Flatten(es[..0]);
    hide Fit, Flatten, RangesBytes;
    while i < |matches| && len >= offset + 4
      invariant i <= |matches| && 1 <= offset <= len
      invariant i + Fit(|es| - i, 4, len - offset) == Fit(|es|, 4, len - 1)
      invariant done == Flatten(es[..i]) && pdu[..offset] == [FIND_BY_TYPE_RSP] + done
      invariant forall k :: offset <= k < pdu.Length ==> pdu[k] == old(pdu[k])
    {
      FlattenNext(es, i);
      FitStep(|es| - i, 4, len - offset);
      done := done + es[i];
      Copy(pdu, offset, PutLe16(matches[i].start) + PutLe16(matches[i].end));
      i := i + 1;
      offset := offset + 4;
    }
    FitStops(|es| - i, 4, len - offset);
  }

  // enc_read_resp
  method EncReadResp(value: seq<byte>, pdu: array<byte>, len: nat) returns (w: nat)
    requires 1 <= len <= pdu.Length && len < 0x1_0000
    modifies pdu
    ensures Holds(pdu, ReadPdu(value, len), w)
  {
    var vlen := |value|;
    if vlen > len - 1 {
      vlen := len - 1;
    }
    pdu[0] := READ_RSP;
    Copy(pdu, 1, value[..vlen]);
    return vlen + 1;
  }

  // enc_read_blob_resp
  method EncReadBlobResp(value: seq<byte>, offset: u16, pdu: array<byte>, len: nat) returns (w: nat)
    requires offset <= |value| && 1 <= len <= pdu.Length && len < 0x1_0000
    modifies pdu
    ensures Holds(pdu, BlobPdu(value, offset, len), w)
  {
    var vlen := |value| - offset;
    if vlen > len - 1 {
      vlen := len - 1;
    }
    pdu[0] := READ_BLOB_RSP;
    Copy(pdu, 1, value[offset..][..vlen]);
    return vlen + 1;
  }

  // enc_prep_write_req (PREP_WRITE_REQ) and enc_prep_write_resp (PREP_WRITE_RSP)
  method EncPrepWrite(opcode: byte, handle: u16, offset: u16, value: seq<byte>, pdu: array<byte>, len: nat) returns (w: nat)
    requires 5 <= len <= pdu.Length && len < 0x1_0000
    modifies pdu
    ensures Holds(pdu, PrepPdu(opcode, handle, offset, value, len), w)
  {
    var vlen := |value|;
    if vlen > len - 5 {
      vlen := len - 5;
    }
    pdu[0] := opcode;
    Copy(pdu, 1, PutLe16(handle));
    Copy(pdu, 3, PutLe16(offset));
    if vlen > 0 {
      Copy(pdu, 5, value[..vlen]);
    }
    return 5 + vlen;
  }

  // The loop of the three list decoders: num entries of `width` bytes, from byte 2 on.
  method TakeEntries(pdu: seq<byte>, width: nat) returns (data: seq<seq<byte>>)
    requires 2 <= |pdu| && 0 < width
    ensures data == Chunks(pdu[2..], width)
  {
    var num := (|pdu| - 2) / width;
    var i, ptr := 0, 2;
    data := [];
    while i < num
      invariant i <= num && 2 <= ptr <= |pdu| && (|pdu| - ptr) / width == num - i
      invariant data + Chunks(pdu[ptr..], width) == Chunks(pdu[2..], width)
    {
      WholeEntry(|pdu| - ptr, width);
      ModDown(|pdu| - ptr, width);
      ChunksNext(pdu[ptr..], width);
      assert pdu[ptr..][width..] == pdu[ptr + width..];
      assert pdu[ptr..][..width] == pdu[ptr..ptr + width];
      data := data + [pdu[ptr..ptr + width]];
      ptr := ptr + width;
      i := i + 1;
    }
    NoEntry(|pdu| - ptr, width);
    assert Chunks(pdu[ptr..], width) == [];
  }

  lemma ChunksNext(s: seq<byte>, width: nat)
    requires 0 < width <= |s|
    ensures Chunks(s, width) == [s[..width]] + Chunks(s[width..], width)
  {
  }

  lemma WholeEntry(n: nat, width: nat)
    requires 0 < width && n / width > 0
    ensures width <= n
  {
  }

  lemma NoEntry(n: nat, width: nat)
    requires 0 < width && n / width == 0
    ensures n < width
  {
    if n >= width {
      ModDown(n, width);
    }
  }

  // dec_read_by_grp_resp
  method DecReadByGrpResp(pdu: seq<byte>) returns (list: Option<DataList>)
    requires 1 <= |pdu|
    ensures list == GrpList(pdu)
  {
    if pdu[0] != READ_BY_GRP_RSP || |pdu| < 7 {
      return None;
    }
    var elen: nat := pdu[1];
    if elen < 5 || (|pdu| - 2) % elen != 0 {
      return None;
    }
    var data := TakeEntries(pdu, elen);
    return Some(DataList(elen, data));
  }

  // dec_read_by_type_resp
  method DecReadByTypeResp(pdu: seq<byte>) returns (list: Option<DataList>)
    requires 1 <= |pdu|
    ensures list == TypeList(pdu)
  {
    if pdu[0] != READ_BY_TYPE_RSP || |pdu| < 5 {
      return None;
    }
    var elen: nat := pdu[1];
    if elen < 3 || (|pdu| - 2) % elen != 0 {
      return None;
    }
    var data := TakeEntries(pdu, elen);
    return Some(DataList(elen, data));
  }

  // dec_find_info_resp, with the format it reports
  method DecFindInfoResp(pdu: seq<byte>) returns (list: Option<DataList>, format: byte)
    requires 2 <= |pdu|
    ensures list == InfoList(pdu) && (list.Some? ==> format == pdu[1])
  {
    format := 0;
    if pdu[0] != FIND_INFO_RSP {
      return None, format;
    }
    format := pdu[1];
    var elen := 2;
    if format == 1 {
      elen := elen + 2;
    } else if format == 2 {
      elen := elen + 16;
    }
    var data := TakeEntries(pdu, elen);
    list := Some(DataList(elen, data));
  }

  // dec_find_by_type_resp
  method DecFindByTypeResp(pdu: seq<byte>) returns (matches: seq<Range>)
    ensures matches == FoundRanges(pdu)
  {
    matches := [];
    if |pdu| < 5 || pdu[0] != FIND_BY_TYPE_RSP || (|pdu| - 1) % 4 != 0 {
      return;
    }
    var offset := 1;
    ghost var done: seq<seq<byte>> := [];
    while |pdu| >= offset + 4
      invariant 1 <= offset <= |pdu|
      invariant done + Chunks(pdu[offset..], 4) == Chunks(pdu[1..], 4)
      invariant |matches| == |done| && Wide(done, 4) && forall k :: 0 <= k < |done| ==> matches[k] == RangeAt(done[k])
      decreases |pdu| - offset
    {
      ghost var e := pdu[offset..][..4];
      ChunksNext(pdu[offset..], 4);
      assert pdu[offset..][4..] == pdu[offset + 4..];
      matches := matches + [Range(GetLe16(pdu, offset), GetLe16(pdu, offset + 2))];
      assert RangeAt(e) == Range(GetLe16(pdu, offset), GetLe16(pdu, offset + 2));
      done := done + [e];
      offset := offset + 4;
    }
    assert Chunks(pdu[offset..], 4) == [];
    assert done == Chunks(pdu[1..], 4);
  }
}
