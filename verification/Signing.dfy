// Signed writes: the signature of src/shared/crypto.c and its two users in src/shared/att.c,
// encode_pdu and handle_signed.  The AES-CMAC is any function from a key and a message to 16 bytes.

module Signing {
  import opened Wire
  import opened Opcodes
  import opened Uuids
  import B = BearerSpec

  type Mac = (Bytes16, seq<byte>) -> Bytes16

  const SIGN_LEN: nat := 12

  // What bt_crypto_sign_att writes: the counter takes bytes 8 to 11 of the MAC, the whole is turned
  // round, and its first four bytes are dropped.
  function Signature(mac: Mac, key: Bytes16, m: seq<byte>, cnt: u32): (sig: seq<byte>)
    ensures |sig| == SIGN_LEN
  {
    var out := mac(Reverse(key), Reverse(m + PutLe32(cnt)));
    Reverse(out[..8] + PutBe32(cnt) + out[12..])[4..]
  }

  // bt_crypto_verify_att_sign
  predicate Verifies(mac: Mac, key: Bytes16, pdu: seq<byte>) {
    && |pdu| >= SIGN_LEN
    && var n := |pdu| - SIGN_LEN;
       Signature(mac, key, pdu[..n], GetLe32(pdu, n)) == pdu[n..]
  }

  lemma Le32Back(v: u32, rest: seq<byte>)
    ensures GetLe32(PutLe32(v) + rest, 0) == v && PutLe32(v) == Reverse(PutBe32(v))
  {
    var s := PutLe32(v) + rest;
    assert s[0] == v % 0x1_0000 % 0x100 && s[1] == v % 0x1_0000 / 0x100 && s[2] == v / 0x1_0000 % 0x100 && s[3] == v / 0x1_0000 / 0x100;
    assert PutLe32(v) == [s[0], s[1], s[2], s[3]];
    assert PutBe32(v) == [s[3], s[2], s[1], s[0]];
  }

  // The 12 bytes are the counter, least significant byte first, and the top half of the MAC.
  lemma SignatureLayout(mac: Mac, key: Bytes16, m: seq<byte>, cnt: u32)
    ensures Signature(mac, key, m, cnt) == PutLe32(cnt) + Reverse(mac(Reverse(key), Reverse(m + PutLe32(cnt)))[..8])
    ensures GetLe32(Signature(mac, key, m, cnt), 0) == cnt
  {
    var out := mac(Reverse(key), Reverse(m + PutLe32(cnt)));
    var top, bottom := Reverse(out[..8]), Reverse(out[12..]);
    Le32Back(cnt, top);
    hide PutBe32, PutLe32, GetLe32;
    var be := PutBe32(cnt);
    assert Reverse(out[..8] + be + out[12..]) == bottom + Reverse(be) + top;
  }

  // ---- Buffers -------------------------------------------------------------------------------

  // swap_buf
  method SwapBuf(src: array<byte>, dst: array<byte>, len: nat)
    requires src != dst && len <= src.Length && len <= dst.Length
    modifies dst
    ensures dst[..len] == Reverse(src[..len])
    ensures forall k :: len <= k < dst.Length ==> dst[k] == old(dst[k])
  {
    for i := 0 to len
      invariant forall k :: 0 <= k < i ==> dst[len - 1 - k] == src[k]
      invariant forall k :: len <= k < dst.Length ==> dst[k] == old(dst[k])
    {
      dst[len - 1 - i] := src[i];
    }
    forall k | 0 <= k < len ensures dst[..len][k] == Reverse(src[..len])[k] {
      assert dst[len - 1 - (len - 1 - k)] == src[len - 1 - k];
    }
  }

  method Fill(dst: array<byte>, at: nat, s: seq<byte>)
    requires at + |s| <= dst.Length
    modifies dst
    ensures dst[..] == old(dst[..at]) + s + old(dst[at + |s|..])
  {
    forall j | 0 <= j < |s| {
      dst[at + j] := s[j];
    }
  }

  // A buffer filled with `s`, turned round into a second one.
  method Turned(s: seq<byte>) returns (r: seq<byte>)
    ensures r == Reverse(s)
  {
    var src, dst := new byte[|s|](_ => 0), new byte[|s|](_ => 0);
    Fill(src, 0, s);
    SwapBuf(src, dst, |s|);
    assert src[..|s|] == src[..] == s && dst[..|s|] == dst[..];
    r := dst[..];
  }

  // bt_crypto_sign_att; the message length is a 16-bit number.  `works` says that there is a crypto
  // object and that its socket takes the key and the message.
  method SignAtt(mac: Mac, works: bool, key: Bytes16, m: seq<byte>, cnt: u32) returns (signature: Option<seq<byte>>)
    requires |m| + 4 < 0x1_0000
    ensures signature == if works then Some(Signature(mac, key, m, cnt)) else None
  {
    if !works {
      return None;
    }
    var msg := new byte[|m| + 4](_ => 0);
    Fill(msg, 0, m);
    Fill(msg, |m|, PutLe32(cnt));
    assert msg[..] == m + PutLe32(cnt);
    var tmp := Turned(key);
    var swapped := Turned(msg[..]);
    var sum := mac(tmp, swapped);
    var out := new byte[16](_ => 0);
    Fill(out, 0, sum);
    assert out[..] == sum;
    Fill(out, 8, PutBe32(cnt));
    assert out[..] == sum[..8] + PutBe32(cnt) + sum[12..];
    tmp := Turned(out[..]);
    assert tmp[4..16] == tmp[4..];
    signature := Some(tmp[4..16]);
  }

  // bt_crypto_verify_att_sign
  method VerifyAttSign(mac: Mac, works: bool, key: Bytes16, pdu: seq<byte>) returns (ok: bool)
    requires |pdu| < 0x1_0000
    ensures ok == (works && Verifies(mac, key, pdu))
  {
    if |pdu| < SIGN_LEN {
      return false;
    }
    var n := |pdu| - SIGN_LEN;
    var generated := SignAtt(mac, works, key, pdu[..n], GetLe32(pdu, n));
    return generated == Some(pdu[n..]);
  }

  // ---- Sending and receiving -----------------------------------------------------------------

  // encode_pdu: `sign` is the local key, `counter` what its counter callback answers, and `junk`
  // whatever the allocator left behind the payload.  The length is a 16-bit number.
  function EncodePdu(mac: Mac, works: bool, mtu: u16, crypto: bool, sign: Option<Bytes16>, counter: Option<u32>, junk: seq<byte>,
                     opcode: byte, payload: seq<byte>): Option<seq<byte>>
    requires |payload| + 1 + SIGN_LEN < 0x1_0000 && |junk| == SIGN_LEN
  {
    var signs := sign.Some? && Signed(opcode);
    var len := 1 + (if signs then SIGN_LEN else 0) + |payload|;
    var body := [opcode] + payload;
    if len > mtu then None
    else if !signs then Some(body)
    else if !crypto then Some(body + junk)
    else match counter
      case None => None
      case Some(cnt) => if !works then None else Some(body + Signature(mac, sign.value, body, cnt))
  }

  // handle_signed: `accepted` is what the remote counter callback answers.
  predicate HandleSigned(mac: Mac, works: bool, sign: Option<Bytes16>, accepted: u32 -> bool, pdu: seq<byte>) {
    && |pdu| >= 3 + SIGN_LEN && sign.Some?
    && accepted(GetLe32(pdu, |pdu| - SIGN_LEN))
    && works && Verifies(mac, sign.value, pdu)
  }

  // The payload a handler is given once the signature is taken off.
  function Stripped(pdu: seq<byte>): seq<byte>
    requires |pdu| >= 1 + SIGN_LEN
  {
    pdu[1..|pdu| - SIGN_LEN]
  }

  lemma LastTwelve(body: seq<byte>, sig: seq<byte>)
    requires |sig| == SIGN_LEN
    ensures var pdu := body + sig;
            pdu[..|body|] == body && pdu[|body|..] == sig && GetLe32(pdu, |body|) == GetLe32(sig, 0)
  {
  }

  // Where signing works, a signed PDU passes the receiver's check under the same key exactly when its payload has at least
  // two bytes and the receiver accepts the counter it was signed with; the handler gets the payload.
  lemma SignedWriteArrives(mac: Mac, mtu: u16, key: Bytes16, cnt: u32, junk: seq<byte>, opcode: byte, payload: seq<byte>,
                           accepted: u32 -> bool)
    requires |payload| + 1 + SIGN_LEN < 0x1_0000 && |junk| == SIGN_LEN && Signed(opcode)
    ensures var pdu := EncodePdu(mac, true, mtu, true, Some(key), Some(cnt), junk, opcode, payload);
            && (pdu.Some? <==> |payload| + 13 <= mtu)
            && (pdu.Some? ==> (HandleSigned(mac, true, Some(key), accepted, pdu.value) <==> |payload| >= 2 && accepted(cnt))
                              && Stripped(pdu.value) == payload)
  {
    var body := [opcode] + payload;
    var sig := Signature(mac, key, body, cnt);
    SignatureLayout(mac, key, body, cnt);
    LastTwelve(body, sig);
    hide Signature, GetLe32;
  }

  // The check admits nothing but what signing under that key produces.
  lemma AcceptedWasSigned(mac: Mac, key: Bytes16, accepted: u32 -> bool, pdu: seq<byte>)
    ensures HandleSigned(mac, true, Some(key), accepted, pdu) <==>
            exists body, cnt: u32 :: |body| >= 3 && accepted(cnt) && pdu == body + Signature(mac, key, body, cnt)
  {
    hide GetLe32;
    if HandleSigned(mac, true, Some(key), accepted, pdu) {
      var n := |pdu| - SIGN_LEN;
      assert pdu == pdu[..n] + Signature(mac, key, pdu[..n], GetLe32(pdu, n));
    }
    forall body: seq<byte>, cnt: u32 | |body| >= 3 && accepted(cnt) && pdu == body + Signature(mac, key, body, cnt)
      ensures HandleSigned(mac, true, Some(key), accepted, pdu)
    {
      SignatureLayout(mac, key, body, cnt);
      LastTwelve(body, Signature(mac, key, body, cnt));
    }
  }

  // Without a local key the operation's PDU is what the bearer model sends.
  lemma UnsignedPdu(mac: Mac, works: bool, a: B.Att, counter: Option<u32>, junk: seq<byte>, opcode: byte, payload: seq<byte>, callback: bool, destroy: bool)
    requires |payload| + 1 + SIGN_LEN < 0x1_0000 && |junk| == SIGN_LEN
    requires !OpTypeOf(opcode).Unknown? && callback == (OpTypeOf(opcode).Req? || OpTypeOf(opcode).Ind?)
    ensures var pdu := EncodePdu(mac, works, a.mtu, a.crypto, None, counter, junk, opcode, payload);
            var op := B.CreateOp(a, opcode, payload, callback, destroy);
            if op.None? then pdu.None? else pdu == Some(op.value.pdu)
  {
  }
}
