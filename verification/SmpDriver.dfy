/** The pairing responder as the source runs it: session fields updated in
    place, a round-key cache, and replies built in the caller's buffer. */
module SmpDriver {
  import opened Aes
  import opened Gf256
  import opened Smp

  lemma ScheduleIsUnique(key: Value, rk: RoundKeys)
    requires IsKeySchedule(key, rk)
    ensures rk == KeySchedule(key)
  {
    hide KeyWord;
    forall i | 0 <= i < ROUND_KEYS ensures rk[i] == KeyWord(key, i / 4)[i % 4] {
      assert rk[4 * (i / 4)..4 * (i / 4) + 4] == KeyWord(key, i / 4);
      assert rk[i] == rk[4 * (i / 4)..4 * (i / 4) + 4][i % 4];
    }
  }

  /** `buf[i] = src[n - 1 - i]`: the copy loops at the wire boundary. */
  method ReverseCopy(src: seq<bv8>) returns (buf: seq<bv8>)
    ensures buf == Reverse(src)
  {
    buf := [];
    for i := 0 to |src|
      invariant buf == Reverse(src)[..i]
    {
      buf := buf + [src[|src| - 1 - i]];
    }
  }

  method ReverseInPlace(a: array<bv8>)
    requires a.Length == BLOCK
    modifies a
    ensures a[..] == Reverse(old(a[..]))
  {
    for i := 0 to BLOCK / 2
      invariant forall k :: 0 <= k < i || BLOCK - i <= k < BLOCK ==> a[k] == old(a[BLOCK - 1 - k])
      invariant forall k :: i <= k < BLOCK - i ==> a[k] == old(a[k])
    {
      var t := a[i];
      a[i] := a[BLOCK - 1 - i];
      a[BLOCK - 1 - i] := t;
    }
  }

  method XorInto(a: array<bv8>, at: nat, b: seq<bv8>)
    requires at + |b| <= a.Length
    modifies a
    ensures a[..at] == old(a[..at]) && a[at + |b|..] == old(a[at + |b|..])
    ensures forall i :: 0 <= i < |b| ==> a[at + i] == Add(old(a[at + i]), b[i])
  {
    hide Add;
    for i := 0 to |b|
      invariant forall k :: 0 <= k < a.Length ==>
        a[k] == if at <= k < at + i then Add(old(a[k]), b[k - at]) else old(a[k])
    {
      a[at + i] := Add(a[at + i], b[i]);
    }
  }

  method SameBytes(a: array<bv8>, b: Value) returns (same: bool)
    requires a.Length == BLOCK
    ensures same <==> a[..] == b
  {
    for i := 0 to BLOCK
      invariant forall k :: 0 <= k < i ==> a[k] == b[k]
    {
      if a[i] != b[i] { return false; }
    }
    return true;
  }

  /** Writes a PDU at the start of the reply buffer. */
  method Put(out: array<bv8>, pdu: seq<bv8>) returns (len: nat)
    requires |pdu| <= out.Length
    modifies out
    ensures len == |pdu| && out[..len] == pdu
  {
    for i := 0 to |pdu|
      invariant forall k :: 0 <= k < i ==> out[k] == pdu[k]
    {
      out[i] := pdu[i];
    }
    return |pdu|;
  }

  /** The bytes of the reply buffer that a PDU has written to: a reply of its
      opcode if it is expected, else a failure. */
  function Room(s: Session, pdu: seq<bv8>): nat {
    if pdu == [] then 0
    else if pdu[0] == OP_REQUEST && |pdu| == PAIRING_PDU then PAIRING_PDU
    else if pdu[0] == OP_CONFIRM && |pdu| == VALUE_PDU && s.phase == AwaitingConfirm then VALUE_PDU
    else if pdu[0] == OP_RANDOM && |pdu| == VALUE_PDU && s.phase == AwaitingRandom then VALUE_PDU
    else FAILED_PDU
  }

  /** No reply is longer than its room, and every accepted one fills it. */
  lemma RoomIsEnough(s: Session, pdu: seq<bv8>, outMax: nat, random: Value)
    ensures var reply := Handle(s, pdu, outMax, random).pdu;
      |reply| <= Room(s, pdu) && (reply != [] && reply[0] != OP_FAILED ==> |reply| == Room(s, pdu))
  {
    hide C1, S1, Tk;
  }


  class Responder {
    var s: Session
    const tkRoundKeys: array<bv8>

    ghost predicate Valid()
      reads this, tkRoundKeys
    {
      tkRoundKeys.Length == ROUND_KEYS
      && (s.tkReady || s.phase == AwaitingRandom ==> tkRoundKeys[..] == KeySchedule(s.tk))
    }

    method Initialize(peer: Addr, peerType: bv8, own: Addr, ownType: bv8, newPasskey: bv32)
      requires Valid()
      modifies this
      ensures Valid() && s == Init(old(s), peer, peerType, own, ownType, newPasskey)
    {
      var iaMsb := ReverseCopy(peer);
      var raMsb := ReverseCopy(own);
      s := s.(phase := Idle, iat := peerType & 1, rat := ownType & 1, ia := iaMsb, ra := raMsb,
              jwMode := true, phase3 := 0, passkey := newPasskey, tkReady := false);
    }

    method EnsureTkKeys()
      requires Valid()
      modifies this, tkRoundKeys
      ensures Valid() && tkRoundKeys[..] == KeySchedule(s.tk)
      ensures s == old(s).(tk := if old(s.tkReady) then old(s.tk) else Tk(s.jwMode, s.passkey), tkReady := true)
    {
      hide PasskeyByte, KeyWord;
      if s.tkReady { return; }
      var key := new bv8[BLOCK](_ => 0);
      if !s.jwMode {
        key[BLOCK - 1] := PasskeyByte(s.passkey, 0);
        key[BLOCK - 2] := PasskeyByte(s.passkey, 1);
        key[BLOCK - 3] := PasskeyByte(s.passkey, 2);
      }
      assert key[..] == Tk(s.jwMode, s.passkey);
      ExpandKey(key, tkRoundKeys);
      ScheduleIsUnique(key[..], tkRoundKeys[..]);
      s := s.(tk := key[..], tkReady := true);
    }

    method LoadP1(out: array<bv8>)
      requires out.Length == BLOCK
      modifies out
      ensures out[..] == s.First()
    {
      for i := 0 to 7
        invariant forall k :: 0 <= k < i ==> out[k] == s.pres[k]
        invariant forall k :: 7 <= k < 7 + i ==> out[k] == s.preq[k - 7]
      {
        out[i] := s.pres[i];
        out[7 + i] := s.preq[i];
      }
      out[BLOCK - 2] := s.rat;
      out[BLOCK - 1] := s.iat;
      assert out[..7] == s.pres;
      forall k | 0 <= k < 7 ensures out[7..14][k] == s.preq[k] {
        var at := 7 + k;
        assert out[at] == s.preq[at - 7];
      }
      assert out[7..14] == s.preq;
      assert out[..] == out[..7] + out[7..14] + [out[14], out[15]];
    }

    /** c1 is built in the buffer that will hold it, both encryptions in place. */
    method ComputeC1(r: Value, out: array<bv8>)
      requires Valid() && tkRoundKeys[..] == KeySchedule(s.tk)
      requires out.Length == BLOCK && out != tkRoundKeys
      modifies out
      ensures out[..] == C1(s.tk, r, s.First(), s.Second())
    {
      hide Cipher, Xor, KeySchedule, Add;
      LoadP1(out);
      ghost var p1 := out[..];
      XorR(out, r);
      XorComm(p1, r);
      EncryptBlock(tkRoundKeys, out, out);
      XorP2(out);
      EncryptBlock(tkRoundKeys, out, out);
    }

    method XorR(out: array<bv8>, r: Value)
      requires out.Length == BLOCK
      modifies out
      ensures out[..] == Xor(old(out[..]), r)
    {
      hide Add;
      XorInto(out, 0, r);
    }

    method XorP2(out: array<bv8>)
      requires out.Length == BLOCK
      modifies out
      ensures out[..] == Xor(old(out[..]), s.Second())
    {
      hide Add;
      ghost var inner := out[..];
      XorInto(out, 4, s.ia);
      XorInto(out, 10, s.ra);
      XorPadded(inner, s.ia, s.ra, out[..]);
    }

    method ComputeS1(r1: Value, r2: Value, out: array<bv8>)
      requires Valid() && tkRoundKeys[..] == KeySchedule(s.tk)
      requires out.Length == BLOCK && out != tkRoundKeys
      modifies out
      ensures out[..] == S1(s.tk, r1, r2)
    {
      hide Cipher;
      for i := 0 to BLOCK / 2
        invariant forall k :: 0 <= k < i ==> out[k] == r1[8..][k]
        invariant forall k :: 8 <= k < 8 + i ==> out[k] == r2[k]
      {
        out[i] := r1[8 + i];
        out[8 + i] := r2[8 + i];
      }
      assert out[..8] == r1[8..] && out[8..] == r2[8..];
      assert out[..] == out[..8] + out[8..];
      EncryptBlock(tkRoundKeys, out, out);
    }

    method OnPairingRequest(pdu: seq<bv8>, out: array<bv8>) returns (len: nat)
      requires Valid() && pdu != [] && pdu[0] == OP_REQUEST && out.Length >= Room(s, pdu) && out != tkRoundKeys
      modifies this, out
      ensures Valid() && len <= out.Length
      ensures Reply(s, out[..len]) == OnRequest(old(s), pdu)
    {
      if |pdu| != PAIRING_PDU {
        len := Put(out, [OP_FAILED, UNSPECIFIED]);
        return;
      }
      hide Response, PasskeyEntry, KeySchedule;
      var preqMsb := ReverseCopy(pdu);
      s := s.(bondSet := false, preq := preqMsb);
      var rsp, jw := Negotiate(pdu);
      len := Put(out, rsp);
      var presMsb := ReverseCopy(out[..PAIRING_PDU]);
      s := s.(jwMode := jw, pres := presMsb, phase := AwaitingConfirm);
    }

    /** The response PDU and the pairing mode that the request leads to. */
    method Negotiate(ghost request: Pairing) returns (rsp: Pairing, jw: bool)
      requires s.preq == Reverse(request)
      ensures rsp == Response(s.passkey) && jw == !PasskeyEntry(request, s.passkey)
    {
      MitmOffered();
      hide WantsMitm;
      var io := if s.passkey != 0 then IO_DISPLAY_ONLY else IO_NO_INPUT_OUTPUT;
      var auth := if s.passkey != 0 then AUTH_BONDING | AUTH_MITM else AUTH_BONDING;
      rsp := [OP_RESPONSE, io, 0, auth, BLOCK as bv8, 0, KD_ENC_KEY];
      var bothMitm := WantsMitm(s.preq[3]) && WantsMitm(auth);
      var peerCanInput := s.preq[5] == IO_KEYBOARD_ONLY || s.preq[5] == IO_KEYBOARD_DISPLAY;
      jw := !(bothMitm && peerCanInput && io == IO_DISPLAY_ONLY);
    }

    method OnPairingConfirm(pdu: seq<bv8>, random: Value, out: array<bv8>) returns (len: nat)
      requires Valid() && pdu != [] && pdu[0] == OP_CONFIRM && out.Length >= Room(s, pdu) && out != tkRoundKeys
      modifies this, tkRoundKeys, out
      ensures Valid() && len <= out.Length
      ensures Reply(s, out[..len]) == OnConfirm(old(s), pdu, random)
    {
      if |pdu| != VALUE_PDU || s.phase != AwaitingConfirm {
        len := Put(out, [OP_FAILED, UNSPECIFIED]);
        return;
      }
      hide C1, KeySchedule, Tk, Reverse, P1, P2;
      var mconfirmMsb := ReverseCopy(pdu[1..]);
      s := s.(mconfirm := mconfirmMsb);
      EnsureTkKeys();
      s := s.(srand := random);
      var value := new bv8[BLOCK];
      ComputeC1(s.srand, value);
      ReverseInPlace(value);
      len := Put(out, [OP_CONFIRM] + value[..]);
      s := s.(phase := AwaitingRandom);
    }

    method OnPairingRandom(pdu: seq<bv8>, out: array<bv8>) returns (len: nat)
      requires Valid() && pdu != [] && pdu[0] == OP_RANDOM && out.Length >= Room(s, pdu) && out != tkRoundKeys
      modifies this, out
      ensures Valid() && len <= out.Length
      ensures Reply(s, out[..len]) == OnRandom(old(s), pdu)
    {
      if |pdu| != VALUE_PDU || s.phase != AwaitingRandom {
        len := Put(out, [OP_FAILED, UNSPECIFIED]);
        return;
      }
      hide C1, S1, KeySchedule, Reverse, P1, P2;
      var mrandMsb := ReverseCopy(pdu[1..]);
      s := s.(mrand := mrandMsb);
      var value := new bv8[BLOCK];
      ComputeC1(s.mrand, value);
      var same := SameBytes(value, s.mconfirm);
      if !same {
        s := s.(phase := Phase.Failed);
        len := Put(out, [OP_FAILED, CONFIRM_VALUE_FAILED]);
        return;
      }
      len := Conclude(value, out);
    }

    /** The tail of `on_pairing_random`, once the confirm value has matched. */
    method Conclude(value: array<bv8>, out: array<bv8>) returns (len: nat)
      requires Valid() && tkRoundKeys[..] == KeySchedule(s.tk)
      requires value.Length == BLOCK && value != tkRoundKeys && out.Length >= VALUE_PDU && out != tkRoundKeys
      modifies this, value, out
      ensures Valid() && len <= out.Length
      ensures s == old(s).(stk := S1(s.tk, s.srand, s.mrand), phase := StkReady)
      ensures out[..len] == [OP_RANDOM] + Reverse(s.srand)
    {
      hide S1, KeySchedule, Reverse;
      ComputeS1(s.srand, s.mrand, value);
      s := s.(stk := value[..]);
      var wire := ReverseCopy(s.srand);
      len := Put(out, [OP_RANDOM] + wire);
      s := s.(phase := StkReady);
    }

    /** The source tests `outMax` for two bytes only; the buffer must have room for
        what is written into it. */
    method HandlePdu(pdu: seq<bv8>, outMax: nat, random: Value, out: array<bv8>) returns (len: nat)
      requires Valid() && out != tkRoundKeys
      requires outMax >= FAILED_PDU ==> out.Length >= Room(s, pdu)
      modifies this, tkRoundKeys, out
      ensures Valid() && len <= out.Length
      ensures Reply(s, out[..len]) == Handle(old(s), pdu, outMax, random)
    {
      hide OnRequest, OnConfirm, OnRandom, KeySchedule;
      if |pdu| == 0 || outMax < FAILED_PDU { return 0; }
      if pdu[0] == OP_REQUEST {
        len := OnPairingRequest(pdu, out);
      } else if pdu[0] == OP_CONFIRM {
        len := OnPairingConfirm(pdu, random, out);
      } else if pdu[0] == OP_RANDOM {
        len := OnPairingRandom(pdu, out);
      } else if pdu[0] == OP_FAILED {
        s := s.(phase := Phase.Failed);
        len := 0;
      } else if OP_ENCRYPTION_INFO <= pdu[0] <= OP_SIGNING_INFO {
        len := 0;
      } else {
        len := Put(out, [OP_FAILED, COMMAND_NOT_SUPPORTED]);
      }
    }

    method NextPhase3Pdu(outMax: nat, drawn: Bond, out: array<bv8>) returns (len: nat)
      requires Valid() && out.Length >= outMax && out != tkRoundKeys
      modifies this, out
      ensures Valid() && len <= out.Length
      ensures Reply(s, out[..len]) == NextPhase3(old(s), outMax, drawn)
    {
      if !s.bondSet {
        s := s.(bond := drawn, bondSet := true);
      }
      if s.phase3 == 0 && outMax >= VALUE_PDU {
        len := Put(out, [OP_ENCRYPTION_INFO] + s.bond.ltk);
        s := s.(phase3 := 1);
      } else if s.phase3 == 1 && outMax >= MASTER_PDU {
        len := Put(out, [OP_MASTER_IDENTIFICATION] + s.bond.ediv + s.bond.rand);
        s := s.(phase3 := 2);
      } else {
        len := 0;
      }
    }

    method Lookup(ediv: Ediv, rand: Rand) returns (found: bool, ltk: Value)
      ensures found <==> LookupLtk(s, ediv, rand).Some?
      ensures found ==> ltk == LookupLtk(s, ediv, rand).value
    {
      ltk := s.bond.ltk;
      if !s.bondSet { return false, ltk; }
      for i := 0 to 2
        invariant ediv[..i] == s.bond.ediv[..i]
      {
        if ediv[i] != s.bond.ediv[i] { return false, ltk; }
      }
      for i := 0 to 8
        invariant rand[..i] == s.bond.rand[..i]
      {
        if rand[i] != s.bond.rand[i] { return false, ltk; }
      }
      assert ediv == s.bond.ediv && rand == s.bond.rand;
      return true, ltk;
    }
  }

  lemma XorComm(a: Value, b: Value)
    ensures Xor(a, b) == Xor(b, a)
  {
    hide Add;
    forall i | 0 <= i < BLOCK ensures Add(a[i], b[i]) == Add(b[i], a[i]) {
      AddComm(a[i], b[i]);
    }
  }

  /** Leaving four bytes alone is adding the padding of p2. */
  lemma XorPadded(a: Value, ia: Addr, ra: Addr, r: Value)
    requires r[..4] == a[..4]
    requires forall i :: 0 <= i < 6 ==> r[4 + i] == Add(a[4 + i], ia[i]) && r[10 + i] == Add(a[10 + i], ra[i])
    ensures r == Xor(a, P2(ia, ra))
  {
    hide Add;
    forall i | 0 <= i < BLOCK ensures r[i] == Add(a[i], P2(ia, ra)[i]) {
      if i < 4 {
        assert r[i] == r[..4][i];
        AddZeroRight(a[i]);
      } else if i < 10 {
        assert r[4 + (i - 4)] == Add(a[4 + (i - 4)], ia[i - 4]);
      } else {
        assert r[10 + (i - 10)] == Add(a[10 + (i - 10)], ra[i - 10]);
      }
    }
  }

  lemma AddZeroRight(a: bv8)
    ensures Add(a, 0) == a
  {
  }
}
