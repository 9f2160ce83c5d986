/** LE legacy pairing, responder side (src/ble/smp.c), as a state machine on
    values.  Session values are most significant byte first; the bytes of a PDU
    are least significant byte first. */
module Smp {
  import opened Aes
  import opened Gf256

  datatype Option<+T> = None | Some(value: T)

  type Addr = a: seq<bv8> | |a| == 6 witness [0, 0, 0, 0, 0, 0]
  type Pairing = p: seq<bv8> | |p| == 7 witness [0, 0, 0, 0, 0, 0, 0]
  type Value = State

  // Opcodes, section 3.3 of the Core specification, Vol 3 Part H.
  const OP_REQUEST: bv8 := 0x01
  const OP_RESPONSE: bv8 := 0x02
  const OP_CONFIRM: bv8 := 0x03
  const OP_RANDOM: bv8 := 0x04
  const OP_FAILED: bv8 := 0x05
  const OP_ENCRYPTION_INFO: bv8 := 0x06
  const OP_MASTER_IDENTIFICATION: bv8 := 0x07
  const OP_SIGNING_INFO: bv8 := 0x0a

  const CONFIRM_VALUE_FAILED: bv8 := 0x04
  const COMMAND_NOT_SUPPORTED: bv8 := 0x07
  const UNSPECIFIED: bv8 := 0x08

  const IO_DISPLAY_ONLY: bv8 := 0x00
  const IO_KEYBOARD_ONLY: bv8 := 0x02
  const IO_NO_INPUT_OUTPUT: bv8 := 0x03
  const IO_KEYBOARD_DISPLAY: bv8 := 0x04
  const AUTH_BONDING: bv8 := 0x01
  const AUTH_MITM: bv8 := 0x04
  const KD_ENC_KEY: bv8 := 0x01

  const VALUE_PDU := 1 + BLOCK
  const PAIRING_PDU := 7
  const MASTER_PDU := 11
  const FAILED_PDU := 2

  function Reverse(s: seq<bv8>): (r: seq<bv8>)
    ensures |r| == |s|
  {
    seq(|s|, i requires 0 <= i < |s| => s[|s| - 1 - i])
  }

  function Xor(a: Value, b: Value): Value {
    seq(BLOCK, i requires 0 <= i < BLOCK => Add(a[i], b[i]))
  }

  // ----- Section 2.2: the security function, c1 and s1 ----------------------

  function KeySchedule(key: Value): RoundKeys {
    seq(ROUND_KEYS, i requires 0 <= i < ROUND_KEYS => KeyWord(key, i / 4)[i % 4])
  }

  function E(key: Value, plain: Value): Value {
    Cipher(KeySchedule(key), plain)
  }

  function P1(preq: Pairing, pres: Pairing, iat: bv8, rat: bv8): Value {
    pres + preq + [rat, iat]
  }

  function P2(ia: Addr, ra: Addr): Value {
    [0, 0, 0, 0] + ia + ra
  }

  function C1(k: Value, r: Value, p1: Value, p2: Value): Value {
    E(k, Xor(E(k, Xor(r, p1)), p2))
  }

  function S1(k: Value, r1: Value, r2: Value): Value {
    E(k, r1[8..] + r2[8..])
  }

  // ----- The session ------------------------------------------------------

  datatype Phase = Idle | AwaitingConfirm | AwaitingRandom | StkReady | Failed

  type Ediv = e: seq<bv8> | |e| == 2 witness [0, 0]
  type Rand = r: seq<bv8> | |r| == 8 witness [0, 0, 0, 0, 0, 0, 0, 0]
  datatype Bond = Bond(ltk: Value, ediv: Ediv, rand: Rand)

  /** `struct smp_session`; `tk` is the key that `tk_round_keys` was last expanded
      from and `tkReady` is `tk_round_keys_ready`. */
  datatype Session = Session(
    phase: Phase, iat: bv8, rat: bv8, ia: Addr, ra: Addr, preq: Pairing, pres: Pairing,
    mconfirm: Value, srand: Value, mrand: Value, stk: Value,
    bond: Bond, bondSet: bool, jwMode: bool, phase3: nat, passkey: bv32, tk: Value, tkReady: bool)
  {
    function First(): Value { P1(preq, pres, iat, rat) }
    function Second(): Value { P2(ia, ra) }
  }

  datatype Reply = Reply(session: Session, pdu: seq<bv8>)

  function Init(s: Session, peer: Addr, peerType: bv8, own: Addr, ownType: bv8, passkey: bv32): Session {
    s.(phase := Idle, iat := peerType & 1, rat := ownType & 1, ia := Reverse(peer), ra := Reverse(own),
       jwMode := true, phase3 := 0, passkey := passkey, tkReady := false)
  }

  /** TK of section 2.3.5.5: zero, or the passkey as a 128-bit integer. */
  function Tk(jwMode: bool, passkey: bv32): Value {
    if jwMode then seq(BLOCK, _ => 0)
    else seq(BLOCK - 3, _ => 0) + [PasskeyByte(passkey, 2), PasskeyByte(passkey, 1), PasskeyByte(passkey, 0)]
  }

  /** Byte k of the passkey, counted from the least significant one. */
  function PasskeyByte(passkey: bv32, k: nat): bv8
    requires k < 3
  {
    if k == 0 then (passkey & 0xff) as bv8
    else if k == 1 then ((passkey >> 8) & 0xff) as bv8
    else ((passkey >> 16) & 0xff) as bv8
  }

  predicate WantsMitm(auth: bv8) {
    auth & AUTH_MITM != 0
  }

  lemma MitmOffered()
    ensures WantsMitm(AUTH_BONDING | AUTH_MITM) && !WantsMitm(AUTH_BONDING)
  {
  }

  function Response(passkey: bv32): Pairing {
    [OP_RESPONSE, if passkey != 0 then IO_DISPLAY_ONLY else IO_NO_INPUT_OUTPUT, 0,
     if passkey != 0 then AUTH_BONDING | AUTH_MITM else AUTH_BONDING, BLOCK as bv8, 0, KD_ENC_KEY]
  }

  predicate Keyboard(io: bv8) {
    io == IO_KEYBOARD_ONLY || io == IO_KEYBOARD_DISPLAY
  }

  /** Passkey Entry needs a passkey here, MITM from both sides and a keyboard there. */
  predicate PasskeyEntry(request: Pairing, passkey: bv32) {
    && passkey != 0
    && WantsMitm(request[3])
    && Keyboard(request[1])
  }

  function Fail(s: Session, reason: bv8): Reply {
    Reply(s, [OP_FAILED, reason])
  }

  function OnRequest(s: Session, pdu: seq<bv8>): Reply {
    if |pdu| != PAIRING_PDU then Fail(s, UNSPECIFIED)
    else
      var rsp := Response(s.passkey);
      Reply(s.(bondSet := false, preq := Reverse(pdu), jwMode := !PasskeyEntry(pdu, s.passkey),
               pres := Reverse(rsp), phase := AwaitingConfirm), rsp)
  }

  /** `random` is what `random_fill` delivers. */
  function OnConfirm(s: Session, pdu: seq<bv8>, random: Value): Reply {
    if |pdu| != VALUE_PDU || s.phase != AwaitingConfirm then Fail(s, UNSPECIFIED)
    else
      var tk := if s.tkReady then s.tk else Tk(s.jwMode, s.passkey);
      Reply(s.(mconfirm := Reverse(pdu[1..]), tk := tk, tkReady := true, srand := random, phase := AwaitingRandom),
            [OP_CONFIRM] + Reverse(C1(tk, random, s.First(), s.Second())))
  }

  function OnRandom(s: Session, pdu: seq<bv8>): Reply
  {
    if |pdu| != VALUE_PDU || s.phase != AwaitingRandom then Fail(s, UNSPECIFIED)
    else
      var mrand := Reverse(pdu[1..]);
      if C1(s.tk, mrand, s.First(), s.Second()) != s.mconfirm then
        Fail(s.(mrand := mrand, phase := Phase.Failed), CONFIRM_VALUE_FAILED)
      else
        Reply(s.(mrand := mrand, stk := S1(s.tk, s.srand, mrand), phase := StkReady),
              [OP_RANDOM] + Reverse(s.srand))
  }

  function Handle(s: Session, pdu: seq<bv8>, outMax: nat, random: Value): Reply
  {
    if |pdu| == 0 || outMax < FAILED_PDU then Reply(s, [])
    else if pdu[0] == OP_REQUEST then OnRequest(s, pdu)
    else if pdu[0] == OP_CONFIRM then OnConfirm(s, pdu, random)
    else if pdu[0] == OP_RANDOM then OnRandom(s, pdu)
    else if pdu[0] == OP_FAILED then Reply(s.(phase := Phase.Failed), [])
    else if OP_ENCRYPTION_INFO <= pdu[0] <= OP_SIGNING_INFO then Reply(s, [])
    else Fail(s, COMMAND_NOT_SUPPORTED)
  }

  function StkWire(s: Session): Value {
    Reverse(s.stk)
  }

  /** `drawn` is what `random_fill` delivers when the session holds no bond. */
  function NextPhase3(s: Session, outMax: nat, drawn: Bond): Reply {
    var s' := if s.bondSet then s else s.(bond := drawn, bondSet := true);
    if s.phase3 == 0 && outMax >= VALUE_PDU then
      Reply(s'.(phase3 := 1), [OP_ENCRYPTION_INFO] + s'.bond.ltk)
    else if s.phase3 == 1 && outMax >= MASTER_PDU then
      Reply(s'.(phase3 := 2), [OP_MASTER_IDENTIFICATION] + s'.bond.ediv + s'.bond.rand)
    else Reply(s', [])
  }

  function LookupLtk(s: Session, ediv: Ediv, rand: Rand): Option<Value> {
    if s.bondSet && ediv == s.bond.ediv && rand == s.bond.rand then Some(s.bond.ltk) else None
  }

  function GetBond(s: Session): Option<Bond> {
    if s.bondSet then Some(s.bond) else None
  }

  function SetBond(s: Session, bond: Option<Bond>): Session {
    if bond.Some? then s.(bond := bond.value, bondSet := true) else s.(bondSet := false)
  }
}
