/** What legacy pairing achieves: agreement with an initiator, safety over every
    PDU sequence, and the life of the bond. */
module SmpPairing {
  import opened Aes
  import opened Gf256
  import opened Smp

  // ----- An initiator that works on wire-order integers ---------------------

  function EWire(key: Value, plain: Value): Value {
    Reverse(E(Reverse(key), Reverse(plain)))
  }

  /** c1 of section 2.2.3 with every integer stored least significant byte first. */
  function C1Wire(k: Value, r: Value, request: Pairing, response: Pairing,
                  iat: bv8, ia: Addr, rat: bv8, ra: Addr): Value
  {
    var p1 := [iat, rat] + request + response;
    var p2 := ra + ia + [0, 0, 0, 0];
    EWire(k, Xor(EWire(k, Xor(r, p1)), p2))
  }

  /** s1 of section 2.2.4: the low half of r1 above the low half of r2. */
  function S1Wire(k: Value, r1: Value, r2: Value): Value {
    EWire(k, r2[..8] + r1[..8])
  }

  /** What the initiator knows: the two devices, its own PDU and the TK. */
  datatype Initiator = Initiator(
    ia: Addr, iat: bv8, ra: Addr, rat: bv8, request: Pairing, tk: Value, mrand: Value)
  {
    function Confirm(response: Pairing): seq<bv8> {
      [OP_CONFIRM] + C1Wire(tk, mrand, request, response, iat, ia, rat, ra)
    }

    function Random(): seq<bv8> {
      [OP_RANDOM] + mrand
    }

    /** The check of section 2.3.5.5 on the responder's two values. */
    predicate Accepts(response: Pairing, sconfirm: Value, srand: Value) {
      RandomConfirm(response, srand) == sconfirm
    }

    /** The confirm value that commits to a responder random. */
    function RandomConfirm(response: Pairing, srand: Value): Value {
      C1Wire(tk, srand, request, response, iat, ia, rat, ra)
    }

    function Stk(srand: Value): Value {
      S1Wire(tk, srand, mrand)
    }
  }

  // ----- Byte order -------------------------------------------------------

  lemma ReverseTwice(s: seq<bv8>)
    ensures Reverse(Reverse(s)) == s
  {
  }

  lemma ReverseXor(a: Value, b: Value)
    ensures Reverse(Xor(a, b)) == Xor(Reverse(a), Reverse(b))
  {
  }

  /** The wire-order function is the most-significant-first one, reversed. */
  lemma C1WireIsC1(k: Value, r: Value, request: Pairing, response: Pairing,
                   iat: bv8, ia: Addr, rat: bv8, ra: Addr)
    ensures C1Wire(k, r, request, response, iat, ia, rat, ra)
         == Reverse(C1(Reverse(k), Reverse(r), P1(Reverse(request), Reverse(response), iat, rat), P2(Reverse(ia), Reverse(ra))))
  {
    hide E, Xor;
    var p1 := [iat, rat] + request + response;
    var p2 := ra + ia + [0, 0, 0, 0];
    assert Reverse(p1) == P1(Reverse(request), Reverse(response), iat, rat);
    assert Reverse(p2) == P2(Reverse(ia), Reverse(ra));
    ReverseXor(r, p1);
    var inner := E(Reverse(k), Xor(Reverse(r), Reverse(p1)));
    ReverseXor(Reverse(inner), p2);
    ReverseTwice(inner);
  }

  lemma S1WireIsS1(k: Value, r1: Value, r2: Value)
    ensures S1Wire(k, r1, r2) == Reverse(S1(Reverse(k), Reverse(r1), Reverse(r2)))
  {
    hide E;
    assert Reverse(r2[..8] + r1[..8]) == Reverse(r1)[8..] + Reverse(r2)[8..];
  }

  // ----- The TK as a number -------------------------------------------------

  function Octet(b: bv8): (n: nat)
    ensures n < 256
  {
    b as nat
  }

  /** The number whose bytes are given most significant first. */
  function Number(bytes: seq<bv8>): nat
    decreases |bytes|
  {
    if bytes == [] then 0 else 256 * Number(bytes[..|bytes| - 1]) + Octet(bytes[|bytes| - 1])
  }

  /** The number whose bytes are given least significant first. */
  function WireNumber(bytes: seq<bv8>): nat
    decreases |bytes|
  {
    if bytes == [] then 0 else Octet(bytes[0]) + 256 * WireNumber(bytes[1..])
  }

  lemma {:induction false} NumberReversed(bytes: seq<bv8>)
    ensures Number(Reverse(bytes)) == WireNumber(bytes)
    decreases |bytes|
  {
    hide Octet;
    if bytes != [] {
      var r := Reverse(bytes);
      assert r[..|r| - 1] == Reverse(bytes[1..]);
      NumberReversed(bytes[1..]);
    }
  }

  lemma OctetInjective(a: bv8, b: bv8)
    requires Octet(a) == Octet(b)
    ensures a == b
  {
  }

  /** Equally many bytes that stand for one number are the same bytes. */
  lemma {:induction false} NumberInjective(a: seq<bv8>, b: seq<bv8>)
    requires |a| == |b| && Number(a) == Number(b)
    ensures a == b
    decreases |a|
  {
    hide Octet;
    if a != [] {
      var n := |a| - 1;
      assert a == a[..n] + [a[n]] && b == b[..n] + [b[n]];
      NumberInjective(a[..n], b[..n]);
      OctetInjective(a[n], b[n]);
    }
  }

  lemma {:induction false} ZeroNumber(bytes: seq<bv8>)
    requires forall i :: 0 <= i < |bytes| ==> bytes[i] == 0
    ensures Number(bytes) == 0
    decreases |bytes|
  {
    if bytes != [] {
      ZeroNumber(bytes[..|bytes| - 1]);
    }
  }

  /** A word as a number. */
  function Count(x: bv32): nat {
    x as nat
  }

  lemma FourBytes(a: bv8, b: bv8, c: bv8, d: bv8)
    ensures ((a as bv32 << 24) | (b as bv32 << 16) | (c as bv32 << 8) | d as bv32) as nat
         == 0x100_0000 * a as nat + 0x1_0000 * b as nat + 256 * c as nat + d as nat
  {
  }

  lemma CountOfBytes(a: bv8, b: bv8, c: bv8, d: bv8)
    ensures Count((a as bv32 << 24) | (b as bv32 << 16) | (c as bv32 << 8) | d as bv32)
         == 0x100_0000 * Octet(a) + 0x1_0000 * Octet(b) + 256 * Octet(c) + Octet(d)
  {
    FourBytes(a, b, c, d);
  }

  lemma BytesOfWord(x: bv32)
    ensures x == ((x >> 24) as bv8 as bv32 << 24) | (PasskeyByte(x, 2) as bv32 << 16) | (PasskeyByte(x, 1) as bv32 << 8)
                 | PasskeyByte(x, 0) as bv32
  {
  }

  lemma PasskeyNumber(passkey: bv32)
    ensures Count(passkey) % 0x100_0000
         == 0x1_0000 * Octet(PasskeyByte(passkey, 2)) + 256 * Octet(PasskeyByte(passkey, 1)) + Octet(PasskeyByte(passkey, 0))
  {
    hide Octet, Count, PasskeyByte;
    BytesOfWord(passkey);
    CountOfBytes((passkey >> 24) as bv8, PasskeyByte(passkey, 2), PasskeyByte(passkey, 1), PasskeyByte(passkey, 0));
  }

  lemma NumberOfMore(bytes: seq<bv8>, b: bv8)
    ensures Number(bytes + [b]) == 256 * Number(bytes) + Octet(b)
  {
    hide Octet;
    assert (bytes + [b])[..|bytes|] == bytes;
  }

  lemma LastThree(zero: seq<bv8>, a: bv8, b: bv8, c: bv8)
    requires Number(zero) == 0
    ensures Number(zero + [a, b, c]) == 0x1_0000 * Octet(a) + 256 * Octet(b) + Octet(c)
  {
    hide Octet, Number;
    NumberOfMore(zero, a);
    NumberOfMore(zero + [a], b);
    NumberOfMore(zero + [a] + [b], c);
    assert zero + [a, b, c] == zero + [a] + [b] + [c];
  }

  /** Section 2.3.5.5: for Passkey Entry the TK is the passkey as a 128-bit number,
      here of its low 24 bits, which hold any passkey of six digits; for Just Works
      it is zero. */
  lemma TkIsPasskey(passkey: bv32)
    ensures Number(Tk(false, passkey)) == Count(passkey) % 0x100_0000
    ensures Number(Tk(true, passkey)) == 0
  {
    hide PasskeyByte, Number, Octet, Count;
    var zero := seq(BLOCK - 3, _ => 0 as bv8);
    ZeroNumber(zero);
    LastThree(zero, PasskeyByte(passkey, 2), PasskeyByte(passkey, 1), PasskeyByte(passkey, 0));
    PasskeyNumber(passkey);
    ZeroNumber(Tk(true, passkey));
    assert Tk(false, passkey) == zero + [PasskeyByte(passkey, 2), PasskeyByte(passkey, 1), PasskeyByte(passkey, 0)];
  }

  // ----- Agreement ----------------------------------------------------------

  /** The three replies to a request, a confirm and a random PDU. */
  function Converse(s: Session, request: seq<bv8>, confirm: seq<bv8>, random: seq<bv8>, srand: Value): (Reply, Reply, Reply)
  {
    var r1 := Handle(s, request, VALUE_PDU, srand);
    var r2 := Handle(r1.session, confirm, VALUE_PDU, srand);
    (r1, r2, Handle(r2.session, random, VALUE_PDU, srand))
  }

  /** The initiator accepts the three replies and both sides hold one STK. */
  predicate Agree(i: Initiator, r1: Reply, r2: Reply, r3: Reply) {
    && |r1.pdu| == PAIRING_PDU && r1.pdu[0] == OP_RESPONSE
    && |r2.pdu| == VALUE_PDU && r2.pdu[0] == OP_CONFIRM
    && |r3.pdu| == VALUE_PDU && r3.pdu[0] == OP_RANDOM
    && r3.session.phase == StkReady
    && i.Accepts(r1.pdu, r2.pdu[1..], r3.pdu[1..])
    && StkWire(r3.session) == i.Stk(r3.pdu[1..])
  }

  /** Whatever the addresses, the randoms and the request: an initiator with
      the responder's TK accepts, and the two sides hold the same STK. */
  lemma SameTkAgrees(s0: Session, i: Initiator, srand: Value, passkey: bv32)
    requires i.iat & 1 == i.iat && i.rat & 1 == i.rat
    requires i.request[0] == OP_REQUEST
    requires Reverse(i.tk) == Tk(!PasskeyEntry(i.request, passkey), passkey)
    ensures var s := Init(s0, i.ia, i.iat, i.ra, i.rat, passkey);
      var (r1, r2, r3) := Converse(s, i.request, i.Confirm(Response(passkey)), i.Random(), srand);
      r1.pdu == Response(passkey) && Agree(i, r1, r2, r3)
  {
    hide C1, S1, C1Wire, S1Wire, Tk, PasskeyEntry;
    var s := Init(s0, i.ia, i.iat, i.ra, i.rat, passkey);
    var response := Response(passkey);
    var (r1, r2, r3) := Converse(s, i.request, i.Confirm(response), i.Random(), srand);
    C1WireIsC1(i.tk, i.mrand, i.request, response, i.iat, i.ia, i.rat, i.ra);
    ReverseTwice(C1(Reverse(i.tk), Reverse(i.mrand), r1.session.First(), r1.session.Second()));
    assert i.Confirm(response)[1..] == C1Wire(i.tk, i.mrand, i.request, response, i.iat, i.ia, i.rat, i.ra);
    assert i.Random()[1..] == i.mrand;
    assert r3.pdu[1..] == Reverse(srand);
    assert r2.pdu[1..] == Reverse(C1(Reverse(i.tk), srand, r1.session.First(), r1.session.Second()));
    C1WireIsC1(i.tk, Reverse(srand), i.request, response, i.iat, i.ia, i.rat, i.ra);
    ReverseTwice(srand);
    S1WireIsS1(i.tk, Reverse(srand), i.mrand);
  }

  // ----- Which side of the table the code is on -------------------------------

  /** KeyboardOnly and KeyboardDisplay of Table 3.4. */
  predicate HasKeyboard(io: bv8) {
    io == 0x02 || io == 0x04
  }

  /** Table 2.8 for legacy pairing: which IO capabilities lead to Passkey Entry;
      NoInputNoOutput never does. */
  predicate IoPasskey(initiator: bv8, responder: bv8) {
    initiator != 0x03 && responder != 0x03 && (HasKeyboard(initiator) || HasKeyboard(responder))
  }

  /** Table 2.6 without OOB data, which both sides would have to have: the IO
      capabilities count as soon as one side asks for MITM protection. */
  predicate TablePasskey(request: Pairing, response: Pairing) {
    (WantsMitm(request[3]) || WantsMitm(response[3])) && IoPasskey(request[1], response[1])
  }

  /** No passkey is set, the initiator asks for MITM, or it has no keyboard. */
  predicate FollowsTable(request: Pairing, passkey: bv32) {
    passkey == 0 || WantsMitm(request[3]) || !HasKeyboard(request[1])
  }

  lemma ResponseMitm(passkey: bv32)
    ensures WantsMitm(Response(passkey)[3]) <==> passkey != 0
  {
    MitmOffered();
    hide WantsMitm;
  }

  /** The code asks for MITM from both sides, the table from either: they choose
      alike if and only if there is no passkey, the initiator asks for MITM, or
      it has no keyboard. */
  lemma TableFollowedIff(request: Pairing, passkey: bv32)
    ensures (TablePasskey(request, Response(passkey)) <==> PasskeyEntry(request, passkey)) <==> FollowsTable(request, passkey)
  {
    ResponseMitm(passkey);
    hide WantsMitm;
  }

  lemma TkDiffers(passkey: bv32)
    requires passkey & 0x00ff_ffff != 0
    ensures Tk(true, passkey) != Tk(false, passkey)
  {
    var tk := Tk(false, passkey);
    assert tk[13] != 0 || tk[14] != 0 || tk[15] != 0 by {
      PasskeyBytes(passkey);
    }
    assert Tk(true, passkey)[13] == 0 && Tk(true, passkey)[14] == 0 && Tk(true, passkey)[15] == 0;
  }

  lemma PasskeyBytes(passkey: bv32)
    requires passkey & 0x00ff_ffff != 0
    ensures PasskeyByte(passkey, 0) != 0 || PasskeyByte(passkey, 1) != 0 || PasskeyByte(passkey, 2) != 0
  {
  }

  /** So an initiator that follows the table and a responder that shows a passkey
      of 1 to 999999 have one TK exactly in those cases. */
  lemma TableTkIff(request: Pairing, passkey: bv32)
    requires 0 < passkey <= 999999
    ensures Tk(!TablePasskey(request, Response(passkey)), passkey) == Tk(!PasskeyEntry(request, passkey), passkey)
        <==> FollowsTable(request, passkey)
  {
    hide Tk, TablePasskey, PasskeyEntry, FollowsTable;
    TableFollowedIff(request, passkey);
    assert passkey & 0x00ff_ffff == passkey;
    TkDiffers(passkey);
  }

  /** A central with a keyboard that only asks for bonding: the table has the user
      type the passkey, the code goes on with a TK of zero. */
  lemma TableNotFollowed()
    ensures var request := [OP_REQUEST, IO_KEYBOARD_ONLY, 0, AUTH_BONDING, BLOCK as bv8, 0, KD_ENC_KEY];
      && TablePasskey(request, Response(123456)) && !PasskeyEntry(request, 123456)
      && Tk(!TablePasskey(request, Response(123456)), 123456) != Tk(!PasskeyEntry(request, 123456), 123456)
  {
    var request := [OP_REQUEST, IO_KEYBOARD_ONLY, 0, AUTH_BONDING, BLOCK as bv8, 0, KD_ENC_KEY];
    hide Tk;
    ResponseMitm(123456);
    TableTkIff(request, 123456);
  }

  /** An initiator that follows the table, and whose TK is the number the user typed
      or zero, its bytes least significant first, accepts, and the two sides hold the
      same STK, whenever the code follows the table. */
  lemma PairingAgreement(s0: Session, i: Initiator, srand: Value, passkey: bv32)
    requires i.iat & 1 == i.iat && i.rat & 1 == i.rat
    requires i.request[0] == OP_REQUEST
    requires WireNumber(i.tk) == if TablePasskey(i.request, Response(passkey)) then Count(passkey) % 0x100_0000 else 0
    requires FollowsTable(i.request, passkey)
    ensures var s := Init(s0, i.ia, i.iat, i.ra, i.rat, passkey);
      var (r1, r2, r3) := Converse(s, i.request, i.Confirm(Response(passkey)), i.Random(), srand);
      r1.pdu == Response(passkey) && Agree(i, r1, r2, r3)
  {
    hide Tk, TablePasskey, PasskeyEntry, FollowsTable, Converse, Agree, Number, WireNumber, Count, Response, Init;
    TableFollowedIff(i.request, passkey);
    TkIsPasskey(passkey);
    NumberReversed(i.tk);
    NumberInjective(Reverse(i.tk), Tk(!TablePasskey(i.request, Response(passkey)), passkey));
    SameTkAgrees(s0, i, srand, passkey);
  }

  // ----- What the confirm value is good for ---------------------------------

  lemma XorCancel(a: Value, b: Value, m: Value)
    requires Xor(a, m) == Xor(b, m)
    ensures a == b
  {
    hide Add;
    forall i | 0 <= i < BLOCK ensures a[i] == b[i] {
      assert Xor(a, m)[i] == Xor(b, m)[i];
      AddCancel(a[i], b[i], m[i]);
    }
  }

  lemma AddCancel(a: bv8, b: bv8, m: bv8)
    requires Add(a, m) == Add(b, m)
    ensures a == b
  {
  }

  lemma EInjective(k: Value, a: Value, b: Value)
    ensures E(k, a) == E(k, b) ==> a == b
  {
    CipherInverse(KeySchedule(k), a);
    CipherInverse(KeySchedule(k), b);
  }

  /** A confirm value fixes the random behind it: under one key and one set of
      addresses and pairing PDUs, c1 is injective. */
  lemma ConfirmBinds(k: Value, a: Value, b: Value, p1: Value, p2: Value)
    ensures C1(k, a, p1, p2) == C1(k, b, p1, p2) <==> a == b
  {
    hide E, Xor;
    if C1(k, a, p1, p2) == C1(k, b, p1, p2) {
      EInjective(k, Xor(E(k, Xor(a, p1)), p2), Xor(E(k, Xor(b, p1)), p2));
      XorCancel(E(k, Xor(a, p1)), E(k, Xor(b, p1)), p2);
      EInjective(k, Xor(a, p1), Xor(b, p1));
      XorCancel(a, b, p1);
    }
  }

  /** A session that holds the honest confirm value of a random. */
  function Committed(s: Session, mrand: Value): Session {
    s.(mconfirm := C1(s.tk, mrand, s.First(), s.Second()))
  }

  /** So a responder that answered an honest confirm reaches STK_READY on
      exactly one random PDU: the one the confirm was made for. */
  lemma OnlyTheCommittedRandom(s: Session, mrand: Value, pdu: seq<bv8>)
    requires s.phase == AwaitingRandom && |pdu| == VALUE_PDU && pdu[0] == OP_RANDOM
    ensures var r := OnRandom(Committed(s, mrand), pdu);
      && (r.session.phase == StkReady <==> pdu[1..] == Reverse(mrand))
      && (r.session.phase != StkReady ==> r.pdu == [OP_FAILED, CONFIRM_VALUE_FAILED])
  {
    hide C1, S1;
    var got := Reverse(pdu[1..]);
    ReverseTwice(pdu[1..]);
    ReverseTwice(mrand);
    ConfirmBinds(s.tk, got, mrand, s.First(), s.Second());
  }

  /** And an initiator accepts no responder random but the committed one. */
  lemma InitiatorRejectsOthers(i: Initiator, response: Pairing, srand: Value, other: Value)
    ensures i.Accepts(response, i.RandomConfirm(response, srand), other) <==> other == srand
  {
    hide C1, C1Wire;
    C1WireIsC1(i.tk, srand, i.request, response, i.iat, i.ia, i.rat, i.ra);
    C1WireIsC1(i.tk, other, i.request, response, i.iat, i.ia, i.rat, i.ra);
    var p1 := P1(Reverse(i.request), Reverse(response), i.iat, i.rat);
    var p2 := P2(Reverse(i.ia), Reverse(i.ra));
    ReverseTwice(C1(Reverse(i.tk), Reverse(srand), p1, p2));
    ReverseTwice(C1(Reverse(i.tk), Reverse(other), p1, p2));
    ConfirmBinds(Reverse(i.tk), Reverse(srand), Reverse(other), p1, p2);
    ReverseTwice(srand);
    ReverseTwice(other);
  }

  // ----- Safety over every PDU sequence -------------------------------------

  datatype Pdu = Pdu(bytes: seq<bv8>, outMax: nat, random: Value)

  predicate Is(p: Pdu, op: bv8, length: nat) {
    |p.bytes| == length && length > 0 && p.bytes[0] == op && p.outMax >= FAILED_PDU
  }

  function Run(s: Session, ps: seq<Pdu>): Session
    decreases |ps|
  {
    if ps == [] then s
    else
      var before := Run(s, ps[..|ps| - 1]);
      var p := ps[|ps| - 1];
      Handle(before, p.bytes, p.outMax, p.random).session
  }

  /** The PDU the current phase is waiting for, or one that restarts or ends it. */
  predicate Expected(s: Session, p: Pdu) {
    || Is(p, OP_REQUEST, PAIRING_PDU)
    || (Is(p, OP_CONFIRM, VALUE_PDU) && s.phase == AwaitingConfirm)
    || (Is(p, OP_RANDOM, VALUE_PDU) && s.phase == AwaitingRandom)
    || Is(p, OP_FAILED, |p.bytes|)
  }

  /** A malformed or out-of-order PDU changes no field of the session. */
  lemma OutOfOrderIsHarmless(s: Session, p: Pdu)
    requires !Expected(s, p)
    ensures Handle(s, p.bytes, p.outMax, p.random).session == s
  {
  }

  predicate Restarts(p: Pdu) {
    Is(p, OP_REQUEST, PAIRING_PDU) || Is(p, OP_FAILED, |p.bytes|)
  }

  /** The session reports what the PDU at i (request), j (confirm) and k (random)
      brought, as far as its phase says they were accepted. */
  ghost predicate Explained(s0: Session, ps: seq<Pdu>, s: Session, i: int, j: int, k: int) {
    && (s.phase != Idle && s.phase != Phase.Failed ==>
        && 0 <= i < |ps| && Is(ps[i], OP_REQUEST, PAIRING_PDU)
        && (forall m :: i < m < |ps| ==> !Restarts(ps[m]))
        && s.preq == Reverse(ps[i].bytes) && s.pres == Reverse(Response(s0.passkey)) && !s.bondSet)
    && (s.phase == AwaitingRandom || s.phase == StkReady ==>
        && i < j < |ps| && Is(ps[j], OP_CONFIRM, VALUE_PDU)
        && s.mconfirm == Reverse(ps[j].bytes[1..]) && s.srand == ps[j].random)
    && (s.phase == StkReady ==>
        && j < k < |ps| && Is(ps[k], OP_RANDOM, VALUE_PDU)
        && s.mrand == Reverse(ps[k].bytes[1..])
        && s.mconfirm == C1(s.tk, s.mrand, s.First(), s.Second())
        && s.stk == S1(s.tk, s.srand, s.mrand))
    && s.ia == s0.ia && s.ra == s0.ra && s.iat == s0.iat && s.rat == s0.rat
    && s.passkey == s0.passkey && s.phase3 == s0.phase3
  }

  /** Which handler serves an expected PDU. */
  lemma Dispatch(s: Session, p: Pdu)
    ensures Is(p, OP_REQUEST, PAIRING_PDU) ==> Handle(s, p.bytes, p.outMax, p.random) == OnRequest(s, p.bytes)
    ensures Is(p, OP_CONFIRM, VALUE_PDU) ==> Handle(s, p.bytes, p.outMax, p.random) == OnConfirm(s, p.bytes, p.random)
    ensures Is(p, OP_RANDOM, VALUE_PDU) ==> Handle(s, p.bytes, p.outMax, p.random) == OnRandom(s, p.bytes)
    ensures Is(p, OP_FAILED, |p.bytes|) ==> Handle(s, p.bytes, p.outMax, p.random) == Reply(s.(phase := Phase.Failed), [])
  {
    hide OnRequest, OnConfirm, OnRandom;
  }

  lemma SafetyOfRequest(s0: Session, ps: seq<Pdu>, p: Pdu, s: Session, i: int, j: int, k: int)
    requires Explained(s0, ps, s, i, j, k) && Is(p, OP_REQUEST, PAIRING_PDU)
    ensures Explained(s0, ps + [p], OnRequest(s, p.bytes).session, |ps|, j, k)
  {
    hide PasskeyEntry, Response;
  }

  lemma SafetyOfConfirm(s0: Session, ps: seq<Pdu>, p: Pdu, s: Session, i: int, j: int, k: int)
    requires Explained(s0, ps, s, i, j, k) && Is(p, OP_CONFIRM, VALUE_PDU) && s.phase == AwaitingConfirm
    ensures Explained(s0, ps + [p], OnConfirm(s, p.bytes, p.random).session, i, |ps|, k)
  {
    hide C1, Response, Tk;
  }

  lemma SafetyOfRandom(s0: Session, ps: seq<Pdu>, p: Pdu, s: Session, i: int, j: int, k: int)
    requires Explained(s0, ps, s, i, j, k) && Is(p, OP_RANDOM, VALUE_PDU) && s.phase == AwaitingRandom
    ensures Explained(s0, ps + [p], OnRandom(s, p.bytes).session, i, j, |ps|)
  {
    hide C1, S1, Response;
  }

  lemma SafetyOfOther(s0: Session, ps: seq<Pdu>, p: Pdu, s: Session, i: int, j: int, k: int)
    requires Explained(s0, ps, s, i, j, k)
    ensures !Restarts(p) ==> Explained(s0, ps + [p], s, i, j, k)
    ensures Explained(s0, ps + [p], s.(phase := Phase.Failed), i, j, k)
  {
    hide C1, S1, Response;
  }

  /** Safety: over every PDU sequence STK_READY is reached only through a
      request, then a confirm, then a random, with no restart after the request;
      and then the confirm is c1 of the random and the STK is s1 of the two. */
  lemma {:induction false} PairingSafety(s0: Session, ps: seq<Pdu>) returns (i: int, j: int, k: int)
    requires s0.phase == Idle
    ensures Explained(s0, ps, Run(s0, ps), i, j, k)
    decreases |ps|
  {
    i, j, k := -1, -1, -1;
    if ps != [] {
      hide Handle, OnRequest, OnConfirm, OnRandom, Explained;
      var n := |ps| - 1;
      var p, s := ps[n], Run(s0, ps[..n]);
      i, j, k := PairingSafety(s0, ps[..n]);
      assert ps == ps[..n] + [p];
      Dispatch(s, p);
      SafetyOfOther(s0, ps[..n], p, s, i, j, k);
      if !Expected(s, p) {
        OutOfOrderIsHarmless(s, p);
      } else if Is(p, OP_REQUEST, PAIRING_PDU) {
        SafetyOfRequest(s0, ps[..n], p, s, i, j, k);
        i := n;
      } else if Is(p, OP_CONFIRM, VALUE_PDU) {
        SafetyOfConfirm(s0, ps[..n], p, s, i, j, k);
        j := n;
      } else if Is(p, OP_RANDOM, VALUE_PDU) {
        SafetyOfRandom(s0, ps[..n], p, s, i, j, k);
        k := n;
      }
    }
  }

  /** What holds in the first pairing after `smp_init`, the only request of
      which has the bytes `request`, or has not come yet. */
  ghost predicate FirstPairing(s: Session, passkey: bv32, request: Option<Pairing>) {
    && s.passkey == passkey
    && (s.phase == AwaitingRandom || s.phase == StkReady ==> s.tkReady)
    && (s.phase == AwaitingConfirm ==> !s.tkReady)
    && match request
       case None => !s.tkReady && (s.phase == Idle || s.phase == Phase.Failed)
       case Some(r) => s.jwMode == !PasskeyEntry(r, passkey) && (s.tkReady ==> s.tk == Tk(s.jwMode, passkey))
  }

  lemma FirstPairingStep(s: Session, passkey: bv32, request: Option<Pairing>, p: Pdu)
    requires FirstPairing(s, passkey, request)
    requires Is(p, OP_REQUEST, PAIRING_PDU) ==> request == None
    ensures FirstPairing(Handle(s, p.bytes, p.outMax, p.random).session, passkey,
                         if Is(p, OP_REQUEST, PAIRING_PDU) then Some(p.bytes) else request)
  {
    hide Handle, C1, S1, Tk, PasskeyEntry;
    Dispatch(s, p);
    if !Expected(s, p) {
      OutOfOrderIsHarmless(s, p);
    }
  }

  /** Within the first pairing after `smp_init` the cached key is the TK that
      the one request, at i, negotiated. */
  lemma {:induction false} FirstPairingTk(s0: Session, ps: seq<Pdu>, i: nat)
    requires s0.phase == Idle && !s0.tkReady
    requires forall m :: 0 <= m < |ps| && Is(ps[m], OP_REQUEST, PAIRING_PDU) ==> m == i
    requires i < |ps| ==> Is(ps[i], OP_REQUEST, PAIRING_PDU)
    ensures FirstPairing(Run(s0, ps), s0.passkey, if i < |ps| then Some(ps[i].bytes) else None)
    decreases |ps|
  {
    if ps != [] {
      hide Handle, FirstPairing;
      var n := |ps| - 1;
      assert i < n ==> ps[..n][i] == ps[i];
      FirstPairingTk(s0, ps[..n], i);
      FirstPairingStep(Run(s0, ps[..n]), s0.passkey, if i < n then Some(ps[i].bytes) else None, ps[n]);
    }
  }

  // ----- What a peer reads in an answer ----------------------------------------

  /** The seven bytes of a Pairing Response: a display when there is a passkey to
      show and no input or output else, no OOB data, bonding, MITM protection with
      the passkey, keys of 16 bytes, and the encryption key from this side only. */
  lemma ResponseOffers(passkey: bv32)
    ensures Response(passkey)[0] == 0x02 && Response(passkey)[2] == 0x00
    ensures Response(passkey)[1] == if passkey == 0 then 0x03 else 0x00
    ensures Response(passkey)[3] == if passkey == 0 then 0x01 else 0x05
    ensures Response(passkey)[4..] == [16, 0x00, 0x01]
  {
    assert BLOCK as bv8 == 16;
    assert AUTH_BONDING | AUTH_MITM == 0x05;
  }

  /** The sequence that a PDU breaks: its length or its place is wrong. */
  predicate Misplaced(s: Session, pdu: seq<bv8>)
    requires pdu != []
  {
    || (pdu[0] == 0x01 && |pdu| != 7)
    || (pdu[0] == 0x03 && (|pdu| != 17 || s.phase != AwaitingConfirm))
    || (pdu[0] == 0x04 && (|pdu| != 17 || s.phase != AwaitingRandom))
  }

  /** When each answer is given: failure 8 to a misplaced PDU, failure 7 to an
      opcode that is not for a responder, failure 4 to a random that its confirm
      value does not fit, nothing to a failure and to the peer's keys; and else the
      PDU that belongs to the step. */
  lemma AnswerOf(s: Session, pdu: seq<bv8>, outMax: nat, random: Value)
    requires pdu != [] && outMax >= 2
    ensures var r := Handle(s, pdu, outMax, random).pdu;
      && (r == [0x05, 0x08] <==> Misplaced(s, pdu))
      && (r == [0x05, 0x07] <==> pdu[0] == 0x00 || pdu[0] == 0x02 || pdu[0] > 0x0a)
      && (r == [0x05, 0x04] <==> pdu[0] == 0x04 && !Misplaced(s, pdu)
                                 && C1(s.tk, Reverse(pdu[1..]), s.First(), s.Second()) != s.mconfirm)
      && (r == [] <==> 0x05 <= pdu[0] <= 0x0a)
      && (|r| == 7 <==> pdu[0] == 0x01 && !Misplaced(s, pdu))
      && (|r| == 17 && r[0] == 0x03 <==> pdu[0] == 0x03 && !Misplaced(s, pdu))
      && (|r| == 17 && r[0] == 0x04 <==> pdu[0] == 0x04 && !Misplaced(s, pdu)
                                         && C1(s.tk, Reverse(pdu[1..]), s.First(), s.Second()) == s.mconfirm)
      && (s.phase != Phase.Failed ==>
          (Handle(s, pdu, outMax, random).session.phase == Phase.Failed <==> pdu[0] == 0x05 || r == [0x05, 0x04]))
  {
    hide C1, S1, Tk, PasskeyEntry;
  }

  // ----- The bond -----------------------------------------------------------

  /** What may happen to a bonded session short of a new pairing; a reload puts the
      saved bond into the session that the program has after a power cycle. */
  datatype Later =
    | Reconnect(peer: Addr, peerType: bv8, own: Addr, ownType: bv8, passkey: bv32)
    | Reload(booted: Session)
    | Receive(pdu: Pdu)

  function After(s: Session, l: Later): Session {
    match l
    case Reconnect(peer, peerType, own, ownType, passkey) => Init(s, peer, peerType, own, ownType, passkey)
    case Reload(booted) => SetBond(booted, GetBond(s))
    case Receive(p) => Handle(s, p.bytes, p.outMax, p.random).session
  }

  function AfterAll(s: Session, ls: seq<Later>): Session
    decreases |ls|
  {
    if ls == [] then s else AfterAll(After(s, ls[0]), ls[1..])
  }

  /** What is saved is what is loaded, and with nothing loaded no key is found. */
  lemma BondSavedAndLoaded(s: Session, bond: Option<Bond>, ediv: Ediv, rand: Rand)
    ensures GetBond(SetBond(s, bond)) == bond
    ensures LookupLtk(SetBond(s, bond), ediv, rand) ==
      if bond.Some? && ediv == bond.value.ediv && rand == bond.value.rand then Some(bond.value.ltk) else None
  {
  }

  lemma {:induction false} BondSurvives(s: Session, ls: seq<Later>)
    requires s.bondSet
    requires forall l :: l in ls && l.Receive? ==> !Is(l.pdu, OP_REQUEST, PAIRING_PDU)
    ensures AfterAll(s, ls).bondSet && AfterAll(s, ls).bond == s.bond
    decreases |ls|
  {
    hide C1, S1, Tk;
    if ls != [] {
      assert ls[0] in ls;
      BondSurvives(After(s, ls[0]), ls[1..]);
    }
  }

  /** The LTK takes 17 bytes and its names 11; a PDU that has no room waits. */
  lemma DistributionRoom(s: Session, outMax: nat, drawn: Bond)
    ensures var r := NextPhase3(s, outMax, drawn);
      && (r.pdu != [] <==> (s.phase3 == 0 && outMax >= 17) || (s.phase3 == 1 && outMax >= 11))
      && |r.pdu| <= outMax && r.session.phase3 == s.phase3 + (if r.pdu != [] then 1 else 0)
  {
  }

  /** After any PDU sequence that ends a first pairing, key distribution sends
      the new bond's LTK, then its EDIV and Rand, then nothing; and from then
      on, through reconnects, reloads and any PDU but a new request, the LTK is
      found under exactly that EDIV and Rand. */
  lemma BondRoundTrip(s0: Session, ps: seq<Pdu>, drawn: Bond, d2: Bond, d3: Bond, outMax: nat, ls: seq<Later>,
                      ediv: Ediv, rand: Rand)
    requires s0.phase == Idle && s0.phase3 == 0
    requires Run(s0, ps).phase == StkReady && outMax >= VALUE_PDU
    requires forall l :: l in ls && l.Receive? ==> !Is(l.pdu, OP_REQUEST, PAIRING_PDU)
    ensures var r1 := NextPhase3(Run(s0, ps), outMax, drawn);
      var r2 := NextPhase3(r1.session, outMax, d2);
      var r3 := NextPhase3(r2.session, outMax, d3);
      && r1.pdu == [OP_ENCRYPTION_INFO] + drawn.ltk
      && r2.pdu == [OP_MASTER_IDENTIFICATION] + drawn.ediv + drawn.rand
      && r3.pdu == []
      && LookupLtk(AfterAll(r3.session, ls), ediv, rand)
         == if ediv == drawn.ediv && rand == drawn.rand then Some(drawn.ltk) else None
  {
    var i, j, k := PairingSafety(s0, ps);
    var r1 := NextPhase3(Run(s0, ps), outMax, drawn);
    var r2 := NextPhase3(r1.session, outMax, d2);
    BondSurvives(NextPhase3(r2.session, outMax, d3).session, ls);
  }

  /** So it is on every connection: whatever the session went through before, on the
      new one nothing but a request is taken first, and what its first pairing ends
      with is distributed from the LTK on. */
  lemma EveryConnectionPairs(s: Session, peer: Addr, peerType: bv8, own: Addr, ownType: bv8, passkey: bv32, ps: seq<Pdu>,
                             drawn: Bond, outMax: nat)
    requires outMax >= VALUE_PDU
    ensures var s0 := Init(s, peer, peerType, own, ownType, passkey); var end := Run(s0, ps);
      && s0.bond == s.bond && s0.bondSet == s.bondSet
      && (end.phase == StkReady ==>
          && NextPhase3(end, outMax, drawn).pdu == [0x06] + drawn.ltk
          && exists i :: 0 <= i < |ps| && Is(ps[i], OP_REQUEST, PAIRING_PDU) && end.preq == Reverse(ps[i].bytes))
      && (ps != [] && !Is(ps[0], OP_REQUEST, PAIRING_PDU) && !Is(ps[0], OP_FAILED, |ps[0].bytes|) ==>
          Handle(s0, ps[0].bytes, ps[0].outMax, ps[0].random).session == s0)
  {
    var s0 := Init(s, peer, peerType, own, ownType, passkey);
    var i, j, k := PairingSafety(s0, ps);
    if ps != [] && !Expected(s0, ps[0]) {
      OutOfOrderIsHarmless(s0, ps[0]);
    }
    hide Handle, C1, S1, Tk, Response;
  }
}
