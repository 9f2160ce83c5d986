/** What the controller and the peer get from src/usb/ble/ble_peripheral.c: the keys
    for the link, the bring-up commands and the security request. */
module BleLink {
  import opened Smp
  import opened SmpPairing
  import Ble = BlePeripheral

  const ZERO_EDIV: Ediv := [0, 0]
  const ZERO_RAND: Rand := [0, 0, 0, 0, 0, 0, 0, 0]

  /** The first request for a key behind a pairing in which the two sides agree
      (`PairingAgreement`), which names no EDIV and no Rand (Vol 3 Part H section
      2.4.4.1), gets the key that the initiator holds. */
  lemma LinkKeyIsAgreed(i: Initiator, r1: Reply, r2: Reply, r3: Reply)
    requires Agree(i, r1, r2, r3)
    ensures Ble.KeyFor(r3.session, ZERO_RAND, ZERO_EDIV) == Some(i.Stk(r3.pdu[1..]))
  {
    hide S1Wire, C1Wire;
  }

  /** A key for a named EDIV and Rand is the bonded one, under exactly its names. */
  lemma LinkKeyOfBond(s: Session, rand: Rand, ediv: Ediv)
    requires ediv != ZERO_EDIV || rand != ZERO_RAND || s.phase != StkReady
    ensures Ble.KeyFor(s, rand, ediv) ==
      if s.bondSet && ediv == s.bond.ediv && rand == s.bond.rand then Some(s.bond.ltk) else None
  {
  }

  /** After a first pairing and its key distribution, through reconnects, power
      cycles and any PDU but a new request, the link gets the key that the peer has
      been sent, under the names that it has been sent. */
  lemma LinkKeyIsDistributed(s0: Session, ps: seq<Pdu>, drawn: Bond, outMax: nat, ls: seq<Later>, ediv: Ediv, rand: Rand)
    requires s0.phase == Idle && s0.phase3 == 0
    requires Run(s0, ps).phase == StkReady && outMax >= VALUE_PDU
    requires forall l :: l in ls && l.Receive? ==> !Is(l.pdu, OP_REQUEST, PAIRING_PDU)
    ensures var r1 := NextPhase3(Run(s0, ps), outMax, drawn);
      var r2 := NextPhase3(r1.session, outMax, drawn);
      var s := AfterAll(NextPhase3(r2.session, outMax, drawn).session, ls);
      ediv != ZERO_EDIV || rand != ZERO_RAND || s.phase != StkReady ==>
        Ble.KeyFor(s, rand, ediv) ==
          if [0x07] + ediv + rand == r2.pdu then Some(r1.pdu[1..]) else None
  {
    hide Run, AfterAll, NextPhase3;
    BondRoundTrip(s0, ps, drawn, drawn, drawn, outMax, ls, ediv, rand);
    var r1 := NextPhase3(Run(s0, ps), outMax, drawn);
    var r2 := NextPhase3(r1.session, outMax, drawn);
    var s := AfterAll(NextPhase3(r2.session, outMax, drawn).session, ls);
    assert r1.pdu[1..] == drawn.ltk;
    SameNames(drawn, ediv, rand);
    if ediv != ZERO_EDIV || rand != ZERO_RAND || s.phase != StkReady {
      LinkKeyIsLookedUp(s, rand, ediv);
    }
  }

  lemma LinkKeyIsLookedUp(s: Session, rand: Rand, ediv: Ediv)
    requires ediv != ZERO_EDIV || rand != ZERO_RAND || s.phase != StkReady
    ensures Ble.KeyFor(s, rand, ediv) == LookupLtk(s, ediv, rand)
  {
  }

  lemma SameNames(bond: Bond, ediv: Ediv, rand: Rand)
    ensures [0x07] + ediv + rand == [0x07] + bond.ediv + bond.rand <==> ediv == bond.ediv && rand == bond.rand
  {
    var a, b := [0x07 as bv8] + ediv + rand, [0x07 as bv8] + bond.ediv + bond.rand;
    assert a[1..3] == ediv && a[3..] == rand && b[1..3] == bond.ediv && b[3..] == bond.rand;
  }

  /** The group and the command of each bring-up step (Vol 4 Part E section 7):
      Reset, Set Event Mask, LE Set Event Mask, Read BD_ADDR, and LE Set Advertising
      Parameters, Advertising Data, Scan Response Data and Advertising Enable. */
  lemma OpcodesRead(step: nat)
    requires 1 <= step <= 8
    ensures var group, command := Ble.Opcode(step) / 0x400, Ble.Opcode(step) % 0x400;
      && (group, command) == [(3, 0x03), (3, 0x01), (8, 0x01), (4, 0x09), (8, 0x06), (8, 0x08), (8, 0x09), (8, 0x0a)][step - 1]
  {
  }

  /** Bring-up is over behind step 8, and the channels of ATT and of the Security
      Manager are 4 and 6 (Vol 3 Part A section 2.1). */
  lemma FixedNumbers()
    ensures Ble.ADV_ENABLE == 8 && Ble.Opcode(Ble.READ_BD_ADDR) == 0x1009
    ensures Ble.CID_ATT == 4 && Ble.CID_SMP == 6 && Ble.PDU_ROOM == 23
  {
  }

  /** A Security Request asks for bonding, and for MITM protection when there is a
      passkey (section 3.6.7). */
  lemma SecurityRequestRead(passkey: bv32)
    ensures Ble.SecurityRequest(passkey) == [0x0b, if passkey == 0 then 0x01 else 0x05]
  {
    assert AUTH_BONDING | AUTH_MITM == 0x05;
  }

  // ----- Bring-up over any events ------------------------------------------------

  /** The controller answers step k: a Command Complete event with its opcode and
      the status Success. */
  predicate Answers(e: Ble.Event, k: nat)
    requires 1 <= k <= 8
  {
    && e.CommandComplete? && e.status == 0x00
    && e.opcode == [0x0c03, 0x0c01, 0x2001, 0x1009, 0x2006, 0x2008, 0x2009, 0x200a][k - 1]
  }

  /** An event answers the step under way, sends bring-up back to advertising, or
      means nothing to it. */
  lemma EventMeaning(p: Ble.BringUp, e: Ble.Event)
    ensures var q := Ble.Brought(p, e);
      if 1 <= p.step <= 8 && Answers(e, p.step) then
        q.step == p.step + 1 && q.drops == p.drops
        && if p.drops == 0 then q.base == p.base + 1 && q.acks == p.acks else q.base == p.base && q.acks == p.acks + 1
      else if e.DisconnectionComplete? then q == p.(step := 8, drops := p.drops + 1)
      else q == p
  {
    if 1 <= p.step <= 8 {
      OpcodeIs(p.step);
    }
    hide Ble.Opcode;
  }

  lemma OpcodeIs(step: nat)
    requires 1 <= step <= 8
    ensures Ble.Opcode(step) == [0x0c03, 0x0c01, 0x2001, 0x1009, 0x2006, 0x2008, 0x2009, 0x200a][step - 1]
  {
  }

  /** Bring-up after a run of events, from the reset on. */
  function Through(es: seq<Ble.Event>): Ble.BringUp
    decreases |es|
  {
    if es == [] then Ble.BringUp(1, 0, 0, 0) else Ble.Brought(Through(es[..|es| - 1]), es[|es| - 1])
  }

  /** The events at these places answer steps 1, 2, 3, ... in this order. */
  ghost predicate InOrder(es: seq<Ble.Event>, at: seq<nat>) {
    && |at| <= 8
    && (forall k :: 0 <= k < |at| ==> at[k] < |es| && Answers(es[at[k]], k + 1))
    && (forall j, k :: 0 <= j < k < |at| ==> at[j] < at[k])
  }

  /** Over every run of events on a link that has not dropped: bring-up is at the
      step behind those that have been answered one after the other, and so it is
      over only when all eight have been. */
  lemma {:induction false} BringUpInOrder(es: seq<Ble.Event>) returns (at: seq<nat>)
    ensures Through(es).drops == 0 ==> InOrder(es, at) && Through(es).step == |at| + 1
    ensures Through(es).drops == 0 <==> forall i :: 0 <= i < |es| ==> !es[i].DisconnectionComplete?
    decreases |es|
  {
    at := [];
    if es != [] {
      hide Answers;
      var n := |es| - 1;
      var e, p := es[n], Through(es[..n]);
      at := BringUpInOrder(es[..n]);
      EventMeaning(p, e);
      NoStepTwice(e, p.step);
      if p.drops == 0 && 1 <= p.step <= 8 && Answers(e, p.step) {
        at := at + [n];
      }
    }
  }

  lemma NoStepTwice(e: Ble.Event, step: nat)
    ensures e.DisconnectionComplete? && 1 <= step <= 8 ==> !Answers(e, step)
  {
  }

  /** Once the link has dropped, bring-up counts as over exactly while advertising
      has been answered since the last drop. */
  lemma {:induction false} DoneBehindADrop(es: seq<Ble.Event>)
    requires Through(es).drops > 0
    ensures Through(es).step == 9 <==> exists j :: AnsweredSince(es, j)
    ensures Through(es).step == 8 || Through(es).step == 9
    decreases |es|
  {
    var n := |es| - 1;
    var e, p := es[n], Through(es[..n]);
    EventMeaning(p, e);
    NoStepTwice(e, p.step);
    hide Answers;
    if e.DisconnectionComplete? {
      assert !exists j :: AnsweredSince(es, j);
    } else {
      DoneBehindADrop(es[..n]);
      forall j: nat | AnsweredSince(es[..n], j) ensures AnsweredSince(es, j) {
        assert es[..n][j] == es[j];
      }
      forall j: nat | AnsweredSince(es, j) && j < n ensures AnsweredSince(es[..n], j) {
        assert es[..n][j] == es[j];
      }
      if p.step == 8 && Answers(e, 8) {
        var _ := BringUpInOrder(es[..n]);
        var i :| 0 <= i < n && es[..n][i].DisconnectionComplete?;
        assert es[i].DisconnectionComplete? && AnsweredSince(es, n);
      }
    }
  }

  /** Event j answers advertising, and the link has not dropped behind it but
      before it. */
  ghost predicate AnsweredSince(es: seq<Ble.Event>, j: nat) {
    && j < |es| && Answers(es[j], 8)
    && (exists i :: 0 <= i < j && es[i].DisconnectionComplete?)
    && forall k :: j < k < |es| ==> !es[k].DisconnectionComplete?
  }
}
