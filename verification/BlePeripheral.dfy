/** The BLE peripheral of src/usb/ble/ble_peripheral.c: bring-up of the controller,
    pairing traffic and key distribution, over a USB host that has one transfer at
    a time.  Notifications of the application are not part of this model. */
module BlePeripheral {
  import Aes
  import opened Smp

  datatype State = Disconnected | Detected | PollEvent | PollAcl | SendHci | SendAcl

  // Bring-up steps, numbered as in the source.
  const IDLE := 0
  const RESET := 1
  const READ_BD_ADDR := 4
  const ADV_ENABLE := 8
  const DONE := 9

  const CID_ATT := 0x0004
  const CID_SMP := 0x0006

  /** Room for a PDU in `acl_tx_buf`. */
  const PDU_ROOM := 23

  /** `bringup_opcode`. */
  function Opcode(step: nat): nat
    requires RESET <= step <= ADV_ENABLE
  {
    [0x0c03, 0x0c01, 0x2001, 0x1009, 0x2006, 0x2008, 0x2009, 0x200a][step - 1]
  }

  /** What `hci_pkt` and `acl_tx_buf` hold, and what goes to the controller. */
  datatype Command = Bringup(step: nat) | LtkReply(handle: nat, ltk: Value) | LtkNegReply(handle: nat)
  datatype Frame = Frame(handle: nat, cid: nat, payload: seq<bv8>)
  datatype Packet = Hci(command: Command) | Acl(frame: Frame)

  /** An HCI event that is long enough to be read. */
  datatype Event =
    | CommandComplete(opcode: nat, status: nat, address: Option<Addr>)
    | ConnectionComplete(status: nat, conn: nat, peerType: bv8, peer: Addr)
    | LtkRequest(conn: nat, rand: Rand, ediv: Ediv)
    | DisconnectionComplete
    | EncryptionChange(status: nat, enabled: bool)
    | OtherEvent

  /** What an IN transfer brought: nothing after a NAK, an event, or a channel PDU. */
  datatype Received = Nothing | Evt(event: Event) | Pdu(cid: nat, payload: seq<bv8>)

  /** What one call of `ble_peripheral_poll` meets: the device comes or goes, the
      IN transfer in flight completes, the bus is idle, the host takes the next
      transfer; the reply of the ATT server and what `random_fill` delivers. */
  datatype Env = Env(detached: bool, found: bool, done: bool, received: Received, idle: bool, accepts: bool,
                     attReply: seq<bv8>, random: Value, drawn: Bond)

  /** The key for an LTK request: the STK while it is fresh, or the bonded key. */
  function KeyFor(s: Session, rand: Rand, ediv: Ediv): Option<Value> {
    if ediv == [0, 0] && rand == [0, 0, 0, 0, 0, 0, 0, 0] && s.phase == StkReady then Some(StkWire(s))
    else LookupLtk(s, ediv, rand)
  }

  function Steps(n: nat): seq<nat> {
    if n == 0 then [] else Steps(n - 1) + [n]
  }

  /** ADV_ENABLE n times. */
  function Reopens(n: nat): seq<nat> {
    if n == 0 then [] else Reopens(n - 1) + [ADV_ENABLE]
  }

  /** The steps asked for when `base` were confirmed in order, then one more was
      asked for, and after it advertising once per disconnection. */
  function AskedFor(base: nat, drops: nat): seq<nat> {
    Steps(if base < ADV_ENABLE then base + 1 else ADV_ENABLE) + Reopens(drops)
  }

  function ConfirmedFor(base: nat, acks: nat): seq<nat> {
    Steps(base) + Reopens(acks)
  }

  /** How far bring-up is: before the first disconnection at the step behind the
      last confirmed one, afterwards at ADV_ENABLE with an answer missing, or done. */
  predicate Reached(step: nat, base: nat, drops: nat, acks: nat) {
    if drops == 0 then RESET <= step <= DONE && base == step - 1 && acks == 0
    else base <= ADV_ENABLE && if step == ADV_ENABLE then acks < drops else step == DONE && 0 < acks <= drops
  }

  /** The bring-up step, the steps confirmed in order before the first
      disconnection, and the disconnections and confirmations of advertising since. */
  datatype BringUp = BringUp(step: nat, base: nat, drops: nat, acks: nat)

  predicate Confirms(step: nat, e: Event) {
    e.CommandComplete? && RESET <= step <= ADV_ENABLE && e.status == 0 && e.opcode == Opcode(step)
  }

  /** What an event makes of it. */
  function Brought(p: BringUp, e: Event): BringUp {
    if Confirms(p.step, e) then
      if p.drops == 0 then p.(step := p.step + 1, base := p.base + 1) else p.(step := p.step + 1, acks := p.acks + 1)
    else if e.DisconnectionComplete? then p.(step := ADV_ENABLE, drops := p.drops + 1)
    else p
  }

  function BroughtBy(p: BringUp, r: Received): BringUp {
    if r.Evt? then Brought(p, r.event) else p
  }

  /** A step is asked for. */
  predicate Asks(step: nat, r: Received) {
    r.Evt? && (r.event.DisconnectionComplete? || (Confirms(step, r.event) && step < ADV_ENABLE))
  }

  /** The step behind the last confirmed one is confirmed. */
  lemma StepConfirmed(step: nat, base: nat, drops: nat, acks: nat)
    requires step <= ADV_ENABLE && Reached(step, base, drops, acks)
    ensures drops == 0 ==>
      && Reached(step + 1, base + 1, drops, acks) && ConfirmedFor(base + 1, acks) == ConfirmedFor(base, acks) + [step]
      && AskedFor(base + 1, drops) == AskedFor(base, drops) + if step < ADV_ENABLE then [step + 1] else []
    ensures drops > 0 ==>
      step == ADV_ENABLE && Reached(DONE, base, drops, acks + 1) && ConfirmedFor(base, acks + 1) == ConfirmedFor(base, acks) + [step]
  {
  }

  lemma Dropped(step: nat, base: nat, drops: nat, acks: nat)
    requires Reached(step, base, drops, acks)
    ensures Reached(ADV_ENABLE, base, drops + 1, acks) && AskedFor(base, drops + 1) == AskedFor(base, drops) + [ADV_ENABLE]
    ensures drops == 0 ==> base == step - 1
  {
  }

  lemma Started()
    ensures AskedFor(0, 0) == [RESET] && ConfirmedFor(0, 0) == [] && Reached(RESET, 0, 0, 0)
  {
    assert Steps(1) == [1];
  }

  lemma {:induction false} StepsHold(n: nat, k: nat)
    ensures k in Steps(n) <==> 0 < k <= n
  {
    if n > 0 {
      StepsHold(n - 1, k);
    }
  }

  lemma {:induction false} ReopensHold(n: nat, k: nat)
    ensures k in Reopens(n) <==> k == ADV_ENABLE && n > 0
  {
    if n > 0 {
      ReopensHold(n - 1, k);
    }
  }

  lemma ConfirmedSteps(base: nat, acks: nat, k: nat)
    ensures k in ConfirmedFor(base, acks) <==> 0 < k <= base || (k == ADV_ENABLE && acks > 0)
  {
    StepsHold(base, k);
    ReopensHold(acks, k);
  }

  /** Behind a disconnection every step before advertising has been confirmed if
      and only if the first one came when advertising had been asked for. */
  lemma AllConfirmedIff(base: nat, acks: nat)
    ensures (forall k :: 0 < k < ADV_ENABLE ==> k in ConfirmedFor(base, acks)) <==> base + 1 >= ADV_ENABLE
  {
    forall k | 0 < k < ADV_ENABLE ensures k in ConfirmedFor(base, acks) <==> k <= base {
      ConfirmedSteps(base, acks, k);
    }
    if base + 1 < ADV_ENABLE {
      assert ADV_ENABLE - 1 !in ConfirmedFor(base, acks);
    }
  }

  /** A disconnection in the middle of bring-up: advertising is enabled while the
      step that is under way is never confirmed and the ones behind it are never
      even asked for. */
  lemma StepsSkipped(base: nat, drops: nat, acks: nat, k: nat)
    requires drops > 0 && base < k < ADV_ENABLE
    ensures ADV_ENABLE in AskedFor(base, drops) && k !in ConfirmedFor(base, acks)
    ensures base + 1 < k ==> k !in AskedFor(base, drops)
  {
    ConfirmedSteps(base, acks, k);
    StepsHold(base + 1, k);
    ReopensHold(drops, k);
    ReopensHold(drops, ADV_ENABLE);
  }

  lemma FewSteps()
    ensures AskedFor(1, 1) == [RESET, 2, ADV_ENABLE] && ConfirmedFor(1, 1) == [RESET, ADV_ENABLE]
  {
    assert Steps(2) == [1, 2] && Steps(1) == [1] && Reopens(1) == [ADV_ENABLE];
  }

  function SecurityRequest(passkey: bv32): seq<bv8> {
    [0x0b, if passkey != 0 then AUTH_BONDING | AUTH_MITM else AUTH_BONDING]
  }

  /** The PDU of key distribution that is under way. */
  function DistributionPdu(s: Session): seq<bv8> {
    if s.phase3 == 1 then [OP_ENCRYPTION_INFO] + s.bond.ltk else [OP_MASTER_IDENTIFICATION] + s.bond.ediv + s.bond.rand
  }

  function Bonded(s: Session, drawn: Bond): Session {
    if s.bondSet then s else s.(bond := drawn, bondSet := true)
  }

  /** Key distribution goes on to its next PDU, or is over. */
  lemma NextOfDistribution(s: Session, drawn: Bond)
    ensures NextPhase3(s, PDU_ROOM, drawn) ==
      if s.phase3 <= 1 then
        var next := Bonded(s, drawn).(phase3 := s.phase3 + 1);
        Reply(next, DistributionPdu(next))
      else Reply(Bonded(s, drawn), [])
  {
  }

  lemma DistributionHasPdu(s: Session)
    ensures DistributionPdu(s) != []
  {
  }

  lemma NextFacts(s: Session, drawn: Bond)
    ensures var next := NextPhase3(s, PDU_ROOM, drawn);
      && next.session.bondSet && next.session.bond == (if s.bondSet then s.bond else drawn)
      && (next.pdu == [] <==> s.phase3 > 1)
      && (s.phase3 <= 1 ==> next.session.phase3 == s.phase3 + 1 && next.pdu == DistributionPdu(next.session))
  {
    hide NextPhase3, DistributionPdu;
    NextOfDistribution(s, drawn);
    DistributionHasPdu(Bonded(s, drawn).(phase3 := s.phase3 + 1));
  }

  class Peripheral {
    var state: State
    var step: nat
    var hciPkt: Command
    var aclBuf: Frame
    var smp: Session
    var handle: nat
    var encrypted: bool
    /** `smp_phase3_pending`. */
    var pending: bool
    var own: Addr
    const passkey: bv32
    /** What the last `save_bond` callback got. */
    var saved: Option<Bond>
    /** An IN transfer of this driver is in flight. */
    var inFlight: bool

    /** Every packet produced for the controller and every one handed over, since
        the device was attached. */
    ghost var produced: seq<Packet>
    ghost var sent: seq<Packet>
    /** The bring-up steps asked for and those confirmed; the steps confirmed in
        order before the first disconnection, and the disconnections and the
        confirmations of advertising since. */
    ghost var asked: seq<nat>
    ghost var confirmed: seq<nat>
    ghost var base: nat
    ghost var drops: nat
    ghost var acks: nat

    predicate Polling()
      reads this
    {
      state == PollEvent || state == PollAcl
    }

    /** What is staged: a buffer, as it is now. */
    function Staged(): seq<Packet>
      reads this
    {
      if state == SendHci then [Hci(hciPkt)] else if state == SendAcl then [Acl(aclBuf)] else []
    }

    ghost function Bring(): BringUp
      reads this
    {
      BringUp(step, base, drops, acks)
    }

    /** The device is in use: one endpoint is polled or a packet is staged. */
    predicate Running()
      reads this
    {
      Polling() || state == SendHci || state == SendAcl
    }

    /** Nothing produced is lost, changed or out of order, responses are only
        produced while there is room to stage them, key distribution keeps the
        line, and bring-up asks for each step once the one before is confirmed,
        and for advertising once more per disconnection. */
    ghost predicate Valid()
      reads this
    {
      && (inFlight ==> Polling())
      && produced == sent + Staged()
      && (pending ==> state == SendAcl && encrypted && smp.bondSet && 1 <= smp.phase3 <= 2
                      && aclBuf.cid == CID_SMP && aclBuf.payload == DistributionPdu(smp))
      && BroughtUp()
    }

    ghost predicate BroughtUp()
      reads this
    {
      && step <= DONE
      && (Polling() || Staged() != [] ==>
            Reached(step, base, drops, acks) && asked == AskedFor(base, drops) && confirmed == ConfirmedFor(base, acks))
    }

    ghost predicate SessionKept(s: Session, b: Option<Bond>)
      reads this
    {
      smp == s && saved == b
    }

    constructor (passkey: bv32, bond: Option<Bond>, s: Session)
      ensures Valid() && state == Disconnected && smp == SetBond(s, bond)
    {
      this.passkey := passkey;
      state, step, inFlight, encrypted, pending := Disconnected, IDLE, false, false, false;
      hciPkt, aclBuf, handle := LtkNegReply(0), Frame(0, 0, []), 0;
      own, saved := [0, 0, 0, 0, 0, 0], None;
      smp := SetBond(s, bond);
      produced, sent, asked, confirmed, base, drops, acks := [], [], [], [], 0, 0, 0;
    }

    /** Fills the HCI buffer, then `stage_tx` with it. */
    method SendCommand(c: Command) returns (ok: bool)
      modifies this`hciPkt, this`state, this`produced
      ensures ok == old(Polling()) && hciPkt == c && produced == old(produced) + [Hci(c)]
      ensures state == if ok then SendHci else old(state)
    {
      hciPkt := c;
      produced := produced + [Hci(c)];
      if state != PollEvent && state != PollAcl {
        return false;
      }
      state := SendHci;
      ok := true;
    }

    /** `l2cap_build` into the ACL buffer, then `stage_tx` with it. */
    method SendFrame(cid: nat, payload: seq<bv8>) returns (ok: bool)
      modifies this`aclBuf, this`state, this`produced
      ensures ok == old(Polling()) && aclBuf == Frame(handle, cid, payload) && produced == old(produced) + [Acl(aclBuf)]
      ensures state == if ok then SendAcl else old(state)
    {
      aclBuf := Frame(handle, cid, payload);
      produced := produced + [Acl(aclBuf)];
      if state != PollEvent && state != PollAcl {
        return false;
      }
      state := SendAcl;
      ok := true;
    }

    /** `send_bringup_step`. */
    method AskStep()
      requires Polling() && produced == sent && RESET <= step <= ADV_ENABLE
      modifies this`hciPkt, this`state, this`produced, this`asked
      ensures state == SendHci && hciPkt == Bringup(step) && produced == old(produced) + [Hci(hciPkt)]
      ensures asked == old(asked) + [step]
    {
      asked := asked + [step];
      var _ := SendCommand(Bringup(step));
    }

    /** The step is confirmed and the next one asked for. */
    method Advance()
      requires Valid() && Polling() && !inFlight && RESET <= step <= ADV_ENABLE
      modifies this`step, this`hciPkt, this`state, this`produced, this`asked, this`confirmed, this`base, this`acks
      ensures Valid() && !inFlight && !pending && step == old(step) + 1
      ensures if drops == 0 then base == old(base) + 1 && acks == old(acks) else base == old(base) && acks == old(acks) + 1
      ensures produced == old(produced) + (if step <= ADV_ENABLE then [Hci(Bringup(step))] else [])
      ensures state == if step <= ADV_ENABLE then SendHci else old(state)
    {
      hide AskedFor, ConfirmedFor, Reached, DistributionPdu;
      StepConfirmed(step, base, drops, acks);
      confirmed := confirmed + [step];
      if drops == 0 {
        base := base + 1;
      } else {
        acks := acks + 1;
      }
      if step == ADV_ENABLE {
        step := DONE;
      } else {
        step := step + 1;
        AskStep();
      }
    }

    /** A command that completed. */
    method OnCommandComplete(opcode: nat, status: nat, address: Option<Addr>)
      requires Valid() && Polling() && !inFlight
      modifies this`own, this`step, this`hciPkt, this`state, this`produced, this`asked, this`confirmed, this`base, this`acks
      ensures Valid() && !pending && Running()
      ensures var e := CommandComplete(opcode, status, address); var hit := Confirms(old(step), e);
        && Bring() == Brought(old(Bring()), e)
        && produced == old(produced) + (if hit && step <= ADV_ENABLE then [Hci(Bringup(step))] else [])
        && state == (if hit && step <= ADV_ENABLE then SendHci else old(state))
        && own == (if hit && old(step) == READ_BD_ADDR && address.Some? then address.value else old(own))
    {
      hide AskedFor, ConfirmedFor, Reached, DistributionPdu, Opcode;
      if RESET <= step <= ADV_ENABLE && opcode == Opcode(step) && status == 0 {
        if step == READ_BD_ADDR && address.Some? {
          own := address.value;
        }
        Advance();
      }
    }

    /** `on_le_connection_complete`: a new session, and a security request. */
    method OnConnectionComplete(status: nat, conn: nat, peerType: bv8, peer: Addr)
      requires Valid() && Polling() && !inFlight
      modifies this`handle, this`encrypted, this`pending, this`smp, this`aclBuf, this`state, this`produced
      ensures Valid() && !pending && Running()
      ensures status != 0 ==> smp == old(smp) && produced == old(produced)
      ensures status == 0 ==>
        && smp == Init(old(smp), peer, peerType, old(own), 0, passkey) && handle == conn && !encrypted
        && produced == old(produced) + [Acl(Frame(conn, CID_SMP, SecurityRequest(passkey)))]
    {
      hide Init, SecurityRequest, DistributionPdu, AskedFor, ConfirmedFor, Reached;
      if status != 0 {
        return;
      }
      handle, encrypted, pending := conn, false, false;
      smp := Init(smp, peer, peerType, own, 0, passkey);
      var _ := SendFrame(CID_SMP, SecurityRequest(passkey));
    }

    /** `handle_le_ltk_request`. */
    method OnLtkRequest(conn: nat, rand: Rand, ediv: Ediv)
      requires Valid() && Polling() && !inFlight
      modifies this`hciPkt, this`state, this`produced
      ensures Valid() && !pending && Running()
      ensures var key := KeyFor(old(smp), rand, ediv);
        produced == old(produced) + [Hci(if key.Some? then LtkReply(conn, key.value) else LtkNegReply(conn))]
    {
      hide AskedFor, ConfirmedFor, Reached, DistributionPdu;
      var key := None;
      if ediv[0] == 0 && ediv[1] == 0 {
        var zero := true;
        for i := 0 to 8
          invariant zero && forall k :: 0 <= k < i ==> rand[k] == 0
        {
          if rand[i] != 0 {
            zero := false;
            break;
          }
        }
        if zero && smp.phase == StkReady {
          key := Some(StkWire(smp));
        }
      }
      if key.None? {
        key := LookupLtk(smp, ediv, rand);
      }
      if key.Some? {
        var _ := SendCommand(LtkReply(conn, key.value));
      } else {
        var _ := SendCommand(LtkNegReply(conn));
      }
    }

    /** `pump_phase3`: stages the next PDU of key distribution, or ends it. */
    method PumpPhase3(drawn: Bond)
      requires Polling() && produced == sent && !inFlight && pending && encrypted && BroughtUp()
      modifies this`smp, this`pending, this`saved, this`aclBuf, this`state, this`produced
      ensures Valid() && Running()
      ensures smp.bondSet && smp.bond == if old(smp.bondSet) then old(smp.bond) else drawn
      ensures old(smp.phase3) <= 1 ==>
        pending && smp.phase3 == old(smp.phase3) + 1 && produced == old(produced) + [Acl(Frame(handle, CID_SMP, DistributionPdu(smp)))]
      ensures old(smp.phase3) > 1 ==> !pending && smp.phase == Idle && saved == Some(smp.bond) && produced == old(produced)
    {
      hide NextPhase3, DistributionPdu, AskedFor, ConfirmedFor, Reached;
      NextFacts(smp, drawn);
      var next := NextPhase3(smp, PDU_ROOM, drawn);
      smp := next.session;
      if next.pdu == [] {
        pending := false;
        smp := smp.(phase := Idle);
        saved := GetBond(smp);
      } else {
        var _ := SendFrame(CID_SMP, next.pdu);
      }
    }

    /** `handle_encryption_change`. */
    method OnEncryptionChange(status: nat, enabled: bool, drawn: Bond)
      requires Valid() && Polling() && !inFlight
      modifies this`encrypted, this`smp, this`pending, this`saved, this`aclBuf, this`state, this`produced
      ensures Valid() && Running()
      ensures encrypted == if status == 0 then enabled else old(encrypted)
      ensures pending ==> status == 0 && enabled && old(smp).phase == StkReady
      ensures status == 0 && enabled && old(smp).phase == StkReady && old(smp).phase3 <= 1 ==>
        pending && smp.phase3 == old(smp).phase3 + 1
      ensures !pending && !(status == 0 && enabled && old(smp).phase == StkReady) ==> SessionKept(old(smp), old(saved))
    {
      hide AskedFor, ConfirmedFor, Reached;
      if status != 0 {
        return;
      }
      encrypted := enabled;
      if encrypted && smp.phase == StkReady {
        pending := true;
        PumpPhase3(drawn);
      }
    }

    method OnDisconnection()
      requires Valid() && Polling() && !inFlight
      modifies this`encrypted, this`pending, this`step, this`drops, this`hciPkt, this`state, this`produced, this`asked
      ensures Valid() && !encrypted && !pending && state == SendHci
      ensures Bring() == Brought(old(Bring()), DisconnectionComplete)
      ensures step == ADV_ENABLE && produced == old(produced) + [Hci(Bringup(ADV_ENABLE))]
      ensures old(drops) == 0 ==> base == old(step) - 1
    {
      hide AskedFor, ConfirmedFor, Reached, DistributionPdu;
      encrypted, pending, step := false, false, ADV_ENABLE;
      Dropped(old(step), base, drops, acks);
      drops := drops + 1;
      AskStep();
    }

    /** `handle_event`. */
    method OnEvent(e: Event, drawn: Bond)
      requires Valid() && Polling() && !inFlight
      modifies this
      ensures Valid() && !inFlight && sent == old(sent) && Running()
      ensures Bring() == Brought(old(Bring()), e)
      ensures Asks(old(step), Evt(e)) ==> state == SendHci && !pending
      ensures e.ConnectionComplete? && e.status == 0 ==>
        smp == Init(old(smp), e.peer, e.peerType, old(own), 0, passkey) && !encrypted
      ensures e.LtkRequest? ==>
        var key := KeyFor(old(smp), e.rand, e.ediv);
        produced == old(produced) + [Hci(if key.Some? then LtkReply(e.conn, key.value) else LtkNegReply(e.conn))]
      ensures e.DisconnectionComplete? ==> !encrypted
      ensures e.OtherEvent? ==> unchanged(this)
      ensures e.EncryptionChange? && e.status == 0 ==> encrypted == e.enabled
      ensures e.EncryptionChange? && e.status == 0 && e.enabled && old(smp).phase == StkReady && old(smp).phase3 <= 1 ==> pending
    {
      hide AskedFor, ConfirmedFor, Reached, DistributionPdu, Opcode;
      match e
      case CommandComplete(opcode, status, address) => OnCommandComplete(opcode, status, address);
      case ConnectionComplete(status, conn, peerType, peer) => OnConnectionComplete(status, conn, peerType, peer);
      case LtkRequest(conn, rand, ediv) => OnLtkRequest(conn, rand, ediv);
      case DisconnectionComplete => OnDisconnection();
      case EncryptionChange(status, enabled) => OnEncryptionChange(status, enabled, drawn);
      case OtherEvent =>
    }

    /** `handle_acl`: at most one reply, on the channel of the PDU. */
    method OnPdu(cid: nat, payload: seq<bv8>, env: Env)
      requires Valid() && Polling() && !inFlight
      modifies this`smp, this`aclBuf, this`state, this`produced
      ensures Valid() && !pending && Running()
      ensures var reply := if cid == CID_SMP then Handle(old(smp), payload, PDU_ROOM, env.random).pdu
                           else if cid == CID_ATT then env.attReply else [];
        produced == old(produced) + if reply == [] then [] else [Acl(Frame(handle, cid, reply))]
      ensures smp == if cid == CID_SMP then Handle(old(smp), payload, PDU_ROOM, env.random).session else old(smp)
    {
      hide Handle, AskedFor, ConfirmedFor, Reached;
      if cid == CID_SMP {
        var r := Handle(smp, payload, PDU_ROOM, env.random);
        smp := r.session;
        if r.pdu != [] {
          var _ := SendFrame(CID_SMP, r.pdu);
        }
      } else if cid == CID_ATT {
        if env.attReply != [] {
          var _ := SendFrame(CID_ATT, env.attReply);
        }
      }
    }

    /** `in_cb`; a short size or a NAK is `Nothing`. */
    method OnReceived(r: Received, env: Env)
      requires Valid() && Polling() && !inFlight
      modifies this
      ensures Valid() && !inFlight && sent == old(sent) && Running()
      ensures r == Nothing ==> produced == old(produced) && state == old(state) && smp == old(smp)
      ensures Bring() == BroughtBy(old(Bring()), r)
      ensures Asks(old(step), r) ==> state == SendHci && !pending
      ensures r.Pdu? && r.cid == CID_SMP ==>
        var reply := Handle(old(smp), r.payload, PDU_ROOM, env.random);
        smp == reply.session && produced == old(produced) + if reply.pdu == [] then [] else [Acl(Frame(handle, CID_SMP, reply.pdu))]
    {
      hide Handle, AskedFor, ConfirmedFor, Reached;
      match r
      case Nothing =>
      case Evt(e) => OnEvent(e, env.drawn);
      case Pdu(cid, payload) => OnPdu(cid, payload, env);
    }

    /** `on_usb_disconnected`: what was staged goes with the device. */
    method OnUsbDisconnected()
      modifies this
      ensures Valid() && state == Disconnected && step == IDLE && !encrypted && !pending && smp == old(smp)
    {
      hide AskedFor, ConfirmedFor, Reached, DistributionPdu;
      state, step, encrypted, pending, inFlight := Disconnected, IDLE, false, false, false;
      produced, sent, asked, confirmed, base, drops, acks := [], [], [], [], 0, 0, 0;
    }

    /** What `usb_host_poll` reports back to this driver. */
    method UsbPoll(env: Env)
      requires Valid()
      modifies this
      ensures Valid()
      ensures old(pending) && !env.detached ==> unchanged(this)
      ensures !env.detached && !old(inFlight) && old(state) != Disconnected ==> unchanged(this)
      ensures !env.detached && old(state) == Disconnected ==> !inFlight && state == if env.found then Detected else Disconnected
      ensures !env.detached && old(Running()) ==> Running()
      ensures !env.detached && old(state) != Disconnected ==>
        Bring() == if old(inFlight) && env.done then BroughtBy(old(Bring()), env.received) else old(Bring())
      ensures !env.detached && old(state) != Disconnected && old(inFlight) && env.done ==>
        !inFlight && (Asks(old(step), env.received) ==> state == SendHci && !pending)
      ensures !env.detached && old(inFlight) && env.done && env.received.Pdu? && env.received.cid == CID_SMP ==>
        var reply := Handle(old(smp), env.received.payload, PDU_ROOM, env.random);
        smp == reply.session && produced == old(produced) + if reply.pdu == [] then [] else [Acl(Frame(handle, CID_SMP, reply.pdu))]
    {
      hide Handle, AskedFor, ConfirmedFor, Reached;
      if env.detached {
        OnUsbDisconnected();
      } else if state == Disconnected {
        if env.found {
          state := Detected;
        }
      } else if inFlight && env.done {
        inFlight := false;
        OnReceived(env.received, env);
      }
    }

    /** A transfer was handed over; phase 3 goes first, while the line is free. */
    method OnSent(drawn: Bond)
      requires state == PollEvent && produced == sent && !inFlight && BroughtUp() && (pending ==> encrypted)
      modifies this`smp, this`pending, this`saved, this`aclBuf, this`state, this`produced
      ensures Valid() && Running()
      ensures !old(pending) ==> unchanged(this)
      ensures old(pending) ==> smp.bondSet && smp.bond == if old(smp.bondSet) then old(smp.bond) else drawn
      ensures old(pending) && old(smp.phase3) <= 1 ==> pending && smp.phase3 == old(smp.phase3) + 1
      ensures old(pending) && old(smp.phase3) > 1 ==> !pending && smp.phase == Idle && saved == Some(smp.bond)
    {
      if pending && encrypted {
        PumpPhase3(drawn);
      }
    }

    /** The staged packet goes to the controller. */
    method HandOver(drawn: Bond)
      requires Valid() && (state == SendHci || state == SendAcl)
      modifies this`sent, this`smp, this`pending, this`saved, this`aclBuf, this`state, this`produced
      ensures Valid() && Running() && !inFlight && sent == old(sent) + old(Staged())
      ensures !old(pending) ==> state == PollEvent && !pending
      ensures old(pending) ==> smp.bond == old(smp.bond)
      ensures old(pending) && old(smp.phase3) == 1 ==> pending && smp.phase3 == 2
      ensures old(pending) && old(smp.phase3) == 2 ==> !pending && smp.phase == Idle && saved == Some(smp.bond)
    {
      hide DistributionPdu, AskedFor, ConfirmedFor, Reached;
      sent := sent + Staged();
      state := PollEvent;
      OnSent(drawn);
    }

    /** `ble_peripheral_poll`.  Whatever the controller sends and whenever the
        host takes a transfer: packets go out as they were produced, in order;
        and key distribution, once begun, sends its PDUs back to back, reads
        nothing in between and ends by saving the bond. */
    method Poll(env: Env)
      requires Valid()
      modifies this
      ensures Valid()
      ensures !env.detached && env.idle && env.accepts && !old(inFlight) ==>
        && (old(Polling()) ==> inFlight && Polling() && state != old(state) && pending == old(pending))
        && (old(state) == Detected ==> state == SendHci && !pending && hciPkt == Bringup(RESET) && Bring() == BringUp(RESET, 0, 0, 0))
        && (old(Staged()) != [] ==> sent == old(sent) + old(Staged()) && (!old(pending) ==> state == PollEvent && !pending && !inFlight))
      ensures !env.detached && old(Running()) ==>
        Running() && Bring() == if old(inFlight) && env.done then BroughtBy(old(Bring()), env.received) else old(Bring())
      ensures !env.detached && !env.idle && old(inFlight) && env.done ==>
        !inFlight && (Asks(old(step), env.received) ==> state == SendHci && !pending)
      ensures !env.detached && !env.idle && old(state) == Disconnected ==> !inFlight && state == if env.found then Detected else Disconnected
      ensures !env.detached && !env.idle && old(inFlight) && env.done && env.received.Pdu? && env.received.cid == CID_SMP ==>
        smp == Handle(old(smp), env.received.payload, PDU_ROOM, env.random).session
      ensures old(pending) && !env.detached && !(env.idle && env.accepts) ==> unchanged(this)
      ensures old(pending) && !env.detached && env.idle && env.accepts ==>
        && !inFlight && smp.bond == old(smp.bond)
        && (old(smp.phase3) == 1 ==> pending && smp.phase3 == 2)
        && (old(smp.phase3) == 2 ==> !pending && smp.phase == Idle && saved == Some(smp.bond))
    {
      hide DistributionPdu, Handle, AskedFor, ConfirmedFor, Reached;
      UsbPoll(env);
      if inFlight || !env.idle {
        return;
      }
      match state {
        case Disconnected =>
        case Detected =>
          if env.accepts {
            Start();
          }
        case PollEvent =>
          if env.accepts {
            inFlight, state := true, PollAcl;
          }
        case PollAcl =>
          if env.accepts {
            inFlight, state := true, PollEvent;
          }
        case _ =>
          if env.accepts {
            HandOver(env.drawn);
          }
      }
    }

    /** The device is ready: bring-up starts with a reset. */
    method Start()
      requires Valid() && state == Detected
      modifies this
      ensures Valid() && state == SendHci && hciPkt == Bringup(RESET) && !inFlight && !pending && Bring() == BringUp(RESET, 0, 0, 0)
    {
      hide AskedFor, ConfirmedFor, Reached, DistributionPdu;
      state, step := PollEvent, RESET;
      produced, sent, asked, confirmed, base, drops, acks := [], [], [], [], 0, 0, 0;
      Started();
      AskStep();
    }
  }

  // ----- A disconnection during bring-up, as it happens ------------------------------------

  const NO_BOND := Bond(seq(Aes.BLOCK, _ => 0), [0, 0], [0, 0, 0, 0, 0, 0, 0, 0])

  /** A poll in which the IN transfer in flight brings r, or in which the bus is idle. */
  function Brings(r: Received): Env {
    Env(false, true, true, r, false, false, [], seq(Aes.BLOCK, _ => 0), NO_BOND)
  }

  function Idles(): Env {
    Env(false, true, false, Nothing, true, true, [], seq(Aes.BLOCK, _ => 0), NO_BOND)
  }

  /** The staged step goes out, and its answer comes in. */
  method Exchange(p: Peripheral, e: Event)
    requires p.Valid() && p.state == SendHci && !p.pending && !p.inFlight
    modifies p
    ensures p.Valid() && p.Bring() == Brought(old(p.Bring()), e) && !p.inFlight
    ensures Asks(old(p.step), Evt(e)) ==> p.state == SendHci && !p.pending
    ensures p.Running()
  {
    hide AskedFor, ConfirmedFor, Reached, DistributionPdu, Opcode, Brought, Confirms;
    p.Poll(Idles());
    p.Poll(Idles());
    p.Poll(Brings(Evt(e)));
  }

  /** The driver is started; the link drops when it has asked for the event mask,
      and advertising is confirmed: it counts bring-up as done after two of the
      eight steps, of which one was never confirmed. */
  method DisconnectedEarly(passkey: bv32, s: Session) returns (p: Peripheral)
    ensures fresh(p) && p.Valid() && p.step == DONE
    ensures p.asked == [RESET, 2, ADV_ENABLE] && p.confirmed == [RESET, ADV_ENABLE]
  {
    hide AskedFor, ConfirmedFor, DistributionPdu;
    p := new Peripheral(passkey, None, s);
    p.Poll(Brings(Nothing));
    p.Poll(Idles());
    Exchange(p, CommandComplete(Opcode(RESET), 0, None));
    Exchange(p, DisconnectionComplete);
    Exchange(p, CommandComplete(Opcode(ADV_ENABLE), 0, None));
    FewSteps();
  }
}
