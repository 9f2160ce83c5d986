/** What a device reads: the bytes of the SETUP packets that src/usb/usb_host.c puts
    on the bus, in the numbers of the USB 2.0 and HID 1.11 specifications. */
module UsbWire {
  import opened UsbTransfer
  import opened UsbHost
  import opened UsbSchedule
  import G = UsbGraph

  // ----- Any request --------------------------------------------------------

  /** The fields of section 9.3 of USB 2.0, as a device takes them from the eight
      bytes of a SETUP packet. */
  predicate Reads(p: seq<byte>, r: Request) {
    && |p| == 8
    && (p[0] >= 0x80 <==> r.dirIn) && p[0] % 0x80 == r.kind % 0x80
    && p[1] == r.request
    && p[2] as nat + 256 * p[3] as nat == r.value
    && p[4] as nat + 256 * p[5] as nat == r.index
    && p[6] as nat + 256 * p[7] as nat == r.length
  }

  lemma BytesRead(r: Request)
    ensures Reads(Bytes(r), r)
  {
  }

  /** There are no other eight bytes that are read so. */
  lemma ReadsOnce(p: seq<byte>, q: seq<byte>, r: Request)
    requires Reads(p, r) && Reads(q, r)
    ensures p == q
  {
    assert p[0] == q[0] && p[1] == q[1] && p[2] == q[2] && p[3] == q[3] && p[4] == q[4] && p[5] == q[5] && p[6] == q[6] && p[7] == q[7];
  }

  /** A control transfer starts with a SETUP packet on endpoint 0, DATA0, that is
      read as the request. */
  lemma SetupRead(e: Engine, r: Request)
    ensures var s := BeginSetup(e, r);
      s.txLen == 8 && Reads(s.tx[..8], r) && s.tr.pid == Setup && s.tr.ep == 0 && s.tog == Data0
  {
    hide Bytes, Reads;
    BytesRead(r);
    assert BeginSetup(e, r).tx[..8] == Bytes(r);
  }

  /** A finished one has sent that packet, and no other SETUP packet. */
  lemma FinishedRead(done: seq<Packet>, req: Request, payload: Buffer, ps: seq<seq<byte>>)
    requires Transferred(done, req, payload, ps)
    ensures done != [] && done[0].pid == Setup && done[0].tog == Data0 && Reads(done[0].data, req)
    ensures forall i :: 0 < i < |done| ==> done[i].pid != Setup
  {
    hide Bytes, Reads, InTog;
    BytesRead(req);
  }

  /** An accepted `usb_host_setup` or `usb_host_hid_get_report`, and the address of
      the device it goes to. */
  lemma LaunchRead(a: Vars, b: Vars, h: nat, recv: G.St, d: Data, req: Request)
    requires Launched(a, b, h, recv, Requested(d, req))
    ensures b.e.txLen == 8 && Reads(b.e.tx[..8], req) && b.epPid == 0xd0
    ensures b.devAd == if a.hubs[h].address != 0 then a.hubs[h].address else h + 1
  {
    hide BeginSetup, Reads, G.Enabled, G.Next;
    SetupRead(d.e, req);
    assert DataOf(b, h).e == b.e && DataOf(b, h).epPid == b.epPid;
  }

  /** Over any interleaving of the calls of both hubs: what the device of hub h has
      read at the end is the request, once. */
  lemma CarriedOutRead(a: Vars, vs: seq<Vars>, cs: seq<Call>, h: nat, recv: G.St, d: Data, req: Request)
    requires Plain(req) && Scheduled(vs, cs) && InTransfer(vs, cs, h)
    requires Launched(a, vs[0], h, recv, Requested(d, req)) && G.Inv(Control(vs[0]))
    requires AllHonest(Run(BeginSetup(d.e, req), [], Running), d.hub.maxPacket[0], d.hub.noRetry, Answers(vs, cs, h))
    requires Steps(Run(BeginSetup(d.e, req), [], Running), d.hub.maxPacket[0], d.hub.noRetry, Answers(vs, cs, h)).progress == Finished
    ensures var done := OnTheBus(vs, cs, h);
      && done != [] && done[0].pid == Setup && done[0].tog == Data0 && Reads(done[0].data, req)
      && forall i :: 0 < i < |done| ==> done[i].pid != Setup
  {
    hide BeginSetup, Step, Steps, Answers, OnTheBus, FsmStep, InTransfer, AllHonest, Transferred, Gathered, DataStage, Launched, Reported,
      Requested, G.Inv, Reads;
    var ps := SetupIsCarriedOut(a, vs, cs, h, recv, d, req);
    FinishedRead(OnTheBus(vs, cs, h), req, d.e.buffer, ps);
  }

  // ----- The templates ------------------------------------------------------

  lemma OpeningTemplates(d: Data, b: G.HubCtl, h: nat, m: G.Move)
    requires h < 2 && Templates(d.reqs)
    ensures Templates(OpeningEffect(d, b, h, m).reqs)
  {
    hide BeginSetup, BootOf;
  }

  lemma {:induction false} WalkTemplate(w: Walker, b: Buffer, offset: nat, total: nat)
    requires Template(w.hid, true, 0x01, 0x06) && w.hid.value == 0x2200 && w.hid.index < 0x100
    ensures var r := Walk(w, b, offset, total);
      r.Some? ==> Template(r.value.hid, true, 0x01, 0x06) && r.value.hid.value == 0x2200 && r.value.hid.index < 0x100
    decreases total - offset
  {
    hide InterfaceRead, Byte16;
    if offset < total && Byte(b, offset) > 0 {
      WalkTemplate(DescriptorRead(w, b, offset), b, offset + Byte(b, offset), total);
    }
  }

  lemma ConfigurationTemplates(d: Data, iface: Option<byte>)
    requires Templates(d.reqs) && ConfigurationRead(d, iface).Some?
    ensures Templates(ConfigurationRead(d, iface).value.reqs)
  {
    hide Walk, TotalLength;
    var d1 := HeaderRead(d, iface);
    WalkTemplate(Walker(d1.hub, d1.reqs.getHidReport, false), d1.e.buffer, 0, TotalLength(d1.e.buffer));
  }

  lemma DescriptorTemplates(d: Data, b: G.HubCtl, iface: Option<byte>, m: G.Move)
    requires Templates(d.reqs)
    ensures Templates(DescriptorEffect(d, b, iface, m).reqs)
  {
    hide BeginSetup, ConfigurationRead;
    if ConfigurationRead(d, iface).Some? {
      ConfigurationTemplates(d, iface);
    }
  }

  lemma ClassTemplates(d: Data, b: G.HubCtl)
    requires Templates(d.reqs)
    ensures Templates(ClassEffect(d, b).reqs)
  {
    hide BeginSetup;
  }

  lemma TransferTemplates(d: Data, b: G.HubCtl, recv: G.St, env: Env)
    ensures TransferEffect(d, b, recv, env).reqs == d.reqs
  {
    hide Complete, Issue, StageIn, StageOut, Begin;
  }

  /** No call of `fsm` touches what is fixed in them. */
  lemma TemplatesKept(a: Vars, b: Vars, h: nat, env: Env, m: G.Move)
    requires FsmStep(a, b, h, env, m) && Templates(a.reqs)
    ensures Templates(b.reqs)
  {
    hide Templates, OpeningEffect, DescriptorEffect, ClassEffect, TransferEffect, Choice, Handled;
    var mid := Checked(a, h, env.attached);
    var d, ctl := DataOf(mid, h), mid.hubs[h].ctl;
    assert Shaped(b) by { StepShaped(a, b, h, env, m); }
    OpeningTemplates(d, ctl, h, m);
    DescriptorTemplates(d, ctl, env.iface, m);
    ClassTemplates(d, ctl);
    TransferTemplates(d, ctl, mid.recv, env);
    assert b.reqs == DataOf(b, h).reqs;
  }

  lemma StepShaped(a: Vars, b: Vars, h: nat, env: Env, m: G.Move)
    requires FsmStep(a, b, h, env, m)
    ensures Shaped(b)
  {
    hide Effect, Choice, G.Moves, G.After, AddressRule;
  }

  // ----- The requests of an enumeration --------------------------------------

  /** The two bytes of a length. */
  predicate Two(p: seq<byte>, n: uint16) {
    |p| == 8 && p[6] as nat + 256 * p[7] as nat == n
  }

  /** The SETUP packet that each sending state puts on the bus. */
  predicate Asked(v: Vars, h: nat, p: seq<byte>)
    requires Shaped(v) && h < 2
  {
    var st := v.hubs[h].ctl.st;
    && |p| == 8
    && if st <= G.GET_STRING_DESC then OpeningPacket(v, h, p)
       else if st <= G.GET_HID_REPORT_DESC then DescriptorPacket(v, h, p)
       else ClassPacket(v, h, p)
  }

  predicate OpeningPacket(v: Vars, h: nat, p: seq<byte>)
    requires Shaped(v) && h < 2
  {
    var hub, st := v.hubs[h], v.hubs[h].ctl.st;
    if st == G.SET_ADDRESS then p == [0x00, 0x05, if hub.address != 0 then hub.address else h + 1, 0, 0, 0, 0, 0]
    else if st == G.GET_DEVICE_DESC then p == [0x80, 0x06, 0x00, 0x01, 0, 0, if hub.ctl.initial then 8 else 18, 0]
    else
      st == G.GET_STRING_DESC && Two(p, v.reqs.getString.length) && p[..6] == [0x80, 0x06, FirstOf(v.strings), 0x03, 0x09, 0x04]
  }

  predicate DescriptorPacket(v: Vars, h: nat, p: seq<byte>)
    requires Shaped(v) && h < 2
  {
    var q, st := v.reqs, v.hubs[h].ctl.st;
    if st == G.GET_CONFIGURATION_DESC then Two(p, q.getConfig.length) && p[..6] == [0x80, 0x06, 0x00, 0x02, 0, 0]
    else if st == G.SET_CONFIGURATION then p == [0x00, 0x09, q.setConfig.value % 0x100, 0, 0, 0, 0, 0]
    else if st == G.SET_FEATURE then p == [0x00, 0x03, 1, 0, 0, 0, 0, 0]
    else
      && st == G.GET_HID_REPORT_DESC
      && Two(p, q.getHidReport.length) && p[..6] == [0x81, 0x06, 0x00, 0x22, q.getHidReport.index % 0x100, 0]
  }

  predicate ClassPacket(v: Vars, h: nat, p: seq<byte>)
    requires Shaped(v) && h < 2
  {
    var hub, q, st := v.hubs[h], v.reqs, v.hubs[h].ctl.st;
    if st == G.HID_SET_PROTOCOL then p == [0x21, 0x0b, if hub.boot == Selected then 0 else 1, 0, 0, 0, 0, 0]
    else if st == G.GET_HUB_DESC then Two(p, q.getHub.length) && p[..6] == [0xa0, 0x06, 0x00, 0x29, 0, 0]
    else if st == G.SET_PORT_POWER_FEATURE then
      Two(p, 0) && p[4] as nat + 256 * p[5] as nat == q.setPortPower.index && p[..4] == [0x23, 0x03, 8, 0]
    else
      && st == G.CLEAR_PORT_CONNECTION_FEATURE
      && Two(p, 0) && p[4] as nat + 256 * p[5] as nat == q.clearPort.index && p[..4] == [0x23, 0x01, 16, 0]
  }

  /** The first string index that is not zero. */
  function FirstOf(strings: Strings): byte {
    if strings[0] != 0 then strings[0] else if strings[1] != 0 then strings[1] else strings[2]
  }

  lemma RequestedRead(d: Data, r: Request)
    ensures var e := Requested(d, r).e; var p := e.tx[..8];
      && e.txLen == 8 && |p| == 8 && p == Bytes(r)
      && p[0] == r.kind % 0x80 + (if r.dirIn then 0x80 else 0) && p[1] == r.request && p[2] == r.value % 0x100 && p[3] == r.value / 0x100
      && p[4] == r.index % 0x100 && p[5] == r.index / 0x100 && p[6] == r.length % 0x100 && p[7] == r.length / 0x100
    ensures Requested(d, r).epPid == 0xd0
  {
    hide Bytes;
    assert BeginSetup(d.e, r).tx[..8] == Bytes(r);
    BytesAre(r);
  }

  lemma BytesAre(r: Request)
    ensures var p := Bytes(r);
      && p[0] == r.kind % 0x80 + (if r.dirIn then 0x80 else 0) && p[1] == r.request && p[2] == r.value % 0x100 && p[3] == r.value / 0x100
      && p[4] == r.index % 0x100 && p[5] == r.index / 0x100 && p[6] == r.length % 0x100 && p[7] == r.length / 0x100
  {
  }

  lemma AddressAsked(v: Vars, h: nat, m: G.Move)
    requires Shaped(v) && h < 2 && Templates(v.reqs) && m.act.Send? && v.hubs[h].ctl.st == G.SET_ADDRESS
    ensures var d := OpeningEffect(DataOf(v, h), v.hubs[h].ctl, h, m);
      d.e.txLen == 8 && Asked(v, h, d.e.tx[..8]) && d.epPid == 0xd0
  {
    hide Requested, DeviceRead, Bytes;
    var d, r := DataOf(v, h), v.reqs.setAddress.(value := Target(v.hubs[h], h));
    RequestedRead(d.(reqs := v.reqs.(setAddress := r)), r);
  }

  lemma DeviceDescriptorAsked(v: Vars, h: nat, m: G.Move)
    requires Shaped(v) && h < 2 && Templates(v.reqs) && m.act.Send? && v.hubs[h].ctl.st == G.GET_DEVICE_DESC
    ensures var d := OpeningEffect(DataOf(v, h), v.hubs[h].ctl, h, m);
      d.e.txLen == 8 && Asked(v, h, d.e.tx[..8]) && d.epPid == 0xd0
  {
    hide Requested, DeviceRead, Bytes;
    var d, r := DataOf(v, h), v.reqs.getDevice.(length := if v.hubs[h].ctl.initial then 0x08 else 0x12);
    RequestedRead(d.(reqs := v.reqs.(getDevice := r)), r);
  }

  lemma StringDescriptorAsked(v: Vars, h: nat, m: G.Move)
    requires Shaped(v) && h < 2 && Templates(v.reqs) && m.act.Send? && v.hubs[h].ctl.st == G.GET_STRING_DESC
    requires FirstString(v.strings) < 3
    ensures var d := OpeningEffect(DataOf(v, h), v.hubs[h].ctl, h, m);
      d.e.txLen == 8 && Asked(v, h, d.e.tx[..8]) && d.epPid == 0xd0
  {
    hide Requested, DeviceRead, Bytes;
    var d, r := DataOf(v, h), v.reqs.getString.(value := Word(v.strings[FirstString(v.strings)], DESC_STRING));
    RequestedRead(d.(reqs := v.reqs.(getString := r)), r);
    assert v.strings[FirstString(v.strings)] == FirstOf(v.strings);
    hide FirstString, FirstOf;
  }

  lemma DescriptorAsked(v: Vars, h: nat, iface: Option<byte>, m: G.Move)
    requires Shaped(v) && h < 2 && Templates(v.reqs) && m.act.Send? && G.GET_STRING_DESC < v.hubs[h].ctl.st <= G.GET_HID_REPORT_DESC
    requires G.DescriptorMove(v.hubs[h].ctl, m)
    ensures var d := DescriptorEffect(DataOf(v, h), v.hubs[h].ctl, iface, m);
      d.e.txLen == 8 && Asked(v, h, d.e.tx[..8]) && d.epPid == 0xd0
  {
    hide Requested, StringRead, ConfigurationRead, Bytes;
    var d, q := DataOf(v, h), v.reqs;
    RequestedRead(d, q.getConfig);
    RequestedRead(d, q.setConfig);
    RequestedRead(d.(hub := d.hub.(noRetry := true)), q.setFeature);
    RequestedRead(d, q.getHidReport);
  }

  lemma ProtocolRead(v: Vars, h: nat)
    requires Shaped(v) && h < 2 && Templates(v.reqs) && v.hubs[h].ctl.st == G.HID_SET_PROTOCOL
    ensures var d := ClassEffect(DataOf(v, h), v.hubs[h].ctl);
      d.e.txLen == 8 && Asked(v, h, d.e.tx[..8]) && d.epPid == 0xd0
  {
    hide Requested, HubRead, PortPowered, Bytes;
    var d, r := DataOf(v, h), v.reqs.hidSetProtocol.(value := if v.hubs[h].boot == Selected then 0 else 1);
    RequestedRead(d.(reqs := v.reqs.(hidSetProtocol := r)), r);
  }

  lemma ClassAsked(v: Vars, h: nat, m: G.Move)
    requires Shaped(v) && h < 2 && Templates(v.reqs) && m.act.Send? && G.GET_HID_REPORT_DESC < v.hubs[h].ctl.st <= G.HID_GET_REPORT
    requires v.hubs[h].ctl.st != G.HID_SET_PROTOCOL
    requires G.ClassMove(v.hubs[h].ctl, m) && ClassChoice(DataOf(v, h), v.hubs[h].ctl, m)
    ensures var d := ClassEffect(DataOf(v, h), v.hubs[h].ctl);
      d.e.txLen == 8 && Asked(v, h, d.e.tx[..8]) && d.epPid == 0xd0
  {
    hide Requested, HubRead, ProtocolAsked, PortsDone, Bytes;
    var d, q := DataOf(v, h), v.reqs;
    RequestedRead(d, q.getHub);
    RequestedRead(d, q.setPortPower);
    RequestedRead(d, q.clearPort);
  }

  /** In the states before the configuration is read. */
  lemma OpeningAsked(v: Vars, h: nat, present: bool, m: G.Move)
    requires Shaped(v) && h < 2 && Templates(v.reqs) && m.act.Send? && v.hubs[h].ctl.st <= G.GET_STRING_DESC
    requires G.OpeningMove(v.hubs[h].ctl, v.lock == G.FREE, m) && OpeningChoice(DataOf(v, h), v.hubs[h].ctl, present, m)
    ensures var d := OpeningEffect(DataOf(v, h), v.hubs[h].ctl, h, m);
      d.e.txLen == 8 && Asked(v, h, d.e.tx[..8]) && d.epPid == 0xd0
  {
    hide OpeningEffect, Asked, Templates;
    if v.hubs[h].ctl.st == G.SET_ADDRESS {
      AddressAsked(v, h, m);
    } else if v.hubs[h].ctl.st == G.GET_DEVICE_DESC {
      DeviceDescriptorAsked(v, h, m);
    } else {
      StringDescriptorAsked(v, h, m);
    }
  }

  /** Every request of an enumeration, on the wire. */
  lemma RequestOnWire(a: Vars, b: Vars, h: nat, env: Env, m: G.Move)
    requires FsmStep(a, b, h, env, m) && m.act.Send? && Templates(a.reqs)
    requires !G.Engine(Checked(a, h, env.attached).hubs[h].ctl.st)
    ensures var mid := Checked(a, h, env.attached);
      b.e.txLen == 8 && Asked(mid, h, b.e.tx[..8]) && b.epPid == 0xd0
  {
    hide Templates, Asked, OpeningEffect, DescriptorEffect, ClassEffect, TransferEffect, OpeningChoice, DescriptorChoice, ClassChoice,
      TransferChoice, G.OpeningMove, G.DescriptorMove, G.ClassMove, G.After, AddressRule;
    var mid := Checked(a, h, env.attached);
    assert Shaped(b) && b.e == DataOf(b, h).e && b.epPid == DataOf(b, h).epPid;
    if mid.hubs[h].ctl.st <= G.GET_STRING_DESC {
      OpeningAsked(mid, h, env.present, m);
    } else if mid.hubs[h].ctl.st <= G.GET_HID_REPORT_DESC {
      DescriptorAsked(mid, h, env.iface, m);
    } else if mid.hubs[h].ctl.st == G.HID_SET_PROTOCOL {
      ProtocolRead(mid, h);
    } else {
      ClassAsked(mid, h, m);
    }
  }

  /** `usb_host_hid_get_report` asks for a report of the interface in use. */
  lemma ReportOnWire(d: Data, kind: byte, id: byte, size: byte)
    requires Templates(d.reqs)
    ensures var r := ReportAsked(d, kind, id, size);
      r.e.txLen == 8 && r.e.tx[..8] == [0xa1, 0x01, id, kind, d.hub.iface, 0, size, 0] && Templates(r.reqs)
  {
    hide Requested, Bytes;
    var r := d.reqs.hidGetReport.(value := Word(id, kind), index := d.hub.iface, length := size);
    RequestedRead(d.(reqs := d.reqs.(hidGetReport := r), hub := d.hub.(noRetry := false)), r);
    assert Requested(d.(reqs := d.reqs.(hidGetReport := r), hub := d.hub.(noRetry := false)), r).reqs == d.reqs.(hidGetReport := r) by {
      RequestedKeeps(d.(reqs := d.reqs.(hidGetReport := r), hub := d.hub.(noRetry := false)), r);
    }
  }

  lemma RequestedKeeps(d: Data, r: Request)
    ensures Requested(d, r).reqs == d.reqs && Requested(d, r).hub == d.hub && Requested(d, r).strings == d.strings
  {
    hide BeginSetup;
  }

  /** The address that a device has been told is the one it is spoken to under, as
      long as its hub keeps it. */
  lemma ToldAddressIsUsed(a: Vars, b: Vars, h: nat, env: Env, m: G.Move, v: Vars)
    requires FsmStep(a, b, h, env, m) && m.act.Send? && Templates(a.reqs)
    requires Checked(a, h, env.attached).hubs[h].ctl.st == G.SET_ADDRESS
    requires Sane(v) && v.lock == h && v.hubs[h].address == b.hubs[h].address && G.AddressPhase(v.hubs[h].ctl, v.recv).Addressed?
    ensures b.e.tx[0] == 0x00 && b.e.tx[1] == 0x05 && b.e.tx[2] as nat + 256 * b.e.tx[3] as nat == v.devAd
  {
    hide Effect, Choice, G.Moves, G.After, G.Inv, Templates, OpeningPacket, Bytes;
    RequestOnWire(a, b, h, env, m);
    var mid := Checked(a, h, env.attached);
    var p := b.e.tx[..8];
    assert OpeningPacket(mid, h, p);
    AddressPacket(mid, h, p);
    assert p[0] == b.e.tx[0] && p[1] == b.e.tx[1] && p[2] == b.e.tx[2] && p[3] == b.e.tx[3];
    assert m.act != G.Ms(G.RESET);
    assert b.hubs[h].address == mid.hubs[h].address;
    assert AddressOk(v, h) by {
      if h == 0 {} else {}
    }
  }

  lemma AddressPacket(v: Vars, h: nat, p: seq<byte>)
    requires Shaped(v) && h < 2 && v.hubs[h].ctl.st == G.SET_ADDRESS && |p| == 8 && OpeningPacket(v, h, p)
    ensures p[0] == 0x00 && p[1] == 0x05 && p[2] == (if v.hubs[h].address != 0 then v.hubs[h].address else h + 1) && p[3] == 0
  {
  }

  // ----- Answers and registers ------------------------------------------------

  /** What becomes of a packet, by the handshake codes of table 8-1: STALL ends the
      transfer, data and no handshake are good, NAK is tried again or given up, and
      any other code is an error unless the toggle was right. */
  lemma VerdictByToken(e: Engine, maxPacket: nat, noRetry: bool, a: Answer)
    ensures var v := Complete(e, maxPacket, noRetry, a).v;
      if a.token == 0x0e then v == Stalled
      else if a.togOk || a.token == 0x00 || a.token == 0x03 || a.token == 0x0b then
        v == Continue || v == StartIn || v == StartOut || v == Finish
      else if a.token == 0x0a then v == (if noRetry then NakFail else Retry)
      else v == Error
  {
    hide DirIn, Length, Store;
  }

  /** A packet to send takes as much as is left, up to the 64 bytes of the packet
      buffer, and the rest stays for the next one. */
  lemma PacketFits(e: Engine, tog: Tog)
    requires e.tr.pid != In && |e.tr.out| == e.tr.size
    ensures var n := Issue(e, tog);
      && |n.tx| == 64 && |n.buffer| == 1024 && n.tog == tog
      && n.txLen == (if e.tr.size < 64 then e.tr.size else 64)
      && n.tx[..n.txLen] + n.tr.out == e.tr.out && n.tr.size == |n.tr.out|
  {
  }

  /** The token and endpoint register for each packet of a transfer: OUT is 1, IN
      is 9 and SETUP is 13. */
  lemma TokenOnWire(a: Vars, b: Vars, h: nat, env: Env, m: G.Move)
    requires OwnStep(a, b, h, env, m) && G.TRANSACTION < a.hubs[h].ctl.st
    ensures var st := a.hubs[h].ctl.st;
      && Shaped(b)
      && (st == G.TRANSACTION_IN ==> b.epPid == 0x90 + a.e.tr.ep)
      && (st == G.TRANSACTION_OUT ==> b.epPid == 0x10 + a.e.tr.ep)
      && (st == G.TRANSACTION_CONT || st == G.TRANSACTION_RETRY ==>
            b.epPid == a.e.tr.ep + match a.e.tr.pid { case Setup => 0xd0 case In => 0x90 case Out => 0x10 case Ack => 0x20 })
  {
    hide FsmStep, G.After, G.TransferMove, TransferChoice;
    OwnMove(a, b, h, env, m);
    assert DataOf(b, h).epPid == b.epPid;
  }

  /** A packet that has completed is stopped, whatever follows; one that has not is
      left alone. */
  lemma PacketStops(a: Vars, b: Vars, h: nat, env: Env, m: G.Move)
    requires OwnStep(a, b, h, env, m) && a.hubs[h].ctl.st == G.TRANSACTION
    ensures Shaped(b) && b.epPid == if env.completed then 0 else a.epPid
  {
    hide FsmStep, G.After, G.TransferMove, TransferChoice, Complete, AfterVerdict;
    OwnMove(a, b, h, env, m);
    assert DataOf(b, h).epPid == b.epPid;
  }

  /** The token register behind `usb_host_in`, and behind `usb_host_out` with the
      toggle the packet has. */
  lemma TransferOnWire(d: Data, ep: byte, size: uint16, data: seq<byte>, tog: Tog)
    ensures InAsked(d, ep, size).epPid == 0x90 + ep % 16 && InAsked(d, ep, size).e.tog == Data0
    ensures var out := Reissued(d, Begin(d.e, Out, EndpointOf(ep), 2, data, size, tog)); out.epPid == 0x10 + ep % 16 && out.e.tog == tog
  {
  }

  // ----- The toggles of bulk OUT packets ------------------------------------------

  /** This call ends an OUT transfer of `usb_host_out` well. */
  predicate OutEnds(a: Vars, h: nat, env: Env)
    requires Shaped(a) && h < 2
  {
    && a.hubs[h].ctl.st == G.TRANSACTION && env.completed && a.recv == G.OUT_DONE
    && Complete(a.e, a.hubs[h].maxPacket[a.e.tr.ep], a.hubs[h].noRetry, env.answer).v == Finish
  }

  lemma OpeningToggles(d: Data, b: G.HubCtl, h: nat, m: G.Move)
    requires h < 2
    ensures OpeningEffect(d, b, h, m).hub.toggle == d.hub.toggle
  {
    hide BeginSetup, BootOf;
  }

  lemma {:induction false} WalkToggles(w: Walker, b: Buffer, offset: nat, total: nat)
    ensures var r := Walk(w, b, offset, total); r.Some? ==> r.value.hub.toggle == w.hub.toggle
    decreases total - offset
  {
    hide Byte16;
    if offset < total && Byte(b, offset) > 0 {
      WalkToggles(DescriptorRead(w, b, offset), b, offset + Byte(b, offset), total);
    }
  }

  lemma DescriptorToggles(d: Data, b: G.HubCtl, iface: Option<byte>, m: G.Move)
    ensures DescriptorEffect(d, b, iface, m).hub.toggle
         == if b.st == G.SET_CONFIGURATION_DONE then seq(ENDPOINTS, _ => false) else d.hub.toggle
  {
    hide BeginSetup, Walk, TotalLength;
    var d1 := HeaderRead(d, iface);
    WalkToggles(Walker(d1.hub, d1.reqs.getHidReport, false), d1.e.buffer, 0, TotalLength(d1.e.buffer));
  }

  lemma ClassToggles(d: Data, b: G.HubCtl)
    ensures ClassEffect(d, b).hub.toggle == d.hub.toggle
  {
    hide BeginSetup;
  }

  lemma TransferToggles(d: Data, b: G.HubCtl, recv: G.St, env: Env)
    ensures var after := TransferEffect(d, b, recv, env).hub.toggle;
      var c := Complete(d.e, d.hub.maxPacket[d.e.tr.ep], d.hub.noRetry, env.answer);
      if b.st == G.TRANSACTION && env.completed && recv == G.OUT_DONE && c.v == Finish then
        after == d.hub.toggle[d.e.tr.ep := !d.hub.toggle[d.e.tr.ep]]
      else after == d.hub.toggle
  {
    hide Issue, StageIn, StageOut, Begin, Store, DirIn, Length;
  }

  /** DATA0 and DATA1 alternate over the good OUT transfers of an endpoint, from
      DATA0 on when the configuration is set; nothing else changes a toggle. */
  lemma OutAlternates(a: Vars, b: Vars, h: nat, env: Env, m: G.Move)
    requires OwnStep(a, b, h, env, m)
    ensures Shaped(b)
    ensures var before, after := a.hubs[h].toggle, b.hubs[h].toggle;
      if a.hubs[h].ctl.st == G.SET_CONFIGURATION_DONE then forall i :: 0 <= i < ENDPOINTS ==> !after[i]
      else if OutEnds(a, h, env) then
        forall i :: 0 <= i < ENDPOINTS ==> (after[i] == before[i] <==> i != a.e.tr.ep)
      else after == before
  {
    hide OpeningEffect, DescriptorEffect, ClassEffect, TransferEffect, Choice, Handled, Complete;
    StepShaped(a, b, h, env, m);
    var d, ctl := DataOf(a, h), a.hubs[h].ctl;
    assert Checked(a, h, true) == a;
    OpeningToggles(d, ctl, h, m);
    DescriptorToggles(d, ctl, env.iface, m);
    ClassToggles(d, ctl);
    TransferToggles(d, ctl, a.recv, env);
    assert DataOf(b, h).hub.toggle == b.hubs[h].toggle;
  }
}
