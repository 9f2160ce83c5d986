/** What src/usb/usb_host.c learns from the descriptors of a device, by the byte
    offsets of USB 2.0 sections 9.6 and 11.23 and of HID 1.11 section 6.2.1, and
    where the enumeration goes on with it. */
module UsbEnumeration {
  import opened UsbTransfer
  import opened UsbHost
  import opened UsbSchedule
  import opened UsbWire
  import G = UsbGraph

  lemma OwnData(a: Vars, b: Vars, h: nat, env: Env, m: G.Move)
    requires OwnStep(a, b, h, env, m)
    ensures h < 2 && Shaped(a) && Shaped(b) && b.hubs[h].ctl == G.After(a.hubs[h].ctl, m)
    ensures DataOf(b, h) == Effect(DataOf(a, h), a.hubs[h].ctl, a.recv, h, env, m)
    ensures Choice(DataOf(a, h), a.hubs[h].ctl, a.recv, env, m)
    ensures b.hubs[h] == DataOf(b, h).hub.(ctl := b.hubs[h].ctl) && b.reqs == DataOf(b, h).reqs && b.strings == DataOf(b, h).strings
  {
    hide Effect, Choice, G.Moves, G.After, AddressRule;
  }

  /** A device that has just been attached has no address of its own yet, whatever
      a hub switch gave the one before. */
  lemma ConnectForgets(a: Vars, b: Vars, h: nat, env: Env, m: G.Move)
    requires OwnStep(a, b, h, env, m) && a.hubs[h].ctl.st == G.CONNECT
    ensures Shaped(b) && b.hubs[h].address == 0 && b.hubs[h].ctl.initial && b.hubs[h].ctl.resetting
  {
    hide OwnStep, OpeningChoice, DescriptorChoice, ClassChoice, TransferChoice, DescriptorEffect, ClassEffect, TransferEffect,
      StringAsked, AddressSent, DeviceAsked, DeviceRead, G.DescriptorMove, G.ClassMove, G.TransferMove;
    OwnData(a, b, h, env, m);
    assert G.Moves(a.hubs[h].ctl, a.lock == G.FREE, a.recv, m) by { OwnMoves(a, b, h, env, m); }
  }

  lemma OwnMoves(a: Vars, b: Vars, h: nat, env: Env, m: G.Move)
    requires OwnStep(a, b, h, env, m)
    ensures G.Moves(a.hubs[h].ctl, a.lock == G.FREE, a.recv, m)
  {
    hide Effect, Choice, G.Moves, G.After, AddressRule;
  }

  // ----- The device descriptor ------------------------------------------------

  /** Packet size, class, strings, and the lengths that are asked for first. */
  lemma DeviceNoted(a: Vars, b: Vars, h: nat, env: Env, m: G.Move)
    requires OwnStep(a, b, h, env, m) && a.hubs[h].ctl.st == G.GET_DEVICE_DESC_RECV
    ensures Shaped(b)
    ensures var desc, hub, initial := a.e.buffer, b.hubs[h], a.hubs[h].ctl.initial;
      && hub.maxPacket == a.hubs[h].maxPacket[0 := desc[7]]
      && (initial ==> hub.address == 0)
      && (!initial ==>
          && (hub.isHid <==> desc[4] == 0x03) && hub.ports == (if desc[4] == 0x09 then 1 else 0)
          && (hub.boot == Selected <==> desc[4] == 0x03 && desc[5] == 0x01 && desc[6] == 0x01)
          && (hub.boot == NotSupported <==> desc[4] != 0x03 || desc[5] != 0x01)
          && b.strings == [desc[14], desc[15], desc[16]]
          && b.reqs.getString.length == 2 && b.reqs.getConfig.length == 9 && b.reqs.getHub.length == 8)
  {
    hide OwnStep, OpeningChoice, DescriptorChoice, ClassChoice, TransferChoice, G.After, DescriptorEffect, ClassEffect, TransferEffect,
      StringAsked, AddressSent, DeviceAsked;
    OwnData(a, b, h, env, m);
  }

  // ----- Strings --------------------------------------------------------------

  /** The strings with the first that is not zero taken out. */
  function Rest(strings: Strings): Strings {
    if strings[0] != 0 then [0, strings[1], strings[2]]
    else if strings[1] != 0 then [strings[0], 0, strings[2]]
    else [strings[0], strings[1], 0]
  }

  lemma RestIs(strings: Strings)
    ensures FirstString(strings) < 3 ==> strings[FirstString(strings) := 0] == Rest(strings)
    ensures FirstString(strings) == 3 ==> strings == [0, 0, 0] == Rest(strings)
    ensures FirstString(strings) < 3 <==> strings != [0, 0, 0]
  {
  }

  /** A string is asked for twice, first for its two bytes of header and then, if it
      has more, for as many bytes as the header says; then the next one is. */
  lemma StringNoted(a: Vars, b: Vars, h: nat, env: Env, m: G.Move)
    requires OwnStep(a, b, h, env, m) && a.hubs[h].ctl.st == G.GET_STRING_DESC_RECV
    ensures Shaped(b)
    ensures var length := a.e.buffer[0];
      if a.reqs.getString.length == 2 && length != 0 && length != 2 then
        b.strings == a.strings && b.reqs.getString.length == length && b.hubs[h].ctl.next == G.GET_STRING_DESC
      else
        && b.strings == Rest(a.strings)
        && (if b.strings != [0, 0, 0] then b.reqs.getString.length == 2 && b.hubs[h].ctl.next == G.GET_STRING_DESC
            else b.hubs[h].ctl.next == G.GET_CONFIGURATION_DESC)
    ensures b.hubs[h].ctl.st == G.DELAY_US
  {
    hide OwnStep, OpeningChoice, ClassChoice, TransferChoice, OpeningEffect, ClassEffect, TransferEffect, ConfigurationRead, Requested,
      FirstString;
    OwnData(a, b, h, env, m);
    RestIs(a.strings);
    RestIs(b.strings);
    ZeroFirst(a.strings);
  }

  lemma ZeroFirst(strings: Strings)
    ensures FirstString(strings) == 3 ==> strings[0 := 0] == strings
  {
  }

  // ----- Configurations and hubs ------------------------------------------------

  /** The configuration descriptor is asked for again until as much has been asked
      for as it has; then its value, bit 5 of its attributes and the default
      endpoint are kept. */
  lemma ConfigurationNoted(a: Vars, b: Vars, h: nat, env: Env, m: G.Move)
    requires OwnStep(a, b, h, env, m) && a.hubs[h].ctl.st == G.GET_CONFIGURATION_DESC_RECV
    ensures Shaped(b)
    ensures var desc := a.e.buffer; var total := desc[2] as nat + 256 * desc[3] as nat;
      if a.reqs.getConfig.length != total then
        b.reqs == a.reqs.(getConfig := a.reqs.getConfig.(length := total)) && b.hubs[h].ctl.next == G.GET_CONFIGURATION_DESC
      else
        b.hubs[h].ctl.next == G.SET_CONFIGURATION
        && (ConfigurationRead(DataOf(a, h), env.iface).Some? ==>
              b.reqs.setConfig.value == desc[5] && (b.hubs[h].noWakeup <==> desc[7] / 0x20 % 2 == 0))
  {
    hide OwnStep, OpeningChoice, ClassChoice, TransferChoice, OpeningEffect, ClassEffect, TransferEffect, Requested, Walk, StringRead,
      StringGoesOn;
    OwnData(a, b, h, env, m);
    var d1 := HeaderRead(DataOf(a, h), env.iface);
    WalkWakeup(Walker(d1.hub, d1.reqs.getHidReport, false), d1.e.buffer, 0, TotalLength(d1.e.buffer));
  }

  lemma {:induction false} WalkWakeup(w: Walker, b: Buffer, offset: nat, total: nat)
    ensures var r := Walk(w, b, offset, total); r.Some? ==> r.value.hub.noWakeup == w.hub.noWakeup
    decreases total - offset
  {
    hide Byte16;
    if offset < total && Byte(b, offset) > 0 {
      WalkWakeup(DescriptorRead(w, b, offset), b, offset + Byte(b, offset), total);
    }
  }

  /** The hub descriptor is asked for again with its own length; its number of
      ports says how far the port requests go, from port 1 on. */
  lemma HubNoted(a: Vars, b: Vars, h: nat, env: Env, m: G.Move)
    requires OwnStep(a, b, h, env, m) && a.hubs[h].ctl.st == G.GET_HUB_DESC_RECV
    ensures Shaped(b)
    ensures var desc := a.e.buffer;
      if a.reqs.getHub.length != desc[0] then
        b.reqs == a.reqs.(getHub := a.reqs.getHub.(length := desc[0])) && b.hubs[h].ctl.next == G.GET_HUB_DESC
      else
        b.hubs[h].ports == desc[2] && b.reqs.setPortPower.index == 1 && b.hubs[h].ctl.next == G.SET_PORT_POWER_FEATURE
  {
    hide OwnStep, OpeningChoice, DescriptorChoice, TransferChoice, OpeningEffect, DescriptorEffect, TransferEffect, Requested, PortPowered,
      ProtocolAsked;
    OwnData(a, b, h, env, m);
  }

  /** Port after port gets both requests, up to the last one. */
  lemma PortsInOrder(a: Vars, b: Vars, h: nat, env: Env, m: G.Move)
    requires OwnStep(a, b, h, env, m)
    ensures Shaped(b)
    ensures var st, hub, q, next := a.hubs[h].ctl.st, a.hubs[h], a.reqs, b.hubs[h].ctl.next;
      && (st == G.SET_PORT_POWER_FEATURE ==>
            if q.setPortPower.index <= hub.ports then m.act == G.Send(G.SET_PORT_POWER_FEATURE_DONE)
            else next == G.CLEAR_PORT_CONNECTION_FEATURE && b.reqs.clearPort.index == 1)
      && (st == G.SET_PORT_POWER_FEATURE_DONE ==>
            b.reqs == q.(setPortPower := q.setPortPower.(index := (q.setPortPower.index + 1) % 0x1_0000)))
      && (st == G.CLEAR_PORT_CONNECTION_FEATURE ==>
            m.act == if q.clearPort.index <= hub.ports then G.Send(G.CLEAR_PORT_CONNECTION_FEATURE_DONE) else G.Goto(G.DONE))
      && (st == G.CLEAR_PORT_CONNECTION_FEATURE_DONE ==>
            b.reqs == q.(clearPort := q.clearPort.(index := (q.clearPort.index + 1) % 0x1_0000)))
  {
    hide OwnStep, OpeningChoice, DescriptorChoice, TransferChoice, OpeningEffect, DescriptorEffect, TransferEffect, Requested, HubRead,
      ProtocolAsked;
    OwnData(a, b, h, env, m);
  }

  /** Remote wakeup is asked for where the configuration offers it; hubs get their
      ports powered; a boot device is told a protocol, and a keyboard, which is told
      the boot protocol, needs no report descriptor; any other HID device is asked
      for one; all other devices are done. */
  lemma RouteByClass(a: Vars, b: Vars, h: nat, env: Env, m: G.Move)
    requires OwnStep(a, b, h, env, m)
    ensures var st, hub := a.hubs[h].ctl.st, a.hubs[h];
      var special := hub.isHid || hub.ports != 0;
      && (st == G.SET_FEATURE && hub.noWakeup ==> m.act == G.Goto(if special then G.EXTRA_SETUP else G.DONE))
      && (st == G.SET_FEATURE && !hub.noWakeup ==> m.act == G.Send(if special then G.EXTRA_SETUP else G.DONE))
      && (st == G.EXTRA_SETUP && hub.ports != 0 ==> m.act == G.Us(G.GET_HUB_DESC))
      && (st == G.EXTRA_SETUP && hub.ports == 0 && hub.boot != NotSupported ==> m.act == G.Us(G.HID_SET_PROTOCOL))
      && (st == G.EXTRA_SETUP && hub.ports == 0 && hub.boot == NotSupported ==> m.act == G.Us(G.GET_HID_REPORT_DESC))
      && (st == G.HID_SET_PROTOCOL_DONE && hub.boot == Selected ==> m.act == G.Ms(G.DONE))
      && (st == G.HID_SET_PROTOCOL_DONE && hub.boot != Selected ==> m.act == G.Ms(G.GET_HID_REPORT_DESC))
  {
    hide OwnStep, OpeningChoice, TransferChoice, Effect, G.After, StringGoesOn, StringRead, FirstString, TotalLength, PortsDone;
    OwnData(a, b, h, env, m);
  }

  // ----- Interfaces and endpoints -------------------------------------------------

  /** A descriptor lies at offset o. */
  predicate Lies(b: Buffer, o: nat, desc: seq<byte>) {
    o + |desc| <= BUFFER && b[o..o + |desc|] == desc
  }

  lemma LiesAt(b: Buffer, o: nat, desc: seq<byte>, k: nat)
    requires Lies(b, o, desc) && k < |desc|
    ensures Byte(b, o + k) == desc[k]
  {
    assert b[o + k] == b[o..o + |desc|][k];
  }

  lemma SevenBytes(b: Buffer, o: nat, desc: seq<byte>)
    requires Lies(b, o, desc) && |desc| >= 7
    ensures Byte(b, o) == desc[0] && Byte(b, o + 1) == desc[1] && Byte(b, o + 2) == desc[2] && Byte(b, o + 3) == desc[3]
    ensures Byte(b, o + 4) == desc[4] && Byte(b, o + 5) == desc[5] && Byte(b, o + 6) == desc[6]
  {
    hide Lies, Byte;
    LiesAt(b, o, desc, 0);
    LiesAt(b, o, desc, 1);
    LiesAt(b, o, desc, 2);
    LiesAt(b, o, desc, 3);
    LiesAt(b, o, desc, 4);
    LiesAt(b, o, desc, 5);
    LiesAt(b, o, desc, 6);
  }

  lemma NineBytes(b: Buffer, o: nat, desc: seq<byte>)
    requires Lies(b, o, desc) && |desc| == 9
    ensures Byte(b, o) == desc[0] && Byte(b, o + 1) == desc[1] && Byte(b, o + 2) == desc[2] && Byte(b, o + 3) == desc[3]
    ensures Byte(b, o + 4) == desc[4] && Byte(b, o + 5) == desc[5] && Byte(b, o + 6) == desc[6]
    ensures Byte(b, o + 7) == desc[7] && Byte(b, o + 8) == desc[8]
  {
    hide Lies, Byte;
    SevenBytes(b, o, desc);
    LiesAt(b, o, desc, 7);
    LiesAt(b, o, desc, 8);
  }

  lemma EndpointNoted(w: Walker, b: Buffer, o: nat)
    requires Byte(b, o + 1) == 0x05
    ensures DescriptorRead(w, b, o)
         == w.(hub := w.hub.(maxPacket := w.hub.maxPacket[Byte(b, o + 2) % 16 := Byte(b, o + 4) + 256 * Byte(b, o + 5)]))
  {
  }

  lemma HidNoted(w: Walker, b: Buffer, o: nat)
    requires Byte(b, o + 1) == 0x21
    ensures DescriptorRead(w, b, o) == w.(hid := w.hid.(length := Byte(b, o + 7) + 256 * Byte(b, o + 8)))
  {
  }

  /** The walk over one descriptor that has a length and is not the interface behind
      the selected one. */
  lemma WalkOn(w: Walker, b: Buffer, o: nat, total: nat)
    requires o < total && Byte(b, o) > 0 && !(Byte(b, o + 1) == 0x04 && w.selected)
    ensures Walk(w, b, o, total) == Walk(DescriptorRead(w, b, o), b, o + Byte(b, o), total)
  {
    hide DescriptorRead;
  }

  lemma WalkOver(w: Walker, b: Buffer, o: nat, total: nat)
    requires o >= total || (Byte(b, o + 1) == 0x04 && w.selected)
    ensures Walk(w, b, o, total) == Some(w)
  {
  }

  /** A descriptor of length zero ends the walk if it is the interface that is
      selected; any other one never does. */
  lemma WalkAtZero(w: Walker, b: Buffer, o: nat, total: nat)
    requires o < total && Byte(b, o) == 0 && !(Byte(b, o + 1) == 0x04 && w.selected)
    ensures var next := DescriptorRead(w, b, o);
      Walk(w, b, o, total) == if Byte(b, o + 1) == 0x04 && next.selected then Some(next) else None
  {
    hide DescriptorRead;
  }

  /** An interface: HID ones are noted, with their boot protocol; it is selected if
      it is the first HID one or the one that was asked for. */
  lemma InterfaceNoted(w: Walker, b: Buffer, o: nat)
    requires Byte(b, o + 1) == 0x04
    ensures var number, hid := Byte(b, o + 2), Byte(b, o + 5) == 0x03;
      var boot := if !hid || Byte(b, o + 6) != 0x01 then w.hub.boot else if Byte(b, o + 7) == 0x01 then Selected else Supported;
      var hub := w.hub.(isHid := w.hub.isHid || hid, boot := boot);
      DescriptorRead(w, b, o) ==
        if (hub.isHid && hub.iface == 0xff) || hub.iface == number then
          Walker(hub.(iface := number), w.hid.(index := number), true)
        else Walker(hub, w.hid, false)
  {
  }

  // ----- Two devices ---------------------------------------------------------------

  /** The configuration of a boot keyboard: 34 bytes. */
  predicate Keyboard(b: Buffer) {
    && Lies(b, 0, [0x09, 0x02, 0x22, 0x00, 0x01, 0x01, 0x00, 0xa0, 0x32])
    && Lies(b, 9, [0x09, 0x04, 0x00, 0x00, 0x01, 0x03, 0x01, 0x01, 0x00])
    && Lies(b, 18, [0x09, 0x21, 0x11, 0x01, 0x00, 0x01, 0x22, 0x3f, 0x00])
    && Lies(b, 27, [0x07, 0x05, 0x81, 0x03, 0x08, 0x00, 0x0a])
  }

  /** A hub's notes with all that a configuration can change. */
  predicate Noted(d: Data, value: byte, noWakeup: bool, iface: byte, boot: Boot, report: uint16, one: nat, two: nat, three: nat) {
    && d.reqs.setConfig.value == value && d.hub.noWakeup == noWakeup
    && d.hub.isHid && d.hub.iface == iface && d.hub.boot == boot
    && d.reqs.getHidReport.index == iface && d.reqs.getHidReport.length == report
    && d.hub.maxPacket[1] == one && d.hub.maxPacket[2] == two && d.hub.maxPacket[3] == three
    && forall i :: 4 <= i < ENDPOINTS ==> d.hub.maxPacket[i] == 0
  }

  lemma KeyboardBytes(b: Buffer)
    requires Keyboard(b)
    ensures Byte(b, 0) == 9 && Byte(b, 1) == 2 && Byte(b, 2) == 34 && Byte(b, 3) == 0 && Byte(b, 5) == 1 && Byte(b, 7) == 0xa0
    ensures Byte(b, 9) == 9 && Byte(b, 10) == 4 && Byte(b, 11) == 0 && Byte(b, 14) == 3 && Byte(b, 15) == 1 && Byte(b, 16) == 1
    ensures Byte(b, 18) == 9 && Byte(b, 19) == 0x21 && Byte(b, 25) == 63 && Byte(b, 26) == 0
    ensures Byte(b, 27) == 7 && Byte(b, 28) == 5 && Byte(b, 29) == 0x81 && Byte(b, 31) == 8 && Byte(b, 32) == 0
  {
    hide Byte, Lies;
    NineBytes(b, 0, [0x09, 0x02, 0x22, 0x00, 0x01, 0x01, 0x00, 0xa0, 0x32]);
    NineBytes(b, 9, [0x09, 0x04, 0x00, 0x00, 0x01, 0x03, 0x01, 0x01, 0x00]);
    NineBytes(b, 18, [0x09, 0x21, 0x11, 0x01, 0x00, 0x01, 0x22, 0x3f, 0x00]);
    SevenBytes(b, 27, [0x07, 0x05, 0x81, 0x03, 0x08, 0x00, 0x0a]);
  }

  lemma OtherNoted(w: Walker, b: Buffer, o: nat)
    requires Byte(b, o + 1) != 0x04 && Byte(b, o + 1) != 0x05 && Byte(b, o + 1) != 0x21
    ensures DescriptorRead(w, b, o) == w
  {
  }

  lemma KeyboardWalk(w: Walker, b: Buffer)
    requires Keyboard(b) && w.hub.iface == 0xff && !w.selected
    ensures Walk(w, b, 0, 34) == Some(Walker(
      w.hub.(isHid := true, boot := Selected, iface := 0, maxPacket := w.hub.maxPacket[1 := 8]), w.hid.(index := 0, length := 63), true))
  {
    KeyboardBytes(b);
    hide Walk, DescriptorRead, Byte, Keyboard, Composite;
    WalkOn(w, b, 0, 34);
    OtherNoted(w, b, 0);
    WalkOn(w, b, 9, 34);
    InterfaceNoted(w, b, 9);
    var w1 := DescriptorRead(w, b, 9);
    WalkOn(w1, b, 18, 34);
    HidNoted(w1, b, 18);
    var w2 := DescriptorRead(w1, b, 18);
    WalkOn(w2, b, 27, 34);
    EndpointNoted(w2, b, 27);
    WalkOver(DescriptorRead(w2, b, 27), b, 34, 34);
  }

  lemma HeaderNoted(d: Data, iface: Option<byte>)
    ensures var r := HeaderRead(d, iface); var b := d.e.buffer;
      && r.e == d.e && r.reqs == d.reqs.(setConfig := d.reqs.setConfig.(value := b[5]))
      && r.hub.noWakeup == (b[7] / 0x20 % 2 == 0) && r.hub.iface == (if iface.Some? then iface.value else d.hub.iface)
      && r.hub.isHid == d.hub.isHid && r.hub.boot == d.hub.boot && r.hub.maxPacket[0] == d.hub.maxPacket[0]
      && forall i :: 0 < i < ENDPOINTS ==> r.hub.maxPacket[i] == 0
  {
  }

  /** A boot keyboard is set to configuration 1, has interface 0 with the boot
      protocol, a report descriptor of 63 bytes, and packets of 8 at endpoint 1. */
  lemma KeyboardNoted(d: Data, iface: Option<byte>)
    requires Keyboard(d.e.buffer) && d.reqs.getConfig.length == 34
    requires iface == Some(0xff) || (iface == None && d.hub.iface == 0xff)
    ensures ConfigurationRead(d, iface).Some? && Noted(ConfigurationRead(d, iface).value, 1, false, 0, Selected, 63, 8, 0, 0)
    ensures ConfigurationRead(d, iface).value.hub.maxPacket[0] == d.hub.maxPacket[0]
  {
    KeyboardBytes(d.e.buffer);
    HeaderNoted(d, iface);
    var d1 := HeaderRead(d, iface);
    KeyboardWalk(Walker(d1.hub, d1.reqs.getHidReport, false), d.e.buffer);
    hide Walk, HeaderRead, Keyboard, Composite;
  }

  /** A device with a vendor interface, a boot mouse and a boot keyboard: 66 bytes. */
  predicate Composite(b: Buffer) {
    && Lies(b, 0, [0x09, 0x02, 0x42, 0x00, 0x03, 0x02, 0x00, 0x80, 0x32])
    && Lies(b, 9, [0x09, 0x04, 0x00, 0x00, 0x01, 0xff, 0x00, 0x00, 0x00])
    && Lies(b, 18, [0x07, 0x05, 0x02, 0x02, 0x40, 0x00, 0x00])
    && Lies(b, 25, [0x09, 0x04, 0x01, 0x00, 0x01, 0x03, 0x01, 0x02, 0x00])
    && Lies(b, 34, [0x09, 0x21, 0x11, 0x01, 0x00, 0x01, 0x22, 0x34, 0x01])
    && Lies(b, 43, [0x07, 0x05, 0x81, 0x03, 0x10, 0x00, 0x0a])
    && Lies(b, 50, [0x09, 0x04, 0x02, 0x00, 0x01, 0x03, 0x01, 0x01, 0x00])
    && Lies(b, 59, [0x07, 0x05, 0x83, 0x03, 0x08, 0x00, 0x0a])
  }

  lemma CompositeBytes(b: Buffer)
    requires Composite(b)
    ensures Byte(b, 0) == 9 && Byte(b, 1) == 2 && Byte(b, 2) == 66 && Byte(b, 3) == 0 && Byte(b, 5) == 2 && Byte(b, 7) == 0x80
    ensures Byte(b, 9) == 9 && Byte(b, 10) == 4 && Byte(b, 11) == 0 && Byte(b, 14) == 0xff
    ensures Byte(b, 18) == 7 && Byte(b, 19) == 5 && Byte(b, 20) == 2 && Byte(b, 22) == 64 && Byte(b, 23) == 0
    ensures Byte(b, 25) == 9 && Byte(b, 26) == 4 && Byte(b, 27) == 1 && Byte(b, 30) == 3 && Byte(b, 31) == 1 && Byte(b, 32) == 2
    ensures Byte(b, 34) == 9 && Byte(b, 35) == 0x21 && Byte(b, 41) == 0x34 && Byte(b, 42) == 1
    ensures Byte(b, 43) == 7 && Byte(b, 44) == 5 && Byte(b, 45) == 0x81 && Byte(b, 47) == 16 && Byte(b, 48) == 0
    ensures Byte(b, 50) == 9 && Byte(b, 51) == 4 && Byte(b, 52) == 2 && Byte(b, 55) == 3 && Byte(b, 56) == 1 && Byte(b, 57) == 1
    ensures Byte(b, 59) == 7 && Byte(b, 60) == 5 && Byte(b, 61) == 0x83 && Byte(b, 63) == 8 && Byte(b, 64) == 0
  {
    hide Byte, Lies;
    NineBytes(b, 0, [0x09, 0x02, 0x42, 0x00, 0x03, 0x02, 0x00, 0x80, 0x32]);
    NineBytes(b, 9, [0x09, 0x04, 0x00, 0x00, 0x01, 0xff, 0x00, 0x00, 0x00]);
    SevenBytes(b, 18, [0x07, 0x05, 0x02, 0x02, 0x40, 0x00, 0x00]);
    NineBytes(b, 25, [0x09, 0x04, 0x01, 0x00, 0x01, 0x03, 0x01, 0x02, 0x00]);
    NineBytes(b, 34, [0x09, 0x21, 0x11, 0x01, 0x00, 0x01, 0x22, 0x34, 0x01]);
    SevenBytes(b, 43, [0x07, 0x05, 0x81, 0x03, 0x10, 0x00, 0x0a]);
    NineBytes(b, 50, [0x09, 0x04, 0x02, 0x00, 0x01, 0x03, 0x01, 0x01, 0x00]);
    SevenBytes(b, 59, [0x07, 0x05, 0x83, 0x03, 0x08, 0x00, 0x0a]);
  }

  /** The vendor interface and its endpoint. */
  lemma CompositeVendor(w: Walker, b: Buffer)
    requires Composite(b) && !w.hub.isHid && (w.hub.iface == 0xff || w.hub.iface == 2) && !w.selected
    ensures Walk(w, b, 0, 66) == Walk(w.(hub := w.hub.(maxPacket := w.hub.maxPacket[2 := 64])), b, 25, 66)
  {
    CompositeBytes(b);
    hide Walk, DescriptorRead, Byte, Keyboard, Composite;
    WalkOn(w, b, 0, 66);
    OtherNoted(w, b, 0);
    WalkOn(w, b, 9, 66);
    InterfaceNoted(w, b, 9);
    WalkOn(w, b, 18, 66);
    EndpointNoted(w, b, 18);
  }

  /** The mouse is selected unless another interface has been asked for. */
  lemma CompositeMouse(w: Walker, b: Buffer)
    requires Composite(b) && !w.hub.isHid && (w.hub.iface == 0xff || w.hub.iface == 2) && !w.selected
    ensures var mouse := w.hub.iface == 0xff;
      var hub := w.hub.(isHid := true, boot := Supported, iface := if mouse then 1 else 2, maxPacket := w.hub.maxPacket[1 := 16]);
      Walk(w, b, 25, 66)
        == Walk(Walker(hub, if mouse then w.hid.(index := 1, length := 308) else w.hid.(length := 308), mouse), b, 50, 66)
  {
    CompositeBytes(b);
    hide Walk, DescriptorRead, Byte, Keyboard, Composite;
    WalkOn(w, b, 25, 66);
    InterfaceNoted(w, b, 25);
    var w1 := DescriptorRead(w, b, 25);
    WalkOn(w1, b, 34, 66);
    HidNoted(w1, b, 34);
    var w2 := DescriptorRead(w1, b, 34);
    WalkOn(w2, b, 43, 66);
    EndpointNoted(w2, b, 43);
  }

  lemma CompositeBack(w: Walker, b: Buffer)
    requires Composite(b) && w.hub.isHid
    ensures w.selected ==> Walk(w, b, 50, 66) == Some(w)
    ensures !w.selected && w.hub.iface == 2 ==> Walk(w, b, 50, 66) == Some(Walker(
      w.hub.(boot := Selected, maxPacket := w.hub.maxPacket[3 := 8]), w.hid.(index := 2), true))
  {
    CompositeBytes(b);
    hide Walk, DescriptorRead, Byte, Keyboard, Composite;
    if w.selected {
      WalkOver(w, b, 50, 66);
    } else if w.hub.iface == 2 {
      WalkOn(w, b, 50, 66);
      InterfaceNoted(w, b, 50);
      var w1 := DescriptorRead(w, b, 50);
      WalkOn(w1, b, 59, 66);
      EndpointNoted(w1, b, 59);
      WalkOver(DescriptorRead(w1, b, 59), b, 66, 66);
    }
  }

  lemma CompositeWalk(w: Walker, b: Buffer)
    requires Composite(b) && !w.hub.isHid && (w.hub.iface == 0xff || w.hub.iface == 2) && !w.selected
    ensures Walk(w, b, 0, 66) == Some(
      if w.hub.iface == 0xff then
        Walker(w.hub.(isHid := true, boot := Supported, iface := 1, maxPacket := w.hub.maxPacket[2 := 64][1 := 16]),
               w.hid.(index := 1, length := 308), true)
      else
        Walker(w.hub.(isHid := true, boot := Selected, iface := 2, maxPacket := w.hub.maxPacket[2 := 64][1 := 16][3 := 8]),
               w.hid.(index := 2, length := 308), true))
  {
    hide Walk, Composite;
    var mouse := w.hub.iface == 0xff;
    var w1 := w.(hub := w.hub.(maxPacket := w.hub.maxPacket[2 := 64]));
    CompositeVendor(w, b);
    CompositeMouse(w1, b);
    var hub := w1.hub.(isHid := true, boot := Supported, iface := if mouse then 1 else 2, maxPacket := w1.hub.maxPacket[1 := 16]);
    CompositeBack(Walker(hub, if mouse then w.hid.(index := 1, length := 308) else w.hid.(length := 308), mouse), b);
  }

  /** Left alone, the walk selects the mouse and stops at the interface behind it;
      with interface 2 asked for it selects the keyboard, but with the length of the
      mouse's report descriptor, as the keyboard brings none. */
  lemma CompositeNoted(d: Data, iface: byte)
    requires Composite(d.e.buffer) && d.reqs.getConfig.length == 66 && !d.hub.isHid && (iface == 0xff || iface == 2)
    ensures ConfigurationRead(d, Some(iface)).Some?
    ensures var r := ConfigurationRead(d, Some(iface)).value;
      r.hub.maxPacket[0] == d.hub.maxPacket[0] &&
      if iface == 0xff then Noted(r, 2, true, 1, Supported, 308, 16, 64, 0) else Noted(r, 2, true, 2, Selected, 308, 16, 64, 8)
  {
    CompositeBytes(d.e.buffer);
    HeaderNoted(d, Some(iface));
    var d1 := HeaderRead(d, Some(iface));
    CompositeWalk(Walker(d1.hub, d1.reqs.getHidReport, false), d.e.buffer);
    hide Walk, HeaderRead, Keyboard, Composite;
  }
}
