/** The host scheduler of src/usb/usb_host.c: every state handler, the poll loop
    and the transfer entry points, on the variables the two hubs share. */
module UsbHost {
  import opened UsbTransfer
  import G = UsbGraph

  datatype Option<+T> = None | Some(value: T)

  datatype Boot = NotSupported | Supported | Selected

  const ENDPOINTS := 16

  type Sizes = s: seq<nat> | |s| == ENDPOINTS witness seq(ENDPOINTS, _ => 0)
  type Toggles = s: seq<bool> | |s| == ENDPOINTS witness seq(ENDPOINTS, _ => false)
  type Strings = s: seq<byte> | |s| == 3 witness [0, 0, 0]

  const CLASS_HID: byte := 0x03
  const CLASS_HUB: byte := 0x09
  const SUBCLASS_BOOT: byte := 0x01
  const PROTOCOL_KEYBOARD: byte := 0x01
  const DESC_STRING: byte := 0x03
  const DESC_INTERFACE: byte := 0x04
  const DESC_ENDPOINT: byte := 0x05
  const DESC_HID: byte := 0x21
  const NO_INTERFACE: byte := 0xff

  /** The variables the source keeps per hub. */
  datatype Hub = Hub(
    ctl: G.HubCtl, noWakeup: bool, isHid: bool, boot: Boot, ports: byte, address: byte, iface: byte,
    noRetry: bool, maxPacket: Sizes, toggle: Toggles)

  /** The setup-request templates, shared by both hubs and changed in place. */
  datatype Requests = Requests(
    setAddress: Request, getDevice: Request, getString: Request, getConfig: Request, setConfig: Request,
    setFeature: Request, getHidReport: Request, hidGetReport: Request, hidSetProtocol: Request,
    getHub: Request, setPortPower: Request, clearPort: Request)

  /** Direction, type and request code of a template. */
  predicate Template(r: Request, dirIn: bool, kind: byte, code: byte) {
    r.dirIn == dirIn && r.kind == kind && r.request == code
  }

  /** What is fixed in the templates: sections 9.4 and 11.24.2 of USB 2.0, and 7.1
      and 7.2 of HID 1.11. */
  predicate Templates(q: Requests) {
    && Template(q.setAddress, false, 0x00, 0x05) && q.setAddress.value < 0x100 && q.setAddress.index == 0 && q.setAddress.length == 0
    && Template(q.getDevice, true, 0x00, 0x06) && q.getDevice.value == 0x0100 && q.getDevice.index == 0
    && Template(q.getString, true, 0x00, 0x06) && q.getString.index == 0x0409
    && Template(q.getConfig, true, 0x00, 0x06) && q.getConfig.value == 0x0200 && q.getConfig.index == 0
    && Template(q.setConfig, false, 0x00, 0x09) && q.setConfig.value < 0x100 && q.setConfig.index == 0 && q.setConfig.length == 0
    && Template(q.setFeature, false, 0x00, 0x03) && q.setFeature.value == 1 && q.setFeature.index == 0 && q.setFeature.length == 0
    && Template(q.getHidReport, true, 0x01, 0x06) && q.getHidReport.value == 0x2200 && q.getHidReport.index < 0x100
    && Template(q.hidGetReport, true, 0x21, 0x01)
    && Template(q.hidSetProtocol, false, 0x21, 0x0b) && q.hidSetProtocol.index == 0 && q.hidSetProtocol.length == 0
    && Template(q.getHub, true, 0x20, 0x06) && q.getHub.value == 0x2900 && q.getHub.index == 0
    && Template(q.setPortPower, false, 0x23, 0x03) && q.setPortPower.value == 8 && q.setPortPower.length == 0
    && Template(q.clearPort, false, 0x23, 0x01) && q.clearPort.value == 16 && q.clearPort.length == 0
  }

  /** What one call of `fsm` reads from the hardware and from the callbacks:
      whether the device is attached at the head of `fsm` and when a handler looks
      again, whether a delay is over, whether the packet completed and with what
      answer, and the interface that `check_configuration_desc` picked, if set. */
  datatype Env = Env(attached: bool, present: bool, expired: bool, completed: bool, answer: Answer, iface: Option<byte>)

  /** A byte of the data buffer; bytes past its end are not part of this model. */
  function Byte(b: Buffer, i: nat): byte {
    if i < BUFFER then b[i] else 0
  }

  function Byte16(b: Buffer, i: nat): uint16 {
    Word(Byte(b, i), Byte(b, i + 1))
  }

  function TotalLength(b: Buffer): uint16 {
    Byte16(b, 2)
  }

  /** Every descriptor from `offset` on has a length, so the walk gets to the end. */
  predicate Walkable(b: Buffer, offset: nat, total: nat)
    decreases total - offset
  {
    offset >= total || (Byte(b, offset) != 0 && Walkable(b, offset + Byte(b, offset), total))
  }

  /** The move that follows a completed packet. */
  function MoveOf(b: G.HubCtl, recv: G.St, v: Verdict): G.Move {
    match v
    case Continue => G.Plain(b, G.Us(G.TRANSACTION_CONT))
    case StartIn => G.Plain(b, G.Us(G.TRANSACTION_IN))
    case StartOut => G.Plain(b, G.Us(G.TRANSACTION_OUT))
    case Retry => G.Plain(b, G.Us(G.TRANSACTION_RETRY))
    case Finish => G.Plain(b, G.Goto(recv))
    case NakFail => G.Plain(b, G.Goto(recv))
    case Stalled => G.Release(b, G.Goto(recv))
    case Error => G.Plain(b, G.Stop)
  }

  lemma VerdictMoves(b: G.HubCtl, free: bool, recv: G.St, v: Verdict)
    requires b.st == G.TRANSACTION
    ensures G.Moves(b, free, recv, MoveOf(b, recv, v)) && !MoveOf(b, recv, v).act.Send?
    ensures MoveOf(b, recv, v).op == G.Keep || MoveOf(b, recv, v).op == G.Drop
  {
  }

  lemma WaitingMoves(b: G.HubCtl, free: bool, recv: G.St)
    requires b.st == G.TRANSACTION
    ensures G.Moves(b, free, recv, G.Plain(b, G.Stay)) && G.After(b, G.Plain(b, G.Stay)) == b
  {
  }

  /** The variables of the host, at one moment. */
  datatype Vars = Vars(
    hubs: seq<Hub>, lock: int, recv: G.St, e: Engine, reqs: Requests, strings: Strings, epPid: nat, devAd: byte)

  predicate Shaped(v: Vars) {
    |v.hubs| == 2 && G.FREE <= v.lock < 2
  }

  function Control(v: Vars): G.Ctl
    requires |v.hubs| == 2
  {
    G.Ctl([v.hubs[0].ctl, v.hubs[1].ctl], v.lock, v.recv)
  }

  /** How a move changes the device address the engine uses, the address of the
      hub's device and the SET_ADDRESS template. */
  predicate AddressRule(a: Vars, b: Vars, h: nat, m: G.Move)
    requires h < 2 && Shaped(a) && Shaped(b)
  {
    && b.devAd == (if m.op == G.Take then 0 else if m.op == G.Retake && b.lock == h then Low(a.reqs.setAddress.value) else a.devAd)
    && (b.hubs[h].address == a.hubs[h].address || m.act == G.Ms(G.RESET))
    && (if a.hubs[h].ctl.st == G.SET_ADDRESS && m.op == G.Take then b.reqs.setAddress.value == Target(b.hubs[h], h)
        else b.reqs.setAddress == a.reqs.setAddress)
  }

  /** The address of hub h's device unless a hub switch has set one: h + 1. */
  function Target(hub: Hub, h: nat): byte
    requires h < 2
  {
    if hub.address != 0 then hub.address else h + 1
  }

  /** What every handler of hub h promises: it makes one move of the graph, tells
      truly whether it wants to go on, and leaves the other hub alone. */
  predicate Handled(a: Vars, b: Vars, h: nat, again: bool, m: G.Move) {
    && h < 2 && Shaped(a) && Shaped(b)
    && G.Moves(a.hubs[h].ctl, a.lock == G.FREE, a.recv, m)
    && b.hubs[h].ctl == G.After(a.hubs[h].ctl, m)
    && b.lock == G.Lock(a.lock, h, m.op)
    && b.recv == (if m.act.Send? then m.act.recv else a.recv)
    && again == G.Again(m)
    && b.hubs[1 - h] == a.hubs[1 - h]
    && AddressRule(a, b, h, m)
  }

  /** The device address register names the device of the hub that owns the bus,
      or is zero while that device has no address yet. */
  predicate AddressOk(v: Vars, h: nat)
    requires Shaped(v) && h < 2
  {
    match G.AddressPhase(v.hubs[h].ctl, v.recv)
    case Assigning => v.devAd == 0 && v.reqs.setAddress.value == Target(v.hubs[h], h)
    case Probing => v.devAd == 0
    case Addressed => v.devAd == Target(v.hubs[h], h)
    case Stopped => true
  }

  predicate Addressed(v: Vars)
    requires Shaped(v)
  {
    && (v.lock == 0 ==> AddressOk(v, 0)) && (v.lock == 1 ==> AddressOk(v, 1))
    && Assigned(v, 0) && Assigned(v, 1)
  }

  /** A hub that has been told its address, also one that has lost the bus since. */
  predicate Assigned(v: Vars, h: nat)
    requires Shaped(v) && h < 2
  {
    v.hubs[h].ctl.st == G.SET_ADDRESS_DONE ==> v.reqs.setAddress.value == Target(v.hubs[h], h)
  }

  /** A hub in a state that uses the bus owns it, unless it is giving it back. */
  lemma Owner(v: Vars, h: nat)
    requires Shaped(v) && G.Inv(Control(v)) && h < 2
    requires G.UsesBus(v.hubs[h].ctl, v.recv) && !G.Transient(v.hubs[h].ctl)
    ensures v.lock == h
  {
    if h == 0 {} else {}
  }

  function PidCode(p: Pid): nat {
    match p case Setup => 0xd case In => 0x9 case Out => 0x1 case Ack => 0x2
  }

  // ----- What the handlers do to the data ---------------------------------------

  /** The data a handler of hub h works on: the hub's own, without its control
      state, and the shared data. */
  datatype Data = Data(hub: Hub, e: Engine, reqs: Requests, strings: Strings, epPid: nat)

  function DataOf(v: Vars, h: nat): Data
    requires Shaped(v) && h < 2
  {
    Data(v.hubs[h].(ctl := G.BOOT), v.e, v.reqs, v.strings, v.epPid)
  }

  /** A control transfer with request r has been started. */
  function Requested(d: Data, r: Request): Data {
    d.(e := BeginSetup(d.e, r), epPid := 16 * PidCode(Setup))
  }

  function AddressSent(d: Data, h: nat): Data
    requires h < 2
  {
    var r := d.reqs.setAddress.(value := Target(d.hub, h));
    Requested(d.(reqs := d.reqs.(setAddress := r)), r)
  }

  function DeviceAsked(d: Data, initial: bool): Data {
    var r := d.reqs.getDevice.(length := if initial then 0x08 else 0x12);
    Requested(d.(reqs := d.reqs.(getDevice := r)), r)
  }

  function BootOf(class_: byte, subclass: byte, protocol: byte): Boot {
    if class_ != CLASS_HID || subclass != SUBCLASS_BOOT then NotSupported
    else if protocol == PROTOCOL_KEYBOARD then Selected
    else Supported
  }

  /** A device descriptor has come in, on the first pass only its packet size. */
  function DeviceRead(d: Data, initial: bool): Data {
    var b := d.e.buffer;
    var sizes := d.hub.maxPacket[0 := b[7]];
    if initial then d.(hub := d.hub.(address := 0, maxPacket := sizes))
    else
      d.(hub := d.hub.(maxPacket := sizes, isHid := b[4] == CLASS_HID, boot := BootOf(b[4], b[5], b[6]),
                       ports := if b[4] == CLASS_HUB then 1 else 0),
         strings := [b[14], b[15], b[16]],
         reqs := d.reqs.(getString := d.reqs.getString.(length := 2), getConfig := d.reqs.getConfig.(length := 9),
                         getHub := d.reqs.getHub.(length := 8)))
  }

  /** The first string still to be fetched, 3 when there is none. */
  function FirstString(strings: Strings): (i: nat)
    ensures i <= 3 && (i < 3 ==> strings[i] != 0) && forall k :: 0 <= k < i ==> strings[k] == 0
  {
    if strings[0] != 0 then 0 else if strings[1] != 0 then 1 else if strings[2] != 0 then 2 else 3
  }

  function StringAsked(d: Data): Data
    requires FirstString(d.strings) < 3
  {
    var r := d.reqs.getString.(value := Word(d.strings[FirstString(d.strings)], DESC_STRING));
    Requested(d.(reqs := d.reqs.(getString := r)), r)
  }

  /** Of a string so far only the length was asked for, and it has more. */
  predicate StringGoesOn(reqs: Requests, e: Engine) {
    reqs.getString.length == 2 && e.buffer[0] != 2 && e.buffer[0] != 0
  }

  function StringRead(d: Data): Data {
    if StringGoesOn(d.reqs, d.e) then d.(reqs := d.reqs.(getString := d.reqs.getString.(length := d.e.buffer[0])))
    else
      var i := FirstString(d.strings);
      var rest := d.strings[if i < 3 then i else 0 := 0];
      var next := d.(strings := rest);
      if FirstString(rest) < 3 then next.(reqs := d.reqs.(getString := d.reqs.getString.(length := 2))) else next
  }

  /** What the configuration descriptor's own header changes. */
  function HeaderRead(d: Data, iface: Option<byte>): Data {
    var b := d.e.buffer;
    d.(hub := d.hub.(noWakeup := b[7] / 0x20 % 2 == 0, iface := if iface.Some? then iface.value else d.hub.iface,
                     maxPacket := [d.hub.maxPacket[0]] + seq(ENDPOINTS - 1, _ => 0)),
       reqs := d.reqs.(setConfig := d.reqs.setConfig.(value := b[5])))
  }

  /** An interface descriptor, and whether it is the HID interface to use. */
  function InterfaceRead(hub: Hub, b: Buffer, offset: nat): (Hub, bool) {
    var hub1 :=
      if Byte(b, offset + 5) != CLASS_HID then hub
      else if Byte(b, offset + 6) != SUBCLASS_BOOT then hub.(isHid := true)
      else hub.(isHid := true, boot := if Byte(b, offset + 7) == PROTOCOL_KEYBOARD then Selected else Supported);
    var number := Byte(b, offset + 2);
    if (hub1.isHid && hub1.iface == NO_INTERFACE) || hub1.iface == number then (hub1.(iface := number), true)
    else (hub1, false)
  }

  /** The hub, the report descriptor request and `selected` during the walk. */
  datatype Walker = Walker(hub: Hub, hid: Request, selected: bool)

  function DescriptorRead(w: Walker, b: Buffer, offset: nat): Walker {
    var kind := Byte(b, offset + 1);
    if kind == DESC_INTERFACE then
      var (hub, selected) := InterfaceRead(w.hub, b, offset);
      Walker(hub, if selected then w.hid.(index := hub.iface) else w.hid, selected)
    else if kind == DESC_HID then w.(hid := w.hid.(length := Byte16(b, offset + 7)))
    else if kind == DESC_ENDPOINT then
      w.(hub := w.hub.(maxPacket := w.hub.maxPacket[Byte(b, offset + 2) % ENDPOINTS := Byte16(b, offset + 4)]))
    else w
  }

  /** The walk over the configuration descriptor, up to the interface behind the
      selected one.  A descriptor of length zero is read again and again, which
      ends only when it is the interface that is selected. */
  function Walk(w: Walker, b: Buffer, offset: nat, total: nat): Option<Walker>
    decreases total - offset
  {
    if offset >= total || (Byte(b, offset + 1) == DESC_INTERFACE && w.selected) then Some(w)
    else
      var next := DescriptorRead(w, b, offset);
      if Byte(b, offset) > 0 then Walk(next, b, offset + Byte(b, offset), total)
      else if Byte(b, offset + 1) == DESC_INTERFACE && next.selected then Some(next)
      else None
  }

  /** The walk ends when every descriptor has a length. */
  lemma {:induction false} WalkEnds(w: Walker, b: Buffer, offset: nat, total: nat)
    requires Walkable(b, offset, total)
    ensures Walk(w, b, offset, total).Some?
    decreases total - offset
  {
    hide DescriptorRead;
    if offset < total {
      WalkEnds(DescriptorRead(w, b, offset), b, offset + Byte(b, offset), total);
    }
  }

  function ConfigurationWalk(d: Data): Option<Walker> {
    Walk(Walker(d.hub, d.reqs.getHidReport, false), d.e.buffer, 0, TotalLength(d.e.buffer))
  }

  /** A configuration descriptor has come in: its first part, or all of it. */
  function ConfigurationRead(d: Data, iface: Option<byte>): Option<Data> {
    if d.reqs.getConfig.length != TotalLength(d.e.buffer) then
      Some(d.(reqs := d.reqs.(getConfig := d.reqs.getConfig.(length := TotalLength(d.e.buffer)))))
    else
      var d1 := HeaderRead(d, iface);
      var w := ConfigurationWalk(d1);
      if w.None? then None
      else Some(d1.(hub := w.value.hub, reqs := d1.reqs.(getHidReport := w.value.hid)))
  }

  function HubRead(d: Data): Data {
    if d.reqs.getHub.length != d.e.buffer[0] then d.(reqs := d.reqs.(getHub := d.reqs.getHub.(length := d.e.buffer[0])))
    else d.(hub := d.hub.(ports := d.e.buffer[2]), reqs := d.reqs.(setPortPower := d.reqs.setPortPower.(index := 1)))
  }

  /** The OUT data of a request has been put in front of the buffer. */
  function WithPayload(d: Data, payload: seq<byte>): Data
    requires |payload| <= BUFFER
  {
    d.(e := d.e.(buffer := payload + d.e.buffer[|payload|..]))
  }

  function ReportAsked(d: Data, kind: byte, id: byte, size: byte): Data {
    var r := d.reqs.hidGetReport.(value := Word(id, kind), index := d.hub.iface, length := size);
    Requested(d.(reqs := d.reqs.(hidGetReport := r), hub := d.hub.(noRetry := false)), r)
  }

  function ProtocolAsked(d: Data): Data {
    var r := d.reqs.hidSetProtocol.(value := if d.hub.boot == Selected then 0 else 1);
    Requested(d.(reqs := d.reqs.(hidSetProtocol := r)), r)
  }

  function PortPowered(d: Data): Data {
    if PortsDone(d.hub.ports, d.reqs.setPortPower) then d.(reqs := d.reqs.(clearPort := d.reqs.clearPort.(index := 1)))
    else Requested(d, d.reqs.setPortPower)
  }

  /** The request has gone to every port. */
  predicate PortsDone(ports: byte, r: Request) {
    r.index > ports
  }

  function NextPort(r: Request): Request {
    r.(index := (r.index + 1) % 0x1_0000)
  }

  /** The endpoint register is loaded again. */
  function Reissued(d: Data, e: Engine): Data {
    d.(e := e, epPid := 16 * PidCode(e.tr.pid) + e.tr.ep)
  }

  function VerdictOn(e: Engine, hub: Hub, a: Answer): Verdict {
    Complete(e, hub.maxPacket[e.tr.ep], hub.noRetry, a).v
  }

  /** A transfer is over: the retry flag is cleared, and a bulk OUT flips the
      toggle of its endpoint. */
  function Ended(hub: Hub, recv: G.St, ep: Endpoint): Hub {
    hub.(noRetry := false, toggle := if recv == G.OUT_DONE then hub.toggle[ep := !hub.toggle[ep]] else hub.toggle)
  }

  function AfterVerdict(hub: Hub, v: Verdict, recv: G.St, ep: Endpoint): Hub {
    if v == Finish then Ended(hub, recv, ep) else hub
  }

  /** Neither looks at the state of the hub nor changes its address. */
  lemma VerdictFrame(hub: Hub, v: Verdict, recv: G.St, ep: Endpoint, ctl: G.HubCtl)
    ensures AfterVerdict(hub.(ctl := ctl), v, recv, ep) == AfterVerdict(hub, v, recv, ep).(ctl := ctl)
    ensures AfterVerdict(hub, v, recv, ep).address == hub.address
  {
  }

  /** What a completed packet does to the data. */
  function PacketDone(d: Data, recv: G.St, a: Answer): Data {
    var c := Complete(d.e, d.hub.maxPacket[d.e.tr.ep], d.hub.noRetry, a);
    d.(e := c.e, epPid := 0, hub := AfterVerdict(d.hub, c.v, recv, c.e.tr.ep))
  }

  // ----- Where the branching handlers go on ---------------------------------------

  function AfterConfiguration(hub: Hub): G.St {
    if hub.isHid || hub.ports != 0 then G.EXTRA_SETUP else G.DONE
  }

  function ExtraSetup(hub: Hub): G.St {
    if hub.ports != 0 then G.GET_HUB_DESC else if hub.boot != NotSupported then G.HID_SET_PROTOCOL else G.GET_HID_REPORT_DESC
  }

  function AfterProtocol(hub: Hub): G.St {
    if hub.boot == Selected then G.DONE else G.GET_HID_REPORT_DESC
  }

  function AfterString(more: bool): G.St {
    if more then G.GET_STRING_DESC else G.GET_CONFIGURATION_DESC
  }

  // ----- What one call of fsm does ------------------------------------------------

  /** The data after the handler of the hub's state made the move m. */
  function OpeningEffect(d: Data, b: G.HubCtl, h: nat, m: G.Move): Data
    requires h < 2
  {
    if b.st == G.CONNECT then d.(hub := d.hub.(address := 0))
    else if b.st == G.SET_ADDRESS && m.act.Send? then AddressSent(d, h)
    else if b.st == G.GET_DEVICE_DESC && m.act.Send? then DeviceAsked(d, b.initial)
    else if b.st == G.GET_DEVICE_DESC_RECV then DeviceRead(d, b.initial)
    else if b.st == G.GET_STRING_DESC && FirstString(d.strings) < 3 then StringAsked(d)
    else d
  }

  function DescriptorEffect(d: Data, b: G.HubCtl, iface: Option<byte>, m: G.Move): Data {
    if b.st == G.GET_STRING_DESC_RECV then StringRead(d)
    else if b.st == G.GET_CONFIGURATION_DESC then Requested(d, d.reqs.getConfig)
    else if b.st == G.GET_CONFIGURATION_DESC_RECV then
      if ConfigurationRead(d, iface).Some? then ConfigurationRead(d, iface).value else d
    else if b.st == G.SET_CONFIGURATION then Requested(d, d.reqs.setConfig)
    else if b.st == G.SET_CONFIGURATION_DONE then d.(hub := d.hub.(toggle := seq(ENDPOINTS, _ => false)))
    else if b.st == G.SET_FEATURE && m.act.Send? then Requested(d.(hub := d.hub.(noRetry := true)), d.reqs.setFeature)
    else if b.st == G.GET_HID_REPORT_DESC then Requested(d, d.reqs.getHidReport)
    else d
  }

  function ClassEffect(d: Data, b: G.HubCtl): Data {
    if b.st == G.HID_SET_PROTOCOL then ProtocolAsked(d)
    else if b.st == G.GET_HUB_DESC then Requested(d, d.reqs.getHub)
    else if b.st == G.GET_HUB_DESC_RECV then HubRead(d)
    else if b.st == G.SET_PORT_POWER_FEATURE then PortPowered(d)
    else if b.st == G.SET_PORT_POWER_FEATURE_DONE then d.(reqs := d.reqs.(setPortPower := NextPort(d.reqs.setPortPower)))
    else if b.st == G.CLEAR_PORT_CONNECTION_FEATURE && !PortsDone(d.hub.ports, d.reqs.clearPort) then Requested(d, d.reqs.clearPort)
    else if b.st == G.CLEAR_PORT_CONNECTION_FEATURE_DONE then d.(reqs := d.reqs.(clearPort := NextPort(d.reqs.clearPort)))
    else if b.st == G.IN_RECV || b.st == G.HID_GET_REPORT then d.(hub := d.hub.(noRetry := false))
    else d
  }

  function TransferEffect(d: Data, b: G.HubCtl, recv: G.St, env: Env): Data {
    if b.st == G.TRANSACTION && env.completed then PacketDone(d, recv, env.answer)
    else if b.st == G.TRANSACTION_IN then Reissued(d, StageIn(d.e))
    else if b.st == G.TRANSACTION_OUT then Reissued(d, StageOut(d.e))
    else if b.st == G.TRANSACTION_ACK then Reissued(d, Begin(d.e, Ack, d.e.tr.ep, d.e.tr.stage, [], 0, Data0))
    else if b.st == G.TRANSACTION_CONT then Reissued(d, Issue(d.e, Auto))
    else if b.st == G.TRANSACTION_RETRY then Reissued(d, d.e)
    else d
  }

  function Effect(d: Data, b: G.HubCtl, recv: G.St, h: nat, env: Env, m: G.Move): Data
    requires h < 2
  {
    if b.st <= G.GET_STRING_DESC then OpeningEffect(d, b, h, m)
    else if b.st <= G.GET_HID_REPORT_DESC then DescriptorEffect(d, b, env.iface, m)
    else if b.st <= G.HID_GET_REPORT then ClassEffect(d, b)
    else TransferEffect(d, b, recv, env)
  }

  /** How the moves of the handlers that branch follow from data and hardware. */
  predicate OpeningChoice(d: Data, b: G.HubCtl, present: bool, m: G.Move) {
    && (b.st == G.IDLE ==> m.act == if present then G.Ms(G.CONNECT) else G.Stay)
    && (b.st == G.ENABLE ==> (m.act == G.Stay <==> !present))
    && (b.st == G.GET_STRING_DESC ==>
          m.act == if FirstString(d.strings) < 3 then G.Send(G.GET_STRING_DESC_RECV) else G.Goto(G.GET_CONFIGURATION_DESC))
  }

  predicate DescriptorChoice(d: Data, b: G.HubCtl, m: G.Move) {
    && (b.st == G.GET_STRING_DESC_RECV ==>
          m.act == G.Us(AfterString(StringGoesOn(d.reqs, d.e) || FirstString(StringRead(d).strings) < 3)))
    && (b.st == G.GET_CONFIGURATION_DESC_RECV ==>
          m.act == if d.reqs.getConfig.length != TotalLength(d.e.buffer) then G.Us(G.GET_CONFIGURATION_DESC)
                   else G.Ms(G.SET_CONFIGURATION))
    && (b.st == G.SET_FEATURE ==>
          m.act == if d.hub.noWakeup then G.Goto(AfterConfiguration(d.hub)) else G.Send(AfterConfiguration(d.hub)))
    && (b.st == G.EXTRA_SETUP ==> m.act == G.Us(ExtraSetup(d.hub)))
  }

  predicate ClassChoice(d: Data, b: G.HubCtl, m: G.Move) {
    && (b.st == G.HID_SET_PROTOCOL_DONE ==> m.act == G.Ms(AfterProtocol(d.hub)))
    && (b.st == G.GET_HUB_DESC_RECV ==>
          m.act == if d.reqs.getHub.length != d.e.buffer[0] then G.Us(G.GET_HUB_DESC) else G.Ms(G.SET_PORT_POWER_FEATURE))
    && (b.st == G.SET_PORT_POWER_FEATURE ==>
          m.act == if PortsDone(d.hub.ports, d.reqs.setPortPower) then G.Ms(G.CLEAR_PORT_CONNECTION_FEATURE)
                   else G.Send(G.SET_PORT_POWER_FEATURE_DONE))
    && (b.st == G.CLEAR_PORT_CONNECTION_FEATURE ==>
          m.act == if PortsDone(d.hub.ports, d.reqs.clearPort) then G.Goto(G.DONE)
                   else G.Send(G.CLEAR_PORT_CONNECTION_FEATURE_DONE))
  }

  predicate TransferChoice(d: Data, b: G.HubCtl, recv: G.St, env: Env, m: G.Move) {
    && (G.Delay(b.st) ==> m == G.Plain(b, if env.expired then G.Goto(b.next) else G.Stay))
    && (b.st == G.TRANSACTION ==>
          m == if env.completed then MoveOf(b, recv, VerdictOn(d.e, d.hub, env.answer)) else G.Plain(b, G.Stay))
  }

  predicate Choice(d: Data, b: G.HubCtl, recv: G.St, env: Env, m: G.Move) {
    if b.st <= G.GET_STRING_DESC then OpeningChoice(d, b, env.present, m)
    else if b.st <= G.GET_HID_REPORT_DESC then DescriptorChoice(d, b, m)
    else if b.st <= G.HID_GET_REPORT then ClassChoice(d, b, m)
    else TransferChoice(d, b, recv, env, m)
  }

  /** What the handler of hub h's state does, in full. */
  predicate Dispatched(a: Vars, b: Vars, h: nat, env: Env, m: G.Move) {
    && Handled(a, b, h, G.Again(m), m)
    && DataOf(b, h) == Effect(DataOf(a, h), a.hubs[h].ctl, a.recv, h, env, m)
    && Choice(DataOf(a, h), a.hubs[h].ctl, a.recv, env, m)
  }

  /** The variables behind the check at the head of `fsm`. */
  function Checked(v: Vars, h: nat, attached: bool): Vars
    requires Shaped(v) && h < 2
  {
    if G.Detaches(v.hubs[h].ctl, attached) then
      v.(hubs := v.hubs[h := v.hubs[h].(ctl := v.hubs[h].ctl.(st := G.IDLE))], epPid := 0, lock := G.Lock(v.lock, h, G.Drop))
    else v
  }

  /** The device answers with a STALL that does harm. */
  predicate Spoils(v: Vars, h: nat, env: Env)
    requires Shaped(v) && h < 2
  {
    && v.hubs[h].ctl.st == G.TRANSACTION && env.completed && env.answer.token == TOKEN_STALL
    && !G.StallSafe(v.hubs[h].ctl, v.recv) && !G.Detaches(v.hubs[h].ctl, env.attached)
  }

  /** One call of `fsm` for hub h. */
  predicate FsmStep(a: Vars, b: Vars, h: nat, env: Env, m: G.Move) {
    && h < 2 && Shaped(a) && Shaped(Checked(a, h, env.attached))
    && Dispatched(Checked(a, h, env.attached), b, h, env, m)
  }

  /** A transfer of hub h has been accepted: it has the bus, under the address of
      its device, and the data is d. */
  predicate Launched(a: Vars, b: Vars, h: nat, recvState: G.St, d: Data) {
    && h < 2 && Shaped(a) && Shaped(b)
    && G.Enabled(Control(a), G.Transfer(h, recvState)) && Control(b) == G.Next(Control(a), G.Transfer(h, recvState))
    && b.hubs[1 - h] == a.hubs[1 - h] && DataOf(b, h) == d && b.devAd == Target(a.hubs[h], h)
  }

  /** The bus belongs to the hub that uses it and is addressed to its device. */
  predicate Sane(v: Vars) {
    Shaped(v) && G.Inv(Control(v)) && Addressed(v)
  }

  class Host {
    var hubs: seq<Hub>
    var lock: int
    var recv: G.St
    var e: Engine
    var reqs: Requests
    var strings: Strings
    var epPid: nat
    /** `USB_DEV_AD`: the device the engine talks to. */
    var devAd: byte

    ghost function Now(): Vars
      reads this
    {
      Vars(hubs, lock, recv, e, reqs, strings, epPid, devAd)
    }

    ghost predicate Valid()
      reads this
    {
      Sane(Now())
    }

    /** What holds even where the bus is used without the lock. */
    ghost predicate Live()
      reads this
    {
      Shaped(Now()) && G.Live(Control(Now()))
    }

    /** Hub h may run: the poll loop of the other one is not going on. */
    ghost predicate Turn(h: nat)
      reads this
    {
      Valid() && h < 2 && !G.Transient(hubs[1 - h].ctl)
    }

    /** No poll loop is going on. */
    ghost predicate Quiet()
      reads this
    {
      Valid() && !G.Transient(hubs[0].ctl) && !G.Transient(hubs[1].ctl)
    }

    /** Hub h is one of the two; nothing is said about what state they are in. */
    ghost predicate Has(h: nat)
      reads this
    {
      Shaped(Now()) && h < 2
    }

    /** Hub h runs in state st. */
    ghost predicate At(h: nat, st: G.St)
      reads this
    {
      Has(h) && hubs[h].ctl.st == st
    }

    // ----- Helpers ----------------------------------------------------------

    method SetState(h: nat, st: G.St)
      requires |hubs| == 2 && h < 2
      modifies this`hubs
      ensures hubs == old(hubs)[h := old(hubs[h]).(ctl := old(hubs[h]).ctl.(st := st))]
    {
      hubs := hubs[h := hubs[h].(ctl := hubs[h].ctl.(st := st))];
    }

    /** `delay_us` and `delay_ms`; how long is not part of this model. */
    method Wait(h: nat, unit: G.St, next: G.St)
      requires |hubs| == 2 && h < 2
      modifies this`hubs
      ensures hubs == old(hubs)[h := old(hubs[h]).(ctl := old(hubs[h]).ctl.(st := unit, next := next))]
    {
      hubs := hubs[h := hubs[h].(ctl := hubs[h].ctl.(st := unit, next := next))];
    }

    method LockTransaction(h: nat, address: byte) returns (ok: bool)
      requires G.FREE <= lock && h < 2
      modifies this`lock, this`devAd
      ensures ok <==> old(lock) == G.FREE
      ensures lock == if ok then h else old(lock)
      ensures devAd == if ok then address else old(devAd)
    {
      if lock >= 0 { return false; }
      lock := h;
      devAd := address;
      return true;
    }

    method UnlockTransaction(h: nat)
      modifies this`lock
      ensures lock == G.Lock(old(lock), h, G.Drop)
    {
      if lock == h { lock := G.FREE; }
    }

    /** `host_transact_cont`: copies the next packet out and starts it. */
    method TransactCont(h: nat, tog: Tog)
      requires |hubs| == 2 && h < 2
      modifies this`hubs, this`e, this`epPid
      ensures e == Issue(old(e), tog) && epPid == 16 * PidCode(e.tr.pid) + e.tr.ep
      ensures e.tr.pid == old(e).tr.pid && e.tr.ep == old(e).tr.ep
      ensures hubs == old(hubs)[h := old(hubs[h]).(ctl := old(hubs[h]).ctl.(st := G.TRANSACTION))]
    {
      if e.tr.pid != In {
        var size := Min(Min(e.tr.size, PACKET), |e.tr.out|);
        var tx := e.tx;
        for i := 0 to size
          invariant |tx| == PACKET && forall k :: 0 <= k < PACKET ==> tx[k] == if k < i then e.tr.out[k] else e.tx[k]
        {
          tx := tx[i := e.tr.out[i]];
        }
        assert tx == e.tr.out[..size] + e.tx[size..];
        e := e.(tx := tx, txLen := size, tr := e.tr.(out := e.tr.out[size..], size := e.tr.size - size));
      } else {
        e := e.(txLen := 0);
      }
      e := e.(tog := tog);
      epPid := 16 * PidCode(e.tr.pid) + e.tr.ep;
      SetState(h, G.TRANSACTION);
    }

    method Transact(
      h: nat, out: seq<byte>, size: uint16, recvState: G.St, ep: Endpoint, pid: Pid, stage: nat, tog: Tog)
      requires |hubs| == 2 && h < 2
      modifies this`hubs, this`e, this`epPid, this`recv
      ensures e == Begin(old(e), pid, ep, stage, out, size, tog) && recv == recvState && epPid == 16 * PidCode(pid) + ep
      ensures e.tr.pid == pid && e.tr.ep == ep
      ensures hubs == old(hubs)[h := old(hubs[h]).(ctl := old(hubs[h]).ctl.(st := G.TRANSACTION))]
    {
      e := e.(tr := Transfer(pid, ep, size, stage, out, 0));
      recv := recvState;
      TransactCont(h, tog);
    }

    method SetupTransfer(h: nat, r: Request, recvState: G.St)
      requires |hubs| == 2 && h < 2
      modifies this`hubs, this`e, this`epPid, this`recv
      ensures e == BeginSetup(old(e), r) && recv == recvState && epPid == 16 * PidCode(Setup)
      ensures hubs == old(hubs)[h := old(hubs[h]).(ctl := old(hubs[h]).ctl.(st := G.TRANSACTION))]
    {
      Transact(h, Bytes(r), SETUP_LEN, recvState, 0, Setup, 0, Data0);
    }

    /** `find_string_index`; the index stays 0 when there is no string left. */
    method FindString() returns (found: bool, index: nat)
      ensures found <==> FirstString(strings) < 3
      ensures index == if found then FirstString(strings) else 0
    {
      for i := 0 to 3
        invariant forall k :: 0 <= k < i ==> strings[k] == 0
      {
        if strings[i] != 0 { return true, i; }
      }
      return false, 0;
    }

    // ----- State handlers, in the order of the source -------------------------

    method StateIdle(h: nat, present: bool) returns (again: bool, ghost m: G.Move)
      requires At(h, G.IDLE)
      modifies this
      ensures Handled(old(Now()), Now(), h, again, m)
      ensures m.act == if present then G.Ms(G.CONNECT) else G.Stay
      ensures var d := old(DataOf(Now(), h)); DataOf(Now(), h) == d
    {
      hide G.DescriptorMove, G.ClassMove, G.TransferMove, Addressed, G.Inv, BeginSetup, Bytes;
      m := G.Plain(hubs[h].ctl, G.Stay);
      if present {
        m := G.Plain(hubs[h].ctl, G.Ms(G.CONNECT));
        Wait(h, G.DELAY_MS, G.CONNECT);
      }
      again := false;
    }

    /** The body of `state_connect`, which `state_get_device_desc_recv` also runs. */
    method ResetPort(h: nat)
      requires |hubs| == 2 && h < 2
      modifies this`hubs
      ensures hubs == old(hubs)[h := old(hubs[h]).(address := 0, ctl := G.HubCtl(G.DELAY_MS, G.RESET, true, true))]
    {
      hubs := hubs[h := hubs[h].(address := 0, ctl := hubs[h].ctl.(initial := true, resetting := true))];
      Wait(h, G.DELAY_MS, G.RESET);
    }

    method StateConnect(h: nat) returns (again: bool, ghost m: G.Move)
      requires At(h, G.CONNECT)
      modifies this
      ensures Handled(old(Now()), Now(), h, again, m)
      ensures var d := old(DataOf(Now(), h)); DataOf(Now(), h) == d.(hub := d.hub.(address := 0))
    {
      hide G.DescriptorMove, G.ClassMove, G.TransferMove, Addressed, G.Inv, BeginSetup, Bytes;
      m := G.Move(G.Keep, G.Ms(G.RESET), true, true);
      ResetPort(h);
      again := false;
    }

    method StateReset(h: nat) returns (again: bool, ghost m: G.Move)
      requires At(h, G.RESET)
      modifies this
      ensures Handled(old(Now()), Now(), h, again, m)
      ensures var d := old(DataOf(Now(), h)); DataOf(Now(), h) == d
    {
      hide G.DescriptorMove, G.ClassMove, G.TransferMove, Addressed, G.Inv, BeginSetup, Bytes;
      m := G.Plain(hubs[h].ctl, G.Us(G.ENABLE));
      Wait(h, G.DELAY_US, G.ENABLE);
      again := false;
    }

    method StateEnable(h: nat, present: bool) returns (again: bool, ghost m: G.Move)
      requires At(h, G.ENABLE)
      modifies this
      ensures Handled(old(Now()), Now(), h, again, m)
      ensures m.act == if !present then G.Stay else G.Ms(if old(hubs[h]).ctl.initial then G.GET_DEVICE_DESC
                       else G.SET_ADDRESS)
      ensures var d := old(DataOf(Now(), h)); DataOf(Now(), h) == d
    {
      hide G.DescriptorMove, G.ClassMove, G.TransferMove, Addressed, G.Inv, BeginSetup, Bytes;
      m := G.Plain(hubs[h].ctl, G.Stay);
      again := false;
      if !present { return; }
      var next := if hubs[h].ctl.initial then G.GET_DEVICE_DESC else G.SET_ADDRESS;
      m := G.Move(G.Keep, G.Ms(next), hubs[h].ctl.initial, false);
      hubs := hubs[h := hubs[h].(ctl := hubs[h].ctl.(resetting := false))];
      Wait(h, G.DELAY_MS, next);
    }

    method StateSetAddress(h: nat) returns (again: bool, ghost m: G.Move)
      requires At(h, G.SET_ADDRESS)
      modifies this
      ensures Handled(old(Now()), Now(), h, again, m)
      ensures var d := old(DataOf(Now(), h)); DataOf(Now(), h) == if m.act.Send? then AddressSent(d, h) else d
    {
      hide G.DescriptorMove, G.ClassMove, G.TransferMove, Addressed, G.Inv, BeginSetup, Bytes;
      m := G.Plain(hubs[h].ctl, G.Stay);
      again := false;
      var locked := LockTransaction(h, 0);
      if !locked { return; }
      m := G.Move(G.Take, G.Send(G.SET_ADDRESS_DONE), hubs[h].ctl.initial, hubs[h].ctl.resetting);
      reqs := reqs.(setAddress := reqs.setAddress.(value := Target(hubs[h], h)));
      SetupTransfer(h, reqs.setAddress, G.SET_ADDRESS_DONE);
    }

    method StateSetAddressDone(h: nat) returns (again: bool, ghost m: G.Move)
      requires At(h, G.SET_ADDRESS_DONE)
      modifies this
      ensures Handled(old(Now()), Now(), h, again, m)
      ensures var d := old(DataOf(Now(), h)); DataOf(Now(), h) == d
    {
      hide G.DescriptorMove, G.ClassMove, G.TransferMove, Addressed, G.Inv, BeginSetup, Bytes;
      m := G.Move(G.Retake, G.Ms(G.GET_DEVICE_DESC), hubs[h].ctl.initial, hubs[h].ctl.resetting);
      UnlockTransaction(h);
      var locked := LockTransaction(h, Low(reqs.setAddress.value));
      Wait(h, G.DELAY_MS, G.GET_DEVICE_DESC);
      again := false;
    }

    method StateGetDeviceDesc(h: nat) returns (again: bool, ghost m: G.Move)
      requires At(h, G.GET_DEVICE_DESC)
      modifies this
      ensures Handled(old(Now()), Now(), h, again, m)
      ensures var d := old(DataOf(Now(), h));
        DataOf(Now(), h) == if m.act.Send? then DeviceAsked(d, old(hubs[h]).ctl.initial) else d
    {
      hide G.DescriptorMove, G.ClassMove, G.TransferMove, Addressed, G.Inv, BeginSetup, Bytes;
      again := false;
      var initial := hubs[h].ctl.initial;
      m := G.Plain(hubs[h].ctl, G.Send(G.GET_DEVICE_DESC_RECV));
      if initial {
        var locked := LockTransaction(h, 0);
        if !locked {
          m := G.Plain(hubs[h].ctl, G.Stay);
          return;
        }
        m := G.Move(G.Take, G.Send(G.GET_DEVICE_DESC_RECV), true, hubs[h].ctl.resetting);
      } else {
        }
      reqs := reqs.(getDevice := reqs.getDevice.(length := if initial then 0x08 else 0x12));
      SetupTransfer(h, reqs.getDevice, G.GET_DEVICE_DESC_RECV);
    }

    /** What the full device descriptor says. */
    method ReadDevice(h: nat)
      requires Shaped(Now()) && h < 2
      modifies this`hubs, this`strings, this`reqs
      ensures Shaped(Now()) && hubs[1 - h] == old(hubs[1 - h]) && hubs[h].ctl == old(hubs[h].ctl)
      ensures DataOf(Now(), h) == DeviceRead(old(DataOf(Now(), h)), false)
      ensures reqs.setAddress == old(reqs).setAddress && hubs[h].address == old(hubs[h]).address
    {
      var b := e.buffer;
      hubs := hubs[h := hubs[h].(maxPacket := hubs[h].maxPacket[0 := b[7]], isHid := b[4] == CLASS_HID,
                                 boot := BootOf(b[4], b[5], b[6]), ports := if b[4] == CLASS_HUB then 1 else 0)];
      strings := [b[14], b[15], b[16]];
      reqs := reqs.(getString := reqs.getString.(length := 2), getConfig := reqs.getConfig.(length := 9),
                    getHub := reqs.getHub.(length := 8));
    }

    method StateGetDeviceDescRecv(h: nat) returns (again: bool, ghost m: G.Move)
      requires At(h, G.GET_DEVICE_DESC_RECV)
      modifies this
      ensures Handled(old(Now()), Now(), h, again, m)
      ensures var d := old(DataOf(Now(), h)); DataOf(Now(), h) == DeviceRead(d, old(hubs[h]).ctl.initial)
    {
      hide Target, BeginSetup, G.DescriptorMove, G.ClassMove, G.TransferMove, Addressed, G.Inv;
      again := false;
      if hubs[h].ctl.initial {
        m := G.Move(G.Drop, G.Ms(G.RESET), false, true);
        UnlockTransaction(h);
        ResetPort(h);
        hubs := hubs[h := hubs[h].(ctl := hubs[h].ctl.(initial := false), maxPacket := hubs[h].maxPacket[0 := e.buffer[7]])];
        Wait(h, G.DELAY_MS, G.RESET);
        assert AddressRule(old(Now()), Now(), h, m);
      } else {
        hide DeviceRead;
          m := G.Plain(hubs[h].ctl, G.Us(G.GET_STRING_DESC));
        ReadDevice(h);
        Wait(h, G.DELAY_US, G.GET_STRING_DESC);
      }
    }

    method StateGetStringDesc(h: nat) returns (again: bool, ghost m: G.Move)
      requires At(h, G.GET_STRING_DESC)
      modifies this
      ensures Handled(old(Now()), Now(), h, again, m)
      ensures m.act == if FirstString(old(strings)) < 3 then G.Send(G.GET_STRING_DESC_RECV)
                       else G.Goto(G.GET_CONFIGURATION_DESC)
      ensures var d := old(DataOf(Now(), h)); DataOf(Now(), h) == if m.act.Send? then StringAsked(d) else d
    {
      hide G.DescriptorMove, G.ClassMove, G.TransferMove, Addressed, G.Inv, BeginSetup, Bytes;
      var found, i := FindString();
      if !found {
        m := G.Plain(hubs[h].ctl, G.Goto(G.GET_CONFIGURATION_DESC));
        SetState(h, G.GET_CONFIGURATION_DESC);
        return true, m;
      }
      m := G.Plain(hubs[h].ctl, G.Send(G.GET_STRING_DESC_RECV));
      reqs := reqs.(getString := reqs.getString.(value := Word(strings[i], DESC_STRING)));
      SetupTransfer(h, reqs.getString, G.GET_STRING_DESC_RECV);
      again := false;
    }

    /** Either the rest of the string is asked for, or it is crossed off. */
    method ReadString() returns (more: bool)
      modifies this`reqs, this`strings
      ensures forall hub :: Data(hub, e, reqs, strings, epPid) == StringRead(old(Data(hub, e, reqs, strings, epPid)))
      ensures more <==> StringGoesOn(old(reqs), e) || FirstString(strings) < 3
      ensures reqs.setAddress == old(reqs).setAddress
    {
      var length := e.buffer[0];
      if reqs.getString.length == 2 && length != 2 && length != 0 {
        reqs := reqs.(getString := reqs.getString.(length := length));
        return true;
      }
      var _, i := FindString();
      strings := strings[i := 0];
      more, i := FindString();
      if more {
        reqs := reqs.(getString := reqs.getString.(length := 2));
      }
    }

    method StateGetStringDescRecv(h: nat) returns (again: bool, ghost m: G.Move)
      requires At(h, G.GET_STRING_DESC_RECV)
      modifies this
      ensures Handled(old(Now()), Now(), h, again, m)
      ensures m.act == G.Us(AfterString(StringGoesOn(old(reqs), old(e)) || FirstString(strings) < 3))
      ensures var d := old(DataOf(Now(), h)); DataOf(Now(), h) == StringRead(d)
    {
      hide G.OpeningMove, G.ClassMove, G.TransferMove, Addressed, G.Inv, StringRead, StringGoesOn;
      again := false;
      var more := ReadString();
      var next := AfterString(more);
      m := G.Plain(hubs[h].ctl, G.Us(next));
      Wait(h, G.DELAY_US, next);
    }

    method StateGetConfigurationDesc(h: nat) returns (again: bool, ghost m: G.Move)
      requires At(h, G.GET_CONFIGURATION_DESC)
      modifies this
      ensures Handled(old(Now()), Now(), h, again, m)
      ensures var d := old(DataOf(Now(), h)); DataOf(Now(), h) == Requested(d, d.reqs.getConfig)
    {
      hide G.OpeningMove, G.ClassMove, G.TransferMove, Addressed, G.Inv, BeginSetup, Bytes;
      m := G.Plain(hubs[h].ctl, G.Send(G.GET_CONFIGURATION_DESC_RECV));
      SetupTransfer(h, reqs.getConfig, G.GET_CONFIGURATION_DESC_RECV);
      again := false;
    }

    method NoteConfiguration(h: nat, iface: Option<byte>)
      requires Shaped(Now()) && h < 2
      modifies this`hubs, this`reqs
      ensures Shaped(Now()) && hubs[1 - h] == old(hubs[1 - h]) && hubs[h].ctl == old(hubs[h].ctl)
      ensures DataOf(Now(), h) == HeaderRead(old(DataOf(Now(), h)), iface)
      ensures reqs.setAddress == old(reqs).setAddress && hubs[h].address == old(hubs[h]).address
    {
      hubs := hubs[h := hubs[h].(noWakeup := e.buffer[7] / 0x20 % 2 == 0)];
      if iface.Some? {
        hubs := hubs[h := hubs[h].(iface := iface.value)];
      }
      reqs := reqs.(setConfig := reqs.setConfig.(value := e.buffer[5]));
      var sizes := hubs[h].maxPacket;
      for i := 1 to ENDPOINTS
        invariant |sizes| == ENDPOINTS && sizes == [hubs[h].maxPacket[0]] + seq(i - 1, _ => 0) + hubs[h].maxPacket[i..]
      {
        sizes := sizes[i := 0];
      }
      hubs := hubs[h := hubs[h].(maxPacket := sizes)];
    }

    /** The walk; `hang` tells that the source's loop never ends. */
    method WalkConfiguration(h: nat) returns (hang: bool)
      requires Shaped(Now()) && h < 2
      modifies this`hubs, this`reqs
      ensures hang <==> ConfigurationWalk(old(DataOf(Now(), h))).None?
      ensures !hang ==>
        var w := ConfigurationWalk(old(DataOf(Now(), h))).value;
        && hubs == old(hubs)[h := w.hub.(ctl := old(hubs[h]).ctl)] && reqs == old(reqs).(getHidReport := w.hid)
      ensures !hang ==> hubs[h].address == old(hubs[h]).address
      ensures !hang ==> ConfigurationWalk(old(DataOf(Now(), h))).value.hub.ctl == G.BOOT
    {
      hide Byte, Byte16, InterfaceRead, DescriptorRead;
      var b := e.buffer;
      var total := TotalLength(b);
      ghost var start := Walker(hubs[h].(ctl := G.BOOT), reqs.getHidReport, false);
      var w := Walker(hubs[h].(ctl := G.BOOT), reqs.getHidReport, false);
      var offset: nat := 0;
      while offset < total
        invariant hubs == old(hubs) && reqs == old(reqs)
        invariant Walk(start, b, 0, total) == Walk(w, b, offset, total)
        invariant w.hub.address == hubs[h].address && w.hub.ctl == G.BOOT
        decreases total - offset
      {
        var kind := Byte(b, offset + 1);
        if kind == DESC_INTERFACE && w.selected { break; }
        w := ReadDescriptor(w, b, offset);
        var length := Byte(b, offset);
        if length == 0 {
          if kind == DESC_INTERFACE && w.selected { break; }
          return true;
        }
        offset := offset + length;
      }
      hang := false;
      hubs := hubs[h := w.hub.(ctl := hubs[h].ctl)];
      reqs := reqs.(getHidReport := w.hid);
    }

    /** The body of the walk. */
    static method ReadDescriptor(w0: Walker, b: Buffer, offset: nat) returns (w: Walker)
      ensures w == DescriptorRead(w0, b, offset) && w.hub.address == w0.hub.address && w.hub.ctl == w0.hub.ctl
    {
      hide Byte, Byte16;
      w := w0;
      var kind := Byte(b, offset + 1);
      if kind == DESC_INTERFACE {
        var (hub, selected) := InterfaceRead(w.hub, b, offset);
        w := w.(hub := hub, selected := selected);
        if selected {
          w := w.(hid := w.hid.(index := hub.iface));
        }
      }
      if kind == DESC_HID {
        w := w.(hid := w.hid.(length := Byte16(b, offset + 7)));
      } else if kind == DESC_ENDPOINT {
        w := w.(hub := w.hub.(maxPacket := w.hub.maxPacket[Byte(b, offset + 2) % ENDPOINTS := Byte16(b, offset + 4)]));
      }
    }

    /** All of the configuration descriptor is there. */
    method ReadConfiguration(h: nat, iface: Option<byte>) returns (hang: bool)
      requires Shaped(Now()) && h < 2 && reqs.getConfig.length == TotalLength(e.buffer)
      modifies this`hubs, this`reqs
      ensures hang <==> ConfigurationRead(old(DataOf(Now(), h)), iface).None?
      ensures hang ==> !Walkable(e.buffer, 0, TotalLength(e.buffer))
      ensures !hang ==> Shaped(Now()) && DataOf(Now(), h) == ConfigurationRead(old(DataOf(Now(), h)), iface).value
      ensures !hang ==> hubs[1 - h] == old(hubs[1 - h]) && hubs[h].ctl == old(hubs[h].ctl)
      ensures !hang ==> reqs.setAddress == old(reqs).setAddress && hubs[h].address == old(hubs[h]).address
    {
      NoteConfiguration(h, iface);
      ghost var d := DataOf(Now(), h);
      hide HeaderRead, TotalLength, Walkable, Walk;
      hang := WalkConfiguration(h);
      if hang && Walkable(e.buffer, 0, TotalLength(e.buffer)) {
        WalkEnds(Walker(d.hub, d.reqs.getHidReport, false), e.buffer, 0, TotalLength(e.buffer));
      }
    }

    method StateGetConfigurationDescRecv(h: nat, iface: Option<byte>) returns (again: bool, hang: bool, ghost m: G.Move)
      requires At(h, G.GET_CONFIGURATION_DESC_RECV)
      modifies this
      ensures hang <==> ConfigurationRead(old(DataOf(Now(), h)), iface).None?
      ensures hang ==> !Walkable(e.buffer, 0, TotalLength(e.buffer))
      ensures !hang ==> Handled(old(Now()), Now(), h, again, m)
      ensures !hang ==> DataOf(Now(), h) == ConfigurationRead(old(DataOf(Now(), h)), iface).value
      ensures !hang ==>
        m.act == if old(reqs).getConfig.length != TotalLength(old(e).buffer) then G.Us(G.GET_CONFIGURATION_DESC)
                 else G.Ms(G.SET_CONFIGURATION)
    {
      hide G.OpeningMove, G.ClassMove, G.TransferMove, Addressed, G.Inv, TotalLength, Walkable;
      again, hang := false, false;
      if reqs.getConfig.length != TotalLength(e.buffer) {
        m := G.Plain(hubs[h].ctl, G.Us(G.GET_CONFIGURATION_DESC));
        reqs := reqs.(getConfig := reqs.getConfig.(length := TotalLength(e.buffer)));
        Wait(h, G.DELAY_US, G.GET_CONFIGURATION_DESC);
      } else {
        hide ConfigurationRead;
        m := G.Plain(hubs[h].ctl, G.Ms(G.SET_CONFIGURATION));
        hang := ReadConfiguration(h, iface);
        if !hang {
          Wait(h, G.DELAY_MS, G.SET_CONFIGURATION);
        }
      }
    }

    method StateSetConfiguration(h: nat) returns (again: bool, ghost m: G.Move)
      requires At(h, G.SET_CONFIGURATION)
      modifies this
      ensures Handled(old(Now()), Now(), h, again, m)
      ensures var d := old(DataOf(Now(), h)); DataOf(Now(), h) == Requested(d, d.reqs.setConfig)
    {
      hide G.OpeningMove, G.ClassMove, G.TransferMove, Addressed, G.Inv, BeginSetup, Bytes;
      m := G.Plain(hubs[h].ctl, G.Send(G.SET_CONFIGURATION_DONE));
      SetupTransfer(h, reqs.setConfig, G.SET_CONFIGURATION_DONE);
      again := false;
    }

    method StateSetConfigurationDone(h: nat) returns (again: bool, ghost m: G.Move)
      requires At(h, G.SET_CONFIGURATION_DONE)
      modifies this
      ensures Handled(old(Now()), Now(), h, again, m)
      ensures var d := old(DataOf(Now(), h));
        DataOf(Now(), h) == d.(hub := d.hub.(toggle := seq(ENDPOINTS, _ => false)))
    {
      hide G.OpeningMove, G.ClassMove, G.TransferMove, Addressed, G.Inv, BeginSetup, Bytes;
      m := G.Plain(hubs[h].ctl, G.Us(G.SET_FEATURE));
      hubs := hubs[h := hubs[h].(toggle := seq(ENDPOINTS, _ => false))];
      Wait(h, G.DELAY_US, G.SET_FEATURE);
      again := false;
    }

    method StateSetFeature(h: nat) returns (again: bool, ghost m: G.Move)
      requires At(h, G.SET_FEATURE)
      modifies this
      ensures Handled(old(Now()), Now(), h, again, m)
      ensures m.act == if old(hubs[h]).noWakeup then G.Goto(AfterConfiguration(old(hubs[h])))
                       else G.Send(AfterConfiguration(old(hubs[h])))
      ensures var d := old(DataOf(Now(), h));
        DataOf(Now(), h) == if m.act.Send? then Requested(d.(hub := d.hub.(noRetry := true)), d.reqs.setFeature) else d
    {
      hide G.OpeningMove, G.ClassMove, G.TransferMove, Addressed, G.Inv, BeginSetup, Bytes;
      var next := AfterConfiguration(hubs[h]);
      if hubs[h].noWakeup {
        m := G.Plain(hubs[h].ctl, G.Goto(next));
        SetState(h, next);
        return true, m;
      }
      m := G.Plain(hubs[h].ctl, G.Send(next));
      hubs := hubs[h := hubs[h].(noRetry := true)];
      SetupTransfer(h, reqs.setFeature, next);
      again := false;
    }

    method StateExtraSetup(h: nat) returns (again: bool, ghost m: G.Move)
      requires At(h, G.EXTRA_SETUP)
      modifies this
      ensures Handled(old(Now()), Now(), h, again, m)
      ensures m.act == G.Us(ExtraSetup(old(hubs[h])))
      ensures var d := old(DataOf(Now(), h)); DataOf(Now(), h) == d
    {
      hide G.OpeningMove, G.ClassMove, G.TransferMove, Addressed, G.Inv, BeginSetup, Bytes;
      var next := ExtraSetup(hubs[h]);
      m := G.Plain(hubs[h].ctl, G.Us(next));
      Wait(h, G.DELAY_US, next);
      again := false;
    }

    method StateGetHidReportDesc(h: nat) returns (again: bool, ghost m: G.Move)
      requires At(h, G.GET_HID_REPORT_DESC)
      modifies this
      ensures Handled(old(Now()), Now(), h, again, m)
      ensures var d := old(DataOf(Now(), h)); DataOf(Now(), h) == Requested(d, d.reqs.getHidReport)
    {
      hide G.OpeningMove, G.ClassMove, G.TransferMove, Addressed, G.Inv, BeginSetup, Bytes;
      m := G.Plain(hubs[h].ctl, G.Send(G.GET_HID_REPORT_DESC_RECV));
      SetupTransfer(h, reqs.getHidReport, G.GET_HID_REPORT_DESC_RECV);
      again := false;
    }

    method StateGetHidReportDescRecv(h: nat) returns (again: bool, ghost m: G.Move)
      requires At(h, G.GET_HID_REPORT_DESC_RECV)
      modifies this
      ensures Handled(old(Now()), Now(), h, again, m)
      ensures var d := old(DataOf(Now(), h)); DataOf(Now(), h) == d
    {
      hide G.OpeningMove, G.DescriptorMove, G.TransferMove, Addressed, G.Inv, BeginSetup, Bytes;
      m := G.Release(hubs[h].ctl, G.Ms(G.READY));
      UnlockTransaction(h);
      Wait(h, G.DELAY_MS, G.READY);
      again := false;
    }

    method StateHidSetProtocol(h: nat) returns (again: bool, ghost m: G.Move)
      requires At(h, G.HID_SET_PROTOCOL)
      modifies this
      ensures Handled(old(Now()), Now(), h, again, m)
      ensures var d := old(DataOf(Now(), h)); DataOf(Now(), h) == ProtocolAsked(d)
    {
      hide G.OpeningMove, G.DescriptorMove, G.TransferMove, Addressed, G.Inv, BeginSetup, Bytes;
      m := G.Plain(hubs[h].ctl, G.Send(G.HID_SET_PROTOCOL_DONE));
      reqs := reqs.(hidSetProtocol := reqs.hidSetProtocol.(value := if hubs[h].boot == Selected then 0 else 1));
      SetupTransfer(h, reqs.hidSetProtocol, G.HID_SET_PROTOCOL_DONE);
      again := false;
    }

    method StateHidSetProtocolDone(h: nat) returns (again: bool, ghost m: G.Move)
      requires At(h, G.HID_SET_PROTOCOL_DONE)
      modifies this
      ensures Handled(old(Now()), Now(), h, again, m)
      ensures m.act == G.Ms(AfterProtocol(old(hubs[h])))
      ensures var d := old(DataOf(Now(), h)); DataOf(Now(), h) == d
    {
      hide G.OpeningMove, G.DescriptorMove, G.TransferMove, Addressed, G.Inv, BeginSetup, Bytes;
      var next := AfterProtocol(hubs[h]);
      m := G.Plain(hubs[h].ctl, G.Ms(next));
      Wait(h, G.DELAY_MS, next);
      again := false;
    }

    method StateGetHubDesc(h: nat) returns (again: bool, ghost m: G.Move)
      requires At(h, G.GET_HUB_DESC)
      modifies this
      ensures Handled(old(Now()), Now(), h, again, m)
      ensures var d := old(DataOf(Now(), h)); DataOf(Now(), h) == Requested(d, d.reqs.getHub)
    {
      hide G.OpeningMove, G.DescriptorMove, G.TransferMove, Addressed, G.Inv, BeginSetup, Bytes;
      m := G.Plain(hubs[h].ctl, G.Send(G.GET_HUB_DESC_RECV));
      SetupTransfer(h, reqs.getHub, G.GET_HUB_DESC_RECV);
      again := false;
    }

    method StateGetHubDescRecv(h: nat) returns (again: bool, ghost m: G.Move)
      requires At(h, G.GET_HUB_DESC_RECV)
      modifies this
      ensures Handled(old(Now()), Now(), h, again, m)
      ensures m.act == if old(reqs).getHub.length != old(e).buffer[0] then G.Us(G.GET_HUB_DESC)
                       else G.Ms(G.SET_PORT_POWER_FEATURE)
      ensures var d := old(DataOf(Now(), h)); DataOf(Now(), h) == HubRead(d)
    {
      hide G.OpeningMove, G.DescriptorMove, G.TransferMove, Addressed, G.Inv, BeginSetup, Bytes;
      again := false;
      if reqs.getHub.length != e.buffer[0] {
        m := G.Plain(hubs[h].ctl, G.Us(G.GET_HUB_DESC));
        reqs := reqs.(getHub := reqs.getHub.(length := e.buffer[0]));
        Wait(h, G.DELAY_US, G.GET_HUB_DESC);
        return;
      }
      m := G.Plain(hubs[h].ctl, G.Ms(G.SET_PORT_POWER_FEATURE));
      hubs := hubs[h := hubs[h].(ports := e.buffer[2])];
      reqs := reqs.(setPortPower := reqs.setPortPower.(index := 1));
      Wait(h, G.DELAY_MS, G.SET_PORT_POWER_FEATURE);
    }

    method StateSetPortPowerFeature(h: nat) returns (again: bool, ghost m: G.Move)
      requires At(h, G.SET_PORT_POWER_FEATURE)
      modifies this
      ensures Handled(old(Now()), Now(), h, again, m)
      ensures m.act == if PortsDone(old(hubs[h]).ports, old(reqs).setPortPower) then G.Ms(G.CLEAR_PORT_CONNECTION_FEATURE)
                       else G.Send(G.SET_PORT_POWER_FEATURE_DONE)
      ensures var d := old(DataOf(Now(), h)); DataOf(Now(), h) == PortPowered(d)
    {
      hide Target, PortsDone, G.OpeningMove, G.DescriptorMove, G.TransferMove, Addressed, G.Inv, BeginSetup, Bytes;
      again := false;
      if PortsDone(hubs[h].ports, reqs.setPortPower) {
        m := G.Plain(hubs[h].ctl, G.Ms(G.CLEAR_PORT_CONNECTION_FEATURE));
        reqs := reqs.(clearPort := reqs.clearPort.(index := 1));
        Wait(h, G.DELAY_MS, G.CLEAR_PORT_CONNECTION_FEATURE);
        return;
      }
      m := G.Plain(hubs[h].ctl, G.Send(G.SET_PORT_POWER_FEATURE_DONE));
      SetupTransfer(h, reqs.setPortPower, G.SET_PORT_POWER_FEATURE_DONE);
    }

    method StateSetPortPowerFeatureDone(h: nat) returns (again: bool, ghost m: G.Move)
      requires At(h, G.SET_PORT_POWER_FEATURE_DONE)
      modifies this
      ensures Handled(old(Now()), Now(), h, again, m)
      ensures var d := old(DataOf(Now(), h));
        DataOf(Now(), h) == d.(reqs := d.reqs.(setPortPower := NextPort(d.reqs.setPortPower)))
    {
      hide G.OpeningMove, G.DescriptorMove, G.TransferMove, Addressed, G.Inv, BeginSetup, Bytes;
      m := G.Plain(hubs[h].ctl, G.Ms(G.SET_PORT_POWER_FEATURE));
      reqs := reqs.(setPortPower := reqs.setPortPower.(index := (reqs.setPortPower.index + 1) % 0x1_0000));
      Wait(h, G.DELAY_MS, G.SET_PORT_POWER_FEATURE);
      again := false;
    }

    method StateClearPortConnectionFeature(h: nat) returns (again: bool, ghost m: G.Move)
      requires At(h, G.CLEAR_PORT_CONNECTION_FEATURE)
      modifies this
      ensures Handled(old(Now()), Now(), h, again, m)
      ensures m.act == if PortsDone(old(hubs[h]).ports, old(reqs).clearPort) then G.Goto(G.DONE)
                       else G.Send(G.CLEAR_PORT_CONNECTION_FEATURE_DONE)
      ensures var d := old(DataOf(Now(), h));
        DataOf(Now(), h) == if PortsDone(d.hub.ports, d.reqs.clearPort) then d else Requested(d, d.reqs.clearPort)
    {
      hide PortsDone, G.OpeningMove, G.DescriptorMove, G.TransferMove, Addressed, G.Inv, BeginSetup, Bytes;
      if PortsDone(hubs[h].ports, reqs.clearPort) {
        m := G.Plain(hubs[h].ctl, G.Goto(G.DONE));
        SetState(h, G.DONE);
        return true, m;
      }
      m := G.Plain(hubs[h].ctl, G.Send(G.CLEAR_PORT_CONNECTION_FEATURE_DONE));
      SetupTransfer(h, reqs.clearPort, G.CLEAR_PORT_CONNECTION_FEATURE_DONE);
      again := false;
    }

    method StateClearPortConnectionFeatureDone(h: nat) returns (again: bool, ghost m: G.Move)
      requires At(h, G.CLEAR_PORT_CONNECTION_FEATURE_DONE)
      modifies this
      ensures Handled(old(Now()), Now(), h, again, m)
      ensures var d := old(DataOf(Now(), h));
        DataOf(Now(), h) == d.(reqs := d.reqs.(clearPort := NextPort(d.reqs.clearPort)))
    {
      hide G.OpeningMove, G.DescriptorMove, G.TransferMove, Addressed, G.Inv, BeginSetup, Bytes;
      m := G.Plain(hubs[h].ctl, G.Ms(G.CLEAR_PORT_CONNECTION_FEATURE));
      reqs := reqs.(clearPort := reqs.clearPort.(index := (reqs.clearPort.index + 1) % 0x1_0000));
      Wait(h, G.DELAY_MS, G.CLEAR_PORT_CONNECTION_FEATURE);
      again := false;
    }

    method StateDone(h: nat) returns (again: bool, ghost m: G.Move)
      requires At(h, G.DONE)
      modifies this
      ensures Handled(old(Now()), Now(), h, again, m)
      ensures var d := old(DataOf(Now(), h)); DataOf(Now(), h) == d
    {
      hide G.OpeningMove, G.DescriptorMove, G.TransferMove, Addressed, G.Inv, BeginSetup, Bytes;
      m := G.Release(hubs[h].ctl, G.Ms(G.READY));
      UnlockTransaction(h);
      Wait(h, G.DELAY_MS, G.READY);
      again := false;
    }

    /** The `in` callback gets the bytes in `buffer` and `size`. */
    method StateInRecv(h: nat) returns (again: bool, size: uint16, ghost m: G.Move)
      requires At(h, G.IN_RECV)
      modifies this
      ensures size == Reported(old(e))
      ensures Handled(old(Now()), Now(), h, again, m)
      ensures var d := old(DataOf(Now(), h)); DataOf(Now(), h) == d.(hub := d.hub.(noRetry := false))
    {
      hide G.OpeningMove, G.DescriptorMove, G.TransferMove, Addressed, G.Inv, BeginSetup, Bytes;
      m := G.Release(hubs[h].ctl, G.Us(G.READY));
      size := (e.wanted - e.tr.size) % 0x1_0000;
      hubs := hubs[h := hubs[h].(noRetry := false)];
      UnlockTransaction(h);
      Wait(h, G.DELAY_US, G.READY);
      again := false;
    }

    method StateOutDone(h: nat) returns (again: bool, ghost m: G.Move)
      requires At(h, G.OUT_DONE)
      modifies this
      ensures Handled(old(Now()), Now(), h, again, m)
      ensures var d := old(DataOf(Now(), h)); DataOf(Now(), h) == d
    {
      hide G.OpeningMove, G.DescriptorMove, G.TransferMove, Addressed, G.Inv, BeginSetup, Bytes;
      m := G.Release(hubs[h].ctl, G.Us(G.READY));
      UnlockTransaction(h);
      Wait(h, G.DELAY_US, G.READY);
      again := false;
    }

    /** The `hid_report` callback gets a report unless the transfer ended in a NAK. */
    method StateHidGetReport(h: nat) returns (again: bool, report: Option<uint16>, ghost m: G.Move)
      requires At(h, G.HID_GET_REPORT)
      modifies this
      ensures report == if old(hubs[h]).noRetry then None else Some(Reported(old(e)))
      ensures Handled(old(Now()), Now(), h, again, m)
      ensures var d := old(DataOf(Now(), h)); DataOf(Now(), h) == d.(hub := d.hub.(noRetry := false))
    {
      hide G.OpeningMove, G.DescriptorMove, G.TransferMove, Addressed, G.Inv, BeginSetup, Bytes;
      m := G.Release(hubs[h].ctl, G.Us(G.READY));
      report := if hubs[h].noRetry then None else Some((e.wanted - e.tr.size) % 0x1_0000);
      hubs := hubs[h := hubs[h].(noRetry := false)];
      UnlockTransaction(h);
      Wait(h, G.DELAY_US, G.READY);
      again := false;
    }

    /** `state_delay_us` and `state_delay_ms`. */
    method StateDelay(h: nat, expired: bool) returns (again: bool, ghost m: G.Move)
      requires Has(h) && G.Delay(hubs[h].ctl.st)
      modifies this
      ensures Handled(old(Now()), Now(), h, again, m)
      ensures m == G.Plain(old(hubs[h]).ctl, if expired then G.Goto(old(hubs[h]).ctl.next) else G.Stay)
      ensures var d := old(DataOf(Now(), h)); DataOf(Now(), h) == d
    {
      hide G.OpeningMove, G.DescriptorMove, G.ClassMove, Addressed, G.Inv;
      m := G.Plain(hubs[h].ctl, G.Stay);
      if !expired { return false, m; }
      m := G.Plain(hubs[h].ctl, G.Goto(hubs[h].ctl.next));
      SetState(h, hubs[h].ctl.next);
      return true, m;
    }

    /** Copies the received bytes behind those already there. */
    method StorePacket(a: Answer)
      modifies this`e
      ensures e == Received(old(e), a)
      ensures e.tr.pid == old(e).tr.pid && e.tr.ep == old(e).tr.ep && e.tr.stage == old(e).tr.stage && e.tx == old(e).tx
    {
      if e.tr.pid == In && a.token != TOKEN_NAK && a.token != TOKEN_STALL {
        var b := e.buffer;
        for i := 0 to |a.rx|
          invariant |b| == BUFFER && b == Store(e.buffer, e.tr.fill, a.rx[..i])
        {
          if e.tr.fill + i < BUFFER {
            b := b[e.tr.fill + i := a.rx[i]];
          }
        }
        assert a.rx[..|a.rx|] == a.rx;
        e := e.(buffer := b, tr := e.tr.(fill := e.tr.fill + |a.rx|, size := (e.tr.size - |a.rx|) % 0x1_0000));
      }
    }

    /** What `state_transaction` decides about a completed packet. */
    method Decide(maxPacket: nat, noRetry: bool, a: Answer) returns (v: Verdict)
      modifies this`e
      ensures Completion(e, v) == Complete(old(e), maxPacket, noRetry, a)
    {
      hide Received, DirIn, Length;
      StorePacket(a);
      if a.token == TOKEN_STALL {
        e := e.(buffer := e.buffer[0 := 0]);
        return Stalled;
      } else if Success(a) {
        if e.tr.size != 0 && |a.rx| == maxPacket { return Continue; }
        var pid := e.tr.pid;
        if pid == Setup {
          if DirIn(e.tx) {
            pid := In;
            if Length(e.tx) != 0 { return StartIn; }
          } else {
            pid := Out;
            if Length(e.tx) != 0 { return StartOut; }
          }
        }
        if e.tr.stage == 0 {
          e := e.(tr := e.tr.(stage := 1));
          if pid == In {
            return StartOut;
          } else if pid == Out {
            return StartIn;
          }
        }
        return Finish;
      } else if a.token == TOKEN_NAK {
        return if noRetry then NakFail else Retry;
      }
      return Error;
    }

    /** `state_transaction`: the engine and the move follow `Complete`. */
    method StateTransaction(h: nat, completed: bool, a: Answer) returns (again: bool, ghost m: G.Move)
      requires At(h, G.TRANSACTION)
      modifies this
      ensures Handled(old(Now()), Now(), h, again, m)
      ensures var d := old(DataOf(Now(), h)); DataOf(Now(), h) == if completed then PacketDone(d, old(recv), a) else d
      ensures !completed ==> m == G.Plain(old(hubs[h]).ctl, G.Stay)
      ensures completed ==> m == MoveOf(old(hubs[h]).ctl, old(recv), VerdictOn(old(e), old(hubs[h]), a))
    {
      hide Target, G.After, G.OpeningMove, G.DescriptorMove, G.ClassMove, Addressed, G.Inv, G.Moves, Complete, MoveOf,
        AfterVerdict, Ended, G.Good;
      m := G.Plain(hubs[h].ctl, G.Stay);
      WaitingMoves(hubs[h].ctl, lock == G.FREE, recv);
      if !completed { return false, m; }
      epPid := 0;
      var v := Decide(hubs[h].maxPacket[e.tr.ep], hubs[h].noRetry, a);
      m := MoveOf(hubs[h].ctl, recv, v);
      VerdictMoves(hubs[h].ctl, lock == G.FREE, recv, v);
      again := Follow(h, v);
      VerdictFrame(old(hubs[h]), v, recv, e.tr.ep, G.BOOT);
      assert DataOf(Now(), h) == PacketDone(old(DataOf(Now(), h)), old(recv), a);
    }

    /** Carries a verdict out. */
    method Follow(h: nat, v: Verdict) returns (again: bool)
      requires |hubs| == 2 && h < 2 && hubs[h].ctl.st == G.TRANSACTION
      modifies this`hubs, this`lock
      ensures var m := MoveOf(old(hubs[h]).ctl, recv, v);
        && hubs == old(hubs)[h := AfterVerdict(old(hubs[h]), v, recv, e.tr.ep).(ctl := G.After(old(hubs[h]).ctl, m))]
        && lock == G.Lock(old(lock), h, m.op) && again == G.Again(m)
    {
      again := false;
      match v {
        case Continue => Wait(h, G.DELAY_US, G.TRANSACTION_CONT);
        case StartIn => Wait(h, G.DELAY_US, G.TRANSACTION_IN);
        case StartOut => Wait(h, G.DELAY_US, G.TRANSACTION_OUT);
        case Retry => Wait(h, G.DELAY_US, G.TRANSACTION_RETRY);
        case Finish =>
          Report(h);
          again := true;
        case NakFail =>
          SetState(h, recv);
          again := true;
        case Stalled =>
          UnlockTransaction(h);
          SetState(h, recv);
          again := true;
        case Error => SetState(h, G.HALT);
      }
    }

    /** The transfer is over; a bulk OUT flips the toggle of its endpoint. */
    method Report(h: nat)
      requires |hubs| == 2 && h < 2
      modifies this`hubs
      ensures hubs == old(hubs)[h := Ended(old(hubs[h]), recv, e.tr.ep).(ctl := old(hubs[h]).ctl.(st := recv))]
    {
      if recv == G.OUT_DONE {
        hubs := hubs[h := hubs[h].(toggle := hubs[h].toggle[e.tr.ep := !hubs[h].toggle[e.tr.ep]])];
      }
      hubs := hubs[h := hubs[h].(noRetry := false)];
      SetState(h, recv);
    }

    method StateTransactionIn(h: nat) returns (again: bool, ghost m: G.Move)
      requires At(h, G.TRANSACTION_IN)
      modifies this
      ensures Handled(old(Now()), Now(), h, again, m)
      ensures var d := old(DataOf(Now(), h)); DataOf(Now(), h) == Reissued(d, StageIn(d.e))
    {
      hide Length, Target, G.OpeningMove, G.DescriptorMove, G.ClassMove, Addressed, G.Inv, Begin;
      m := G.Plain(hubs[h].ctl, G.Send(recv));
      e := e.(wanted := if e.tr.stage == 1 then 0 else Length(e.tx));
      Transact(h, [], e.wanted, recv, e.tr.ep, In, e.tr.stage, if e.tr.stage == 1 then Auto else Data0);
      assert e == StageIn(old(e));
      again := false;
    }

    method StateTransactionOut(h: nat) returns (again: bool, ghost m: G.Move)
      requires At(h, G.TRANSACTION_OUT)
      modifies this
      ensures Handled(old(Now()), Now(), h, again, m)
      ensures var d := old(DataOf(Now(), h)); DataOf(Now(), h) == Reissued(d, StageOut(d.e))
    {
      hide Length, Target, G.OpeningMove, G.DescriptorMove, G.ClassMove, Addressed, G.Inv, Begin;
      m := G.Plain(hubs[h].ctl, G.Send(recv));
      var size := if e.tr.stage == 1 then 0 else Length(e.tx);
      Transact(h, e.buffer[..Min(size, BUFFER)], size, recv, e.tr.ep, Out, e.tr.stage, if e.tr.stage != 2 then Auto else Data0);
      assert e == StageOut(old(e));
      again := false;
    }

    method StateTransactionAck(h: nat) returns (again: bool, ghost m: G.Move)
      requires At(h, G.TRANSACTION_ACK)
      modifies this
      ensures Handled(old(Now()), Now(), h, again, m)
      ensures var d := old(DataOf(Now(), h));
        DataOf(Now(), h) == Reissued(d, Begin(d.e, Ack, d.e.tr.ep, d.e.tr.stage, [], 0, Data0))
    {
      hide G.OpeningMove, G.DescriptorMove, G.ClassMove, Addressed, G.Inv, Begin;
      m := G.Plain(hubs[h].ctl, G.Send(recv));
      Transact(h, [], 0, recv, e.tr.ep, Ack, e.tr.stage, Data0);
      again := false;
    }

    method StateTransactionCont(h: nat) returns (again: bool, ghost m: G.Move)
      requires At(h, G.TRANSACTION_CONT)
      modifies this
      ensures Handled(old(Now()), Now(), h, again, m)
      ensures var d := old(DataOf(Now(), h)); DataOf(Now(), h) == Reissued(d, Issue(d.e, Auto))
    {
      hide G.OpeningMove, G.DescriptorMove, G.ClassMove, Addressed, G.Inv, Issue;
      m := G.Plain(hubs[h].ctl, G.Send(recv));
      TransactCont(h, Auto);
      again := false;
    }

    /** Starts the same packet again. */
    method StateTransactionRetry(h: nat) returns (again: bool, ghost m: G.Move)
      requires At(h, G.TRANSACTION_RETRY)
      modifies this
      ensures Handled(old(Now()), Now(), h, again, m)
      ensures var d := old(DataOf(Now(), h)); DataOf(Now(), h) == Reissued(d, d.e)
    {
      hide G.OpeningMove, G.DescriptorMove, G.ClassMove, Addressed, G.Inv;
      m := G.Plain(hubs[h].ctl, G.Send(recv));
      epPid := 16 * PidCode(e.tr.pid) + e.tr.ep;
      SetState(h, G.TRANSACTION);
      again := false;
    }

    // ----- The dispatcher and the poll loop ---------------------------------

    /** The check at the head of `fsm`.  It stops whatever packet is on the bus,
        even one the other hub has started. */
    method CheckAttached(h: nat, attached: bool)
      requires Has(h)
      modifies this
      ensures Has(h) && Now() == Checked(old(Now()), h, attached)
    {
      if hubs[h].ctl.st != G.IDLE && !hubs[h].ctl.resetting && !attached {
        SetState(h, G.IDLE);
        epPid := 0;
        UnlockTransaction(h);
      }
    }

    /** `fsm`: after the attach check the handler of the hub's state, unless that
        hangs.  The ownership invariants hold behind it if they held before and the
        other hub's poll loop was not going on, unless the device has answered a
        transfer with a STALL that does harm; under them a hub that does not own
        the bus writes nothing that is shared but, on a detach, UH_EP_PID. */
    method Fsm(h: nat, env: Env) returns (again: bool, hang: bool, ghost m: G.Move)
      requires Has(h)
      modifies this
      ensures hang ==> old(hubs[h]).ctl.st == G.GET_CONFIGURATION_DESC_RECV && !Walkable(e.buffer, 0, TotalLength(e.buffer))
      ensures !hang ==>
        && FsmStep(old(Now()), Now(), h, env, m) && again == G.Again(m)
        && G.Enabled(old(Control(Now())), G.Fsm(h, env.attached, m))
        && Control(Now()) == G.Next(old(Control(Now())), G.Fsm(h, env.attached, m))
        && hubs[1 - h] == old(hubs[1 - h])
      ensures !hang && old(Live()) ==> Live()
      ensures !hang && old(Turn(h)) && !Spoils(old(Now()), h, env) ==>
        Turn(h) && G.Guarded(old(Control(Now())), G.Fsm(h, env.attached, m))
      ensures !hang && old(Valid()) && lock != h && old(lock) != h ==>
        && recv == old(recv) && e == old(e) && reqs == old(reqs) && strings == old(strings) && devAd == old(devAd)
        && epPid == if G.Detaches(old(hubs[h]).ctl, env.attached) then 0 else old(epPid)
    {
      hide Sane, G.Live, G.Enabled, G.Next, G.Guarded, G.Transient, Dispatched, Spoils;
      CheckAttached(h, env.attached);
      again, hang, m := Dispatch(h, env);
      if !hang {
        StepIsNext(old(Now()), Now(), h, env, m);
        StepKeeps(old(Now()), Now(), h, env, m);
      }
    }

    method Dispatch(h: nat, env: Env) returns (again: bool, hang: bool, ghost m: G.Move)
      requires Has(h)
      modifies this
      ensures hang ==> old(hubs[h]).ctl.st == G.GET_CONFIGURATION_DESC_RECV && !Walkable(e.buffer, 0, TotalLength(e.buffer))
      ensures !hang ==> again == G.Again(m) && Dispatched(old(Now()), Now(), h, env, m)
    {
      hide G.Inv, G.Good, G.Moves, Addressed, Walkable, DataOf, OpeningEffect, DescriptorEffect, ClassEffect, TransferEffect,
        OpeningChoice, DescriptorChoice, ClassChoice, TransferChoice;
      hang := false;
      var st := hubs[h].ctl.st;
      if st <= G.GET_STRING_DESC {
        again, m := DispatchOpening(h, env);
      } else if st <= G.GET_HID_REPORT_DESC {
        again, hang, m := DispatchDescriptor(h, env);
      } else if st <= G.HID_GET_REPORT {
        again, m := DispatchClass(h, env);
      } else {
        again, m := DispatchTransfer(h, env);
      }
    }

    /** The states up to the first request for a string. */
    method DispatchOpening(h: nat, env: Env) returns (again: bool, ghost m: G.Move)
      requires Has(h) && hubs[h].ctl.st <= G.GET_STRING_DESC
      modifies this
      ensures Handled(old(Now()), Now(), h, again, m)
      ensures var d := old(DataOf(Now(), h)); var b := old(hubs[h]).ctl;
        DataOf(Now(), h) == OpeningEffect(d, b, h, m) && OpeningChoice(d, b, env.present, m)
    {
      hide G.Inv, G.Good, G.Moves, Handled, Addressed, AddressSent, DeviceAsked, DeviceRead, StringAsked;
      var st := hubs[h].ctl.st;
      if st == G.IDLE {
        again, m := StateIdle(h, env.present);
      } else if st == G.CONNECT {
        again, m := StateConnect(h);
      } else if st == G.RESET {
        again, m := StateReset(h);
      } else if st == G.ENABLE {
        again, m := StateEnable(h, env.present);
      } else if st == G.SET_ADDRESS {
        again, m := StateSetAddress(h);
      } else if st == G.SET_ADDRESS_DONE {
        again, m := StateSetAddressDone(h);
      } else if st == G.GET_DEVICE_DESC {
        again, m := StateGetDeviceDesc(h);
      } else if st == G.GET_DEVICE_DESC_RECV {
        again, m := StateGetDeviceDescRecv(h);
      } else {
        again, m := StateGetStringDesc(h);
      }
    }

    /** The states up to the request for a report descriptor. */
    method DispatchDescriptor(h: nat, env: Env) returns (again: bool, hang: bool, ghost m: G.Move)
      requires Has(h) && G.GET_STRING_DESC < hubs[h].ctl.st <= G.GET_HID_REPORT_DESC
      modifies this
      ensures hang ==> old(hubs[h]).ctl.st == G.GET_CONFIGURATION_DESC_RECV && !Walkable(e.buffer, 0, TotalLength(e.buffer))
      ensures !hang ==>
        Handled(old(Now()), Now(), h, again, m)
      ensures !hang ==>
        var d := old(DataOf(Now(), h)); var b := old(hubs[h]).ctl;
        DataOf(Now(), h) == DescriptorEffect(d, b, env.iface, m) && DescriptorChoice(d, b, m)
    {
      hide G.Inv, G.Good, G.Moves, Handled, Addressed, Walkable, StringRead, Requested, ConfigurationRead;
      hang := false;
      var st := hubs[h].ctl.st;
      if st == G.GET_STRING_DESC_RECV {
        again, m := StateGetStringDescRecv(h);
      } else if st == G.GET_CONFIGURATION_DESC {
        again, m := StateGetConfigurationDesc(h);
      } else if st == G.GET_CONFIGURATION_DESC_RECV {
        again, hang, m := StateGetConfigurationDescRecv(h, env.iface);
      } else if st == G.SET_CONFIGURATION {
        again, m := StateSetConfiguration(h);
      } else if st == G.SET_CONFIGURATION_DONE {
        again, m := StateSetConfigurationDone(h);
      } else if st == G.SET_FEATURE {
        again, m := StateSetFeature(h);
      } else if st == G.EXTRA_SETUP {
        again, m := StateExtraSetup(h);
      } else if st == G.GET_HID_REPORT_DESC {
        again, m := StateGetHidReportDesc(h);
      } else {
        again, m := StateUnknown(h);
      }
    }

    /** The states up to the end of a transfer. */
    method DispatchClass(h: nat, env: Env) returns (again: bool, ghost m: G.Move)
      requires Has(h) && G.GET_HID_REPORT_DESC < hubs[h].ctl.st <= G.HID_GET_REPORT
      modifies this
      ensures Handled(old(Now()), Now(), h, again, m)
      ensures var d := old(DataOf(Now(), h)); var b := old(hubs[h]).ctl;
        DataOf(Now(), h) == ClassEffect(d, b) && ClassChoice(d, b, m)
    {
      hide G.Inv, G.Good, G.Moves, Handled, Addressed, ProtocolAsked, Requested, HubRead, PortPowered, PortsDone, NextPort;
      var st := hubs[h].ctl.st;
      if st == G.GET_HID_REPORT_DESC_RECV {
        again, m := StateGetHidReportDescRecv(h);
      } else if st == G.HID_SET_PROTOCOL {
        again, m := StateHidSetProtocol(h);
      } else if st == G.HID_SET_PROTOCOL_DONE {
        again, m := StateHidSetProtocolDone(h);
      } else if st == G.GET_HUB_DESC {
        again, m := StateGetHubDesc(h);
      } else if st == G.GET_HUB_DESC_RECV {
        again, m := StateGetHubDescRecv(h);
      } else if st == G.SET_PORT_POWER_FEATURE {
        again, m := StateSetPortPowerFeature(h);
      } else if st == G.SET_PORT_POWER_FEATURE_DONE {
        again, m := StateSetPortPowerFeatureDone(h);
      } else if st == G.CLEAR_PORT_CONNECTION_FEATURE {
        again, m := StateClearPortConnectionFeature(h);
      } else if st == G.CLEAR_PORT_CONNECTION_FEATURE_DONE {
        again, m := StateClearPortConnectionFeatureDone(h);
      } else if st == G.DONE {
        again, m := StateDone(h);
      } else if st == G.IN_RECV {
        var size;
        again, size, m := StateInRecv(h);
      } else if st == G.OUT_DONE {
        again, m := StateOutDone(h);
      } else if st == G.HID_GET_REPORT {
        var report;
        again, report, m := StateHidGetReport(h);
      } else {
        again, m := StateQuiet(h);
      }
    }

    /** Delays and the running transfer. */
    method DispatchTransfer(h: nat, env: Env) returns (again: bool, ghost m: G.Move)
      requires Has(h) && G.HID_GET_REPORT < hubs[h].ctl.st
      modifies this
      ensures Handled(old(Now()), Now(), h, again, m)
      ensures var d := old(DataOf(Now(), h)); var b := old(hubs[h]).ctl;
        DataOf(Now(), h) == TransferEffect(d, b, old(recv), env) && TransferChoice(d, b, old(recv), env, m)
    {
      hide G.Inv, G.Good, G.Moves, Handled, Addressed, PacketDone, Reissued, MoveOf, Complete;
      var st := hubs[h].ctl.st;
      if G.Delay(st) {
        again, m := StateDelay(h, env.expired);
      } else if st == G.TRANSACTION {
        again, m := StateTransaction(h, env.completed, env.answer);
      } else if st == G.TRANSACTION_IN {
        again, m := StateTransactionIn(h);
      } else if st == G.TRANSACTION_OUT {
        again, m := StateTransactionOut(h);
      } else if st == G.TRANSACTION_ACK {
        again, m := StateTransactionAck(h);
      } else if st == G.TRANSACTION_CONT {
        again, m := StateTransactionCont(h);
      } else {
        again, m := StateTransactionRetry(h);
      }
    }

    /** `state_ready` and the idle case of STATE_HALT. */
    method StateQuiet(h: nat) returns (again: bool, ghost m: G.Move)
      requires Has(h) && (hubs[h].ctl.st == G.READY || hubs[h].ctl.st == G.HALT)
      ensures Handled(Now(), Now(), h, again, m)
    {
      hide G.OpeningMove, G.DescriptorMove, G.TransferMove, Addressed, G.Inv;
      return false, G.Plain(hubs[h].ctl, G.Stay);
    }

    /** The default case of the switch. */
    method StateUnknown(h: nat) returns (again: bool, ghost m: G.Move)
      requires Has(h) && (hubs[h].ctl.st == 12 || hubs[h].ctl.st == 13)
      modifies this
      ensures Handled(old(Now()), Now(), h, again, m)
      ensures var d := old(DataOf(Now(), h)); DataOf(Now(), h) == d
    {
      hide G.OpeningMove, G.ClassMove, G.TransferMove, Addressed, G.Inv;
      m := G.Plain(hubs[h].ctl, G.Stop);
      SetState(h, G.HALT);
      again := false;
    }

    /** `while (fsm(hub));` of `usb_host_poll`, from every state there is: at most
        three calls, after which the hub is not about to give the bus back or to
        take it again; it hangs only on a descriptor of length zero.  `envs(i)` is
        what call i reads.  The ownership invariants are kept unless the first call
        meets a STALL that does harm. */
    method Poll(h: nat, envs: nat -> Env) returns (calls: nat, hang: bool)
      requires Live() && h < 2
      modifies this
      ensures calls <= 3
      ensures hang ==> !Walkable(e.buffer, 0, TotalLength(e.buffer))
      ensures !hang ==> Live() && hubs[1 - h] == old(hubs[1 - h]) && !G.Transient(hubs[h].ctl)
      ensures !hang && old(Quiet()) && !Spoils(old(Now()), h, envs(0)) ==> Quiet()
    {
      hide G.Live, G.Enabled, G.Next, G.Guarded, G.Transient, FsmStep, Sane, Walkable;
      ghost var quiet := Quiet() && !Spoils(Now(), h, envs(0));
      var again := true;
      calls, hang := 0, false;
      while again && !hang
        invariant hang ==> !Walkable(e.buffer, 0, TotalLength(e.buffer))
        invariant hang || (Live() && hubs[1 - h] == old(hubs[1 - h]))
        invariant calls <= 3 && (again && !hang ==> calls <= 2 - G.Rank(hubs[h].ctl.st))
        invariant calls == 0 ==> !hang && again && Now() == old(Now())
        invariant !hang && calls > 0 && again ==> hubs[h].ctl.st != G.TRANSACTION
        invariant !hang && !again ==> !G.Transient(hubs[h].ctl)
        invariant !hang && quiet ==> Turn(h)
        decreases if again && !hang then 1 + G.Rank(hubs[h].ctl.st) else 0
      {
        ghost var m;
        ghost var before := Control(Now());
        again, hang, m := Fsm(h, envs(calls));
        calls := calls + 1;
        if !hang {
          PollStep(before, h, envs(calls - 1).attached, m);
        }
      }
    }

    // ----- Transfer entry points ----------------------------------------------

    /** `usb_host_ready`. */
    predicate HostReady(h: nat)
      requires |hubs| == 2 && h < 2
      reads this`hubs, this`lock
    {
      hubs[h].ctl.st == G.READY && lock < 0
    }

    /** A transfer is accepted exactly when the hub is ready and the bus is free;
        a refused one changes nothing. */
    ghost predicate Started(a: Vars, h: nat, ok: bool, recvState: G.St, d: Data)
      requires Shaped(a) && h < 2
      reads this
    {
      && ok == (a.hubs[h].ctl.st == G.READY && a.lock == G.FREE)
      && (!ok ==> Now() == a)
      && (ok ==> Launched(a, Now(), h, recvState, d))
    }

    method Accepted(ghost a: Vars, h: nat, ghost recvState: G.St)
      requires Shaped(a) && G.Live(Control(a)) && h < 2 && a.hubs[h].ctl.st == G.READY && a.lock == G.FREE
      requires recvState == G.IN_RECV || recvState == G.DONE || recvState == G.OUT_DONE || recvState == G.HID_GET_REPORT
      requires |hubs| == 2 && hubs[1 - h] == a.hubs[1 - h] && hubs[h].ctl == a.hubs[h].ctl.(st := G.TRANSACTION)
      requires lock == h && recv == recvState && devAd == Target(hubs[h], h) && hubs[h].address == a.hubs[h].address
      ensures Live() && Started(a, h, true, recvState, DataOf(Now(), h))
      ensures Sane(a) && !G.Transient(a.hubs[0].ctl) && !G.Transient(a.hubs[1].ctl) && reqs.setAddress == a.reqs.setAddress ==> Quiet()
    {
      hide G.Inv, G.Live;
      assert Control(Now()) == G.Next(Control(a), G.Transfer(h, recvState));
      G.NextKeepsLive(Control(a), G.Transfer(h, recvState));
      if Sane(a) && !G.Transient(a.hubs[0].ctl) && !G.Transient(a.hubs[1].ctl) {
        G.NextKeepsInv(Control(a), G.Transfer(h, recvState));
      }
    }

    method UsbHostSetup(h: nat, req: Request, data: seq<byte>) returns (ok: bool)
      requires Live() && h < 2
      requires !req.dirIn ==> req.length <= |data| && req.length <= BUFFER
      modifies this
      ensures Live() && (old(Quiet()) ==> Quiet())
      ensures var d := old(DataOf(Now(), h)); var d0 := if req.dirIn then d else WithPayload(d, data[..req.length]);
        Started(old(Now()), h, ok, if req.dirIn then G.IN_RECV else G.DONE, Requested(d0, req))
    {
      if !HostReady(h) { return false; }
      hide G.Inv, G.Live, G.Transient, BeginSetup, Bytes;
      ok := LockTransaction(h, Target(hubs[h], h));
      if !req.dirIn {
        var b := e.buffer;
        for i := 0 to req.length
          invariant |b| == BUFFER && forall k :: 0 <= k < BUFFER ==> b[k] == if k < i then data[k] else e.buffer[k]
        {
          b := b[i := data[i]];
        }
        assert b == data[..req.length] + e.buffer[req.length..];
        e := e.(buffer := b);
      }
      SetupTransfer(h, req, if req.dirIn then G.IN_RECV else G.DONE);
      Accepted(old(Now()), h, if req.dirIn then G.IN_RECV else G.DONE);
    }

    /** `usb_host_in` (stage 2) and `usb_host_in_data0` (stage 0). */
    method UsbHostIn(h: nat, ep: byte, size: uint16, stage: nat) returns (ok: bool)
      requires Live() && h < 2
      modifies this
      ensures Live() && (old(Quiet()) ==> Quiet())
      ensures var d := old(DataOf(Now(), h));
        Started(old(Now()), h, ok, G.IN_RECV,
                Reissued(d.(hub := d.hub.(noRetry := true)), Begin(d.e.(wanted := size), In, EndpointOf(ep), stage, [], size, Data0)))
    {
      if !HostReady(h) { return false; }
      hide G.Inv, G.Live, G.Transient, Begin;
      ok := LockTransaction(h, Target(hubs[h], h));
      hubs := hubs[h := hubs[h].(noRetry := true)];
      e := e.(wanted := size);
      Transact(h, [], size, G.IN_RECV, EndpointOf(ep), In, stage, Data0);
      Accepted(old(Now()), h, G.IN_RECV);
    }

    /** The toggle of the next bulk OUT packet of an endpoint. */
    function OutTog(h: nat, ep: byte): Tog
      requires |hubs| == 2 && h < 2
      reads this`hubs
    {
      if hubs[h].toggle[EndpointOf(ep)] then Data1 else Data0
    }

    method UsbHostOut(h: nat, ep: byte, data: seq<byte>, size: uint16) returns (ok: bool)
      requires Live() && h < 2 && size <= |data|
      modifies this
      ensures Live() && (old(Quiet()) ==> Quiet())
      ensures var d := old(DataOf(Now(), h));
        Started(old(Now()), h, ok, G.OUT_DONE, Reissued(d, Begin(d.e, Out, EndpointOf(ep), 2, data[..size], size, old(OutTog(h, ep)))))
      ensures ok ==> e.tog == if old(hubs[h]).toggle[ep % 16] then Data1 else Data0
    {
      if !HostReady(h) { return false; }
      hide G.Inv, G.Live, G.Transient, Begin;
      ok := LockTransaction(h, Target(hubs[h], h));
      Transact(h, data[..size], size, G.OUT_DONE, EndpointOf(ep), Out, 2, OutTog(h, ep));
      Accepted(old(Now()), h, G.OUT_DONE);
    }

    /** For HID devices only. */
    method UsbHostHidGetReport(h: nat, kind: byte, id: byte, size: byte) returns (ok: bool)
      requires Live() && h < 2
      modifies this
      ensures Live() && (old(Quiet()) ==> Quiet())
      ensures !old(hubs[h]).isHid ==> !ok && Now() == old(Now())
      ensures old(hubs[h]).isHid ==>
        var d := old(DataOf(Now(), h));
        Started(old(Now()), h, ok, G.HID_GET_REPORT, ReportAsked(d, kind, id, size))
    {
      if !hubs[h].isHid || !HostReady(h) { return false; }
      hide G.Inv, G.Live, G.Transient, BeginSetup, Bytes;
      ok := LockTransaction(h, Target(hubs[h], h));
      reqs := reqs.(hidGetReport := reqs.hidGetReport.(value := Word(id, kind), index := hubs[h].iface, length := size));
      hubs := hubs[h := hubs[h].(noRetry := false)];
      SetupTransfer(h, reqs.hidGetReport, G.HID_GET_REPORT);
      Accepted(old(Now()), h, G.HID_GET_REPORT);
    }

    /** The invariants hold behind a switch of a hub that is off the bus, not
        resetting and past its first pass (`HubSwitchIsSafeIff`). */
    method UsbHostHubSwitch(h: nat, address: byte)
      requires Live() && h < 2
      modifies this`hubs
      ensures hubs == old(hubs)[h := old(hubs[h]).(address := address, ctl := old(hubs[h]).ctl.(st := G.SET_ADDRESS))]
      ensures Live() && Control(Now()) == G.Next(old(Control(Now())), G.HubSwitch(h))
      ensures old(Quiet()) && old(G.SwitchSafe(hubs[h].ctl, lock == h)) ==> Quiet()
    {
      ghost var before := Control(Now());
      hide G.Inv, G.Live;
      hubs := hubs[h := hubs[h].(address := address, ctl := hubs[h].ctl.(st := G.SET_ADDRESS))];
      assert Control(Now()) == G.Next(before, G.HubSwitch(h));
      G.NextKeepsLive(before, G.HubSwitch(h));
      if old(Quiet()) && old(G.SwitchSafe(hubs[h].ctl, lock == h)) {
        G.NextKeepsInv(before, G.HubSwitch(h));
      }
    }

    constructor ()
      ensures Quiet() && Live() && Control(Now()) == G.START && epPid == 0 && Templates(reqs)
    {
      var hub := Hub(G.BOOT, false, false, NotSupported, 0, 0, NO_INTERFACE, false,
                     seq(ENDPOINTS, _ => 0), seq(ENDPOINTS, _ => false));
      hubs := [hub, hub];
      lock := G.FREE;
      recv := G.IDLE;
      devAd := 0;
      e := Engine(Transfer(Out, 0, 0, 0, [], 0), seq(PACKET, _ => 0), 0, seq(BUFFER, _ => 0), 0, Data0);
      strings := [0, 0, 0];
      epPid := 0;
      reqs := Requests(
        Request(false, 0x00, 0x05, 0x0000, 0, 0), Request(true, 0x00, 0x06, 0x0100, 0, 0x12),
        Request(true, 0x00, 0x06, 0x0300, 0x0409, 2), Request(true, 0x00, 0x06, 0x0200, 0, 9),
        Request(false, 0x00, 0x09, 0x0000, 0, 0), Request(false, 0x00, 0x03, 0x0001, 0, 0),
        Request(true, 0x01, 0x06, 0x2200, 0, 0), Request(true, 0x21, 0x01, 0x0100, 0, 0),
        Request(false, 0x21, 0x0b, 0x0000, 0, 0), Request(true, 0x20, 0x06, 0x2900, 0, 0),
        Request(false, 0x23, 0x03, 0x0008, 0, 0), Request(false, 0x23, 0x01, 0x0010, 0, 0));
    }
  }

  /** A handled call is one move of the two hubs. */
  lemma HandledApplies(a: Vars, b: Vars, h: nat, again: bool, m: G.Move)
    requires Handled(a, b, h, again, m)
    ensures G.Allowed(Control(a), h, m) && Control(b) == G.Apply(Control(a), h, m)
  {
    hide G.Moves, G.After, G.Lock;
    if h == 0 {} else {}
  }

  lemma CheckedDetaches(v: Vars, h: nat, attached: bool)
    requires Shaped(v) && h < 2
    ensures Shaped(Checked(v, h, attached)) && Control(Checked(v, h, attached)) == G.Detach(Control(v), h, attached)
  {
    if h == 0 {} else {}
  }

  /** One call of `fsm` is one step of the graph. */
  lemma StepIsNext(a: Vars, b: Vars, h: nat, env: Env, m: G.Move)
    requires FsmStep(a, b, h, env, m)
    ensures G.Enabled(Control(a), G.Fsm(h, env.attached, m)) && Control(b) == G.Next(Control(a), G.Fsm(h, env.attached, m))
    ensures Shaped(b) && b.hubs[1 - h] == a.hubs[1 - h]
  {
    hide Effect, Choice, G.Moves, G.After, AddressRule;
    CheckedDetaches(a, h, env.attached);
    HandledApplies(Checked(a, h, env.attached), b, h, G.Again(m), m);
  }

  lemma CheckedIsSane(v: Vars, h: nat, attached: bool)
    requires Sane(v) && h < 2
    ensures Sane(Checked(v, h, attached))
  {
    hide G.Inv, G.Detach;
    G.DetachKeepsInv(Control(v), h, attached);
    CheckedDetaches(v, h, attached);
  }

  lemma StepKeepsSane(a: Vars, b: Vars, h: nat, env: Env, m: G.Move)
    requires FsmStep(a, b, h, env, m) && Sane(a) && !G.Transient(a.hubs[1 - h].ctl) && !Spoils(a, h, env)
    ensures Sane(b) && G.Enabled(Control(a), G.Fsm(h, env.attached, m)) && G.Guarded(Control(a), G.Fsm(h, env.attached, m))
  {
    hide G.Inv, G.Moves, Effect, Choice, Addressed, G.Transient, AddressRule, G.After, G.StallSafe;
    var mid := Checked(a, h, env.attached);
    CheckedIsSane(a, h, env.attached);
    CheckedDetaches(a, h, env.attached);
    StepIsNext(a, b, h, env, m);
    StallVerdict(mid, h, env, m);
    assert G.Stalls(mid.hubs[h].ctl, m) ==> G.StallSafe(mid.hubs[h].ctl, mid.recv);
    AddressKept(mid, b, h, G.Again(m), m);
    if h == 0 {} else {}
    assert G.Settled(Control(a), h);
    G.NextKeepsInv(Control(a), G.Fsm(h, env.attached, m));
  }

  /** Every handled call leaves the bus addressed to the device of its owner. */
  lemma AddressKept(a: Vars, b: Vars, h: nat, again: bool, m: G.Move)
    requires Handled(a, b, h, again, m) && G.Inv(Control(a)) && Addressed(a) && !G.Transient(a.hubs[1 - h].ctl)
    requires G.Stalls(a.hubs[h].ctl, m) ==> G.StallSafe(a.hubs[h].ctl, a.recv)
    ensures Addressed(b)
  {
    hide G.Moves, G.Good, G.After, G.AddressPhase, G.StallSafe;
    assert Assigned(b, h) by { AssignedKept(a, b, h, again, m); }
    assert Assigned(b, 1 - h);
    G.TakersOfTheBus(a.hubs[h].ctl, a.lock == G.FREE, a.recv, m);
    G.MoveKeepsGood(a.hubs[h].ctl, a.lock == h, a.lock == G.FREE, a.recv, m);
    if h == 0 {} else {}
  }

  lemma AssignedKept(a: Vars, b: Vars, h: nat, again: bool, m: G.Move)
    requires Handled(a, b, h, again, m) && G.Inv(Control(a)) && Addressed(a)
    ensures Assigned(b, h)
  {
    hide G.Moves, G.Good, G.After, G.AddressPhase;
    if b.hubs[h].ctl.st == G.SET_ADDRESS_DONE {
      G.ToldAddress(a.hubs[h].ctl, a.lock == h, a.lock == G.FREE, a.recv, m);
      if h == 0 {} else {}
    }
  }

  /** What one call of `fsm` keeps. */
  lemma StepKeeps(a: Vars, b: Vars, h: nat, env: Env, m: G.Move)
    requires FsmStep(a, b, h, env, m)
    ensures G.Live(Control(a)) ==> G.Live(Control(b))
    ensures Sane(a) && !G.Transient(a.hubs[1 - h].ctl) && !Spoils(a, h, env) ==>
      && Sane(b) && !G.Transient(b.hubs[1 - h].ctl)
      && G.Enabled(Control(a), G.Fsm(h, env.attached, m)) && G.Guarded(Control(a), G.Fsm(h, env.attached, m))
    ensures Sane(a) && a.lock != h && b.lock != h ==>
      && b.recv == a.recv && b.e == a.e && b.reqs == a.reqs && b.strings == a.strings && b.devAd == a.devAd
      && b.epPid == if G.Detaches(a.hubs[h].ctl, env.attached) then 0 else a.epPid
  {
    hide G.Live, G.Enabled, G.Next, G.Guarded, G.Transient, G.Detaches, G.Inv, Addressed, Dispatched, Checked;
    StepIsNext(a, b, h, env, m);
    if G.Live(Control(a)) {
      G.NextKeepsLive(Control(a), G.Fsm(h, env.attached, m));
    }
    if Sane(a) && !G.Transient(a.hubs[1 - h].ctl) && !Spoils(a, h, env) {
      StepKeepsSane(a, b, h, env, m);
    }
    if Sane(a) && a.lock != h && b.lock != h {
      NonOwnerKeepsShared(a, b, h, env, m);
    }
  }

  // ----- What a hub does without the bus --------------------------------------------

  /** The states of a hub that does not own the bus. */
  predicate OffBus(b: G.HubCtl) {
    || b.st <= G.SET_ADDRESS_DONE || (b.st == G.GET_DEVICE_DESC && b.initial) || (b.st == G.GET_DEVICE_DESC_RECV && b.initial)
    || b.st == G.GET_HID_REPORT_DESC_RECV || (G.DONE <= b.st <= G.HID_GET_REPORT && b.st != G.HALT) || G.Delay(b.st)
  }

  lemma NonOwnerIsOffBus(b: G.HubCtl, recv: G.St)
    requires G.Good(b, false, recv)
    ensures OffBus(b)
  {
  }

  /** They leave the shared data alone, and stay off the engine, unless the hub
      takes the bus. */
  lemma OffBusEffect(d: Data, b: G.HubCtl, free: bool, recv: G.St, h: nat, env: Env, m: G.Move)
    requires h < 2 && OffBus(b) && G.Moves(b, free, recv, m) && m.op != G.Take
    ensures !m.act.Send?
    ensures var after := Effect(d, b, recv, h, env, m);
      after.e == d.e && after.reqs == d.reqs && after.strings == d.strings && after.epPid == d.epPid
  {
    hide DescriptorEffect, StringAsked, AddressSent, DeviceAsked, HubRead, PortPowered, ProtocolAsked, G.DescriptorMove;
  }

  lemma OffBusKeepsShared(a: Vars, b: Vars, h: nat, env: Env, m: G.Move)
    requires FsmStep(a, b, h, env, m) && G.Good(a.hubs[h].ctl, false, a.recv) && a.lock != h && b.lock != h
    ensures b.recv == a.recv && b.e == a.e && b.reqs == a.reqs && b.strings == a.strings && b.devAd == a.devAd
    ensures b.epPid == if G.Detaches(a.hubs[h].ctl, env.attached) then 0 else a.epPid
  {
    hide Effect, Choice, G.Moves, G.After, G.Good;
    var mid := Checked(a, h, env.attached);
    if G.Detaches(a.hubs[h].ctl, env.attached) {
      G.DetachKeepsGood(a.hubs[h].ctl, false, a.recv);
    }
    NonOwnerIsOffBus(mid.hubs[h].ctl, mid.recv);
    OffBusEffect(DataOf(mid, h), mid.hubs[h].ctl, mid.lock == G.FREE, mid.recv, h, env, m);
  }

  /** A call of a hub that owns the bus neither before nor after. */
  lemma NonOwnerKeepsShared(a: Vars, b: Vars, h: nat, env: Env, m: G.Move)
    requires FsmStep(a, b, h, env, m) && G.Inv(Control(a)) && a.lock != h && b.lock != h
    ensures b.recv == a.recv && b.e == a.e && b.reqs == a.reqs && b.strings == a.strings && b.devAd == a.devAd
    ensures b.epPid == if G.Detaches(a.hubs[h].ctl, env.attached) then 0 else a.epPid
  {
    hide Dispatched, G.Good, Checked;
    assert G.Good(a.hubs[h].ctl, false, a.recv) by {
      if h == 0 {} else {}
    }
    OffBusKeepsShared(a, b, h, env, m);
  }

  /** Only a STALL gives the bus back in the middle of a transfer. */
  lemma StallVerdict(v: Vars, h: nat, env: Env, m: G.Move)
    requires Shaped(v) && h < 2 && Choice(DataOf(v, h), v.hubs[h].ctl, v.recv, env, m)
    ensures G.Stalls(v.hubs[h].ctl, m) ==> env.completed && env.answer.token == TOKEN_STALL
  {
    hide OpeningChoice, DescriptorChoice, ClassChoice;
  }

  /** One call of the poll loop: it descends or it settles. */
  lemma PollStep(c: G.Ctl, h: nat, attached: bool, m: G.Move)
    requires G.Live(c) && h < 2 && G.Enabled(c, G.Fsm(h, attached, m))
    ensures var b := G.Next(c, G.Fsm(h, attached, m)).hubs[h];
      if G.Again(m) then G.Rank(b.st) < G.Rank(c.hubs[h].st) <= 2 else !G.Transient(b)
  {
    hide G.Moves, G.Ends, G.Transient, G.Rank;
    if G.Again(m) {
      G.CallDescends(c, h, attached, m);
    } else {
      var d := G.Detach(c, h, attached);
      G.LoopEndSettles(d.hubs[h], d.lock == G.FREE, d.recv, m);
    }
  }

  function EndpointOf(ep: byte): Endpoint {
    ep % ENDPOINTS
  }
}
