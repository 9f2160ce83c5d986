/** The two-port scheduler of src/usb/usb_host.c as a graph: per hub the state of
    its `fsm`, and between the hubs the one transaction lock.  What a handler
    computes from descriptors only decides which of its moves it takes. */
module UsbGraph {

  /** The states, numbered as the source's enum numbers them. */
  type St = n: nat | n <= 41

  const IDLE: St := 0
  const CONNECT: St := 1
  const RESET: St := 2
  const ENABLE: St := 3
  const SET_ADDRESS: St := 4
  const SET_ADDRESS_DONE: St := 5
  const GET_DEVICE_DESC: St := 6
  const GET_DEVICE_DESC_RECV: St := 7
  const GET_STRING_DESC: St := 8
  const GET_STRING_DESC_RECV: St := 9
  const GET_CONFIGURATION_DESC: St := 10
  const GET_CONFIGURATION_DESC_RECV: St := 11
  const SET_CONFIGURATION: St := 14
  const SET_CONFIGURATION_DONE: St := 15
  const SET_FEATURE: St := 16
  const EXTRA_SETUP: St := 17
  const GET_HID_REPORT_DESC: St := 18
  const GET_HID_REPORT_DESC_RECV: St := 19
  const HID_SET_PROTOCOL: St := 20
  const HID_SET_PROTOCOL_DONE: St := 21
  const GET_HUB_DESC: St := 22
  const GET_HUB_DESC_RECV: St := 23
  const SET_PORT_POWER_FEATURE: St := 24
  const SET_PORT_POWER_FEATURE_DONE: St := 25
  const CLEAR_PORT_CONNECTION_FEATURE: St := 26
  const CLEAR_PORT_CONNECTION_FEATURE_DONE: St := 27
  const DONE: St := 28
  const READY: St := 29
  const HALT: St := 30
  const IN_RECV: St := 31
  const OUT_DONE: St := 32
  const HID_GET_REPORT: St := 33
  const DELAY_US: St := 34
  const DELAY_MS: St := 35
  const TRANSACTION: St := 36
  const TRANSACTION_IN: St := 37
  const TRANSACTION_OUT: St := 38
  const TRANSACTION_ACK: St := 39
  const TRANSACTION_CONT: St := 40
  const TRANSACTION_RETRY: St := 41

  /** `state`, `delay_next_state`, `initial_check` and `resetting` of one hub. */
  datatype HubCtl = HubCtl(st: St, next: St, initial: bool, resetting: bool)

  const FREE := -1

  /** `recv` is `transaction_recv_state`. */
  datatype Ctl = Ctl(hubs: seq<HubCtl>, lock: int, recv: St)

  predicate Wf(c: Ctl) {
    |c.hubs| == 2 && FREE <= c.lock < 2
  }

  // ----- Moves --------------------------------------------------------------

  datatype LockOp = Keep | Take | Drop | Retake
  datatype Act = Stay | Goto(to: St) | Wait(unit: St, to: St) | Send(recv: St) | Stop

  /** The lock operation, what becomes of the state, and the new flags. */
  datatype Move = Move(op: LockOp, act: Act, initial: bool, resetting: bool)

  predicate Delay(s: St) {
    s == DELAY_US || s == DELAY_MS
  }

  predicate Engine(s: St) {
    || s == TRANSACTION || s == TRANSACTION_IN || s == TRANSACTION_OUT
    || s == TRANSACTION_ACK || s == TRANSACTION_CONT || s == TRANSACTION_RETRY
  }

  /** States in which the handler does nothing but give the bus back. */
  predicate Releasing(s: St) {
    (s == DONE || s == IN_RECV || s == OUT_DONE || s == HID_GET_REPORT || s == GET_HID_REPORT_DESC_RECV)
  }

  /** States a hub is only in while its poll loop goes on, and from which it gives
      the bus back, or takes it again, in the next step of that loop. */
  predicate Transient(b: HubCtl) {
    Releasing(b.st) || b.st == SET_ADDRESS_DONE || (b.st == GET_DEVICE_DESC_RECV && b.initial)
  }

  function Us(to: St): Act { Wait(DELAY_US, to) }
  function Ms(to: St): Act { Wait(DELAY_MS, to) }

  function Plain(h: HubCtl, act: Act): Move { Move(Keep, act, h.initial, h.resetting) }
  function Release(h: HubCtl, act: Act): Move { Move(Drop, act, h.initial, h.resetting) }

  /** From the port reset to the first request for a string. */
  predicate OpeningMove(h: HubCtl, free: bool, m: Move) {
    var s := h.st;
    if s == IDLE then m == Plain(h, Stay) || m == Plain(h, Ms(CONNECT))
    else if s == CONNECT then m == Move(Keep, Ms(RESET), true, true)
    else if s == RESET then m == Plain(h, Us(ENABLE))
    else if s == ENABLE then
      || m == Plain(h, Stay)
      || m == Move(Keep, Ms(if h.initial then GET_DEVICE_DESC else SET_ADDRESS), h.initial, false)
    else if s == SET_ADDRESS then
      m == (if free then Move(Take, Send(SET_ADDRESS_DONE), h.initial, h.resetting) else Plain(h, Stay))
    else if s == SET_ADDRESS_DONE then m == Move(Retake, Ms(GET_DEVICE_DESC), h.initial, h.resetting)
    else if s == GET_DEVICE_DESC then
      m == (if !h.initial then Plain(h, Send(GET_DEVICE_DESC_RECV))
            else if free then Move(Take, Send(GET_DEVICE_DESC_RECV), h.initial, h.resetting)
            else Plain(h, Stay))
    else if s == GET_DEVICE_DESC_RECV then
      m == (if h.initial then Move(Drop, Ms(RESET), false, true) else Plain(h, Us(GET_STRING_DESC)))
    else if s == GET_STRING_DESC then
      || m == Plain(h, Goto(GET_CONFIGURATION_DESC))
      || m == Plain(h, Send(GET_STRING_DESC_RECV))
    else m == Plain(h, Stop)
  }

  /** Strings, configuration and the choice of what follows. */
  predicate DescriptorMove(h: HubCtl, m: Move) {
    var s := h.st;
    if s == GET_STRING_DESC_RECV then
      || m == Plain(h, Us(GET_STRING_DESC))
      || m == Plain(h, Us(GET_CONFIGURATION_DESC))
    else if s == GET_CONFIGURATION_DESC then m == Plain(h, Send(GET_CONFIGURATION_DESC_RECV))
    else if s == GET_CONFIGURATION_DESC_RECV then
      || m == Plain(h, Us(GET_CONFIGURATION_DESC))
      || m == Plain(h, Ms(SET_CONFIGURATION))
    else if s == SET_CONFIGURATION then m == Plain(h, Send(SET_CONFIGURATION_DONE))
    else if s == SET_CONFIGURATION_DONE then m == Plain(h, Us(SET_FEATURE))
    else if s == SET_FEATURE then
      || m == Plain(h, Goto(EXTRA_SETUP))
      || m == Plain(h, Goto(DONE))
      || m == Plain(h, Send(EXTRA_SETUP))
      || m == Plain(h, Send(DONE))
    else if s == EXTRA_SETUP then
      || m == Plain(h, Us(GET_HUB_DESC))
      || m == Plain(h, Us(HID_SET_PROTOCOL))
      || m == Plain(h, Us(GET_HID_REPORT_DESC))
    else if s == GET_HID_REPORT_DESC then m == Plain(h, Send(GET_HID_REPORT_DESC_RECV))
    else m == Plain(h, Stop)
  }

  /** HID and hub set-up, and the states between transfers. */
  predicate ClassMove(h: HubCtl, m: Move) {
    var s := h.st;
    if s == GET_HID_REPORT_DESC_RECV then m == Release(h, Ms(READY))
    else if s == HID_SET_PROTOCOL then m == Plain(h, Send(HID_SET_PROTOCOL_DONE))
    else if s == HID_SET_PROTOCOL_DONE then m == Plain(h, Ms(DONE)) || m == Plain(h, Ms(GET_HID_REPORT_DESC))
    else if s == GET_HUB_DESC then m == Plain(h, Send(GET_HUB_DESC_RECV))
    else if s == GET_HUB_DESC_RECV then m == Plain(h, Us(GET_HUB_DESC)) || m == Plain(h, Ms(SET_PORT_POWER_FEATURE))
    else if s == SET_PORT_POWER_FEATURE then
      || m == Plain(h, Ms(CLEAR_PORT_CONNECTION_FEATURE))
      || m == Plain(h, Send(SET_PORT_POWER_FEATURE_DONE))
    else if s == SET_PORT_POWER_FEATURE_DONE then m == Plain(h, Ms(SET_PORT_POWER_FEATURE))
    else if s == CLEAR_PORT_CONNECTION_FEATURE then
      || m == Plain(h, Goto(DONE))
      || m == Plain(h, Send(CLEAR_PORT_CONNECTION_FEATURE_DONE))
    else if s == CLEAR_PORT_CONNECTION_FEATURE_DONE then m == Plain(h, Ms(CLEAR_PORT_CONNECTION_FEATURE))
    else if s == DONE then m == Release(h, Ms(READY))
    else if s == READY then m == Plain(h, Stay)
    else if s == HALT then m == Plain(h, Stay)
    else if s == IN_RECV then m == Release(h, Us(READY))
    else if s == OUT_DONE then m == Release(h, Us(READY))
    else if s == HID_GET_REPORT then m == Release(h, Us(READY))
    else m == Plain(h, Stop)
  }

  /** Delays and the running transfer; `recv` is the state it reports to. */
  predicate TransferMove(h: HubCtl, recv: St, m: Move) {
    var s := h.st;
    if s == DELAY_US then m == Plain(h, Stay) || m == Plain(h, Goto(h.next))
    else if s == DELAY_MS then m == Plain(h, Stay) || m == Plain(h, Goto(h.next))
    else if s == TRANSACTION then
      || m == Plain(h, Stay)
      || m == Plain(h, Us(TRANSACTION_CONT))
      || m == Plain(h, Us(TRANSACTION_IN))
      || m == Plain(h, Us(TRANSACTION_OUT))
      || m == Plain(h, Us(TRANSACTION_RETRY))
      || m == Plain(h, Goto(recv))
      || m == Release(h, Goto(recv))
      || m == Plain(h, Stop)
    else if s == TRANSACTION_IN then m == Plain(h, Send(recv))
    else if s == TRANSACTION_OUT then m == Plain(h, Send(recv))
    else if s == TRANSACTION_ACK then m == Plain(h, Send(recv))
    else if s == TRANSACTION_CONT then m == Plain(h, Send(recv))
    else if s == TRANSACTION_RETRY then m == Plain(h, Send(recv))
    else m == Plain(h, Stop)
  }

  /** The moves of the handler for the hub's state: `free` tells whether the bus
      is unlocked and `recv` is the state the running transfer reports to.  A
      number that is no state at all makes the hub halt. */
  predicate Moves(h: HubCtl, free: bool, recv: St, m: Move) {
    if h.st <= GET_STRING_DESC then OpeningMove(h, free, m)
    else if h.st <= GET_HID_REPORT_DESC then DescriptorMove(h, m)
    else if h.st <= HID_GET_REPORT then ClassMove(h, m)
    else TransferMove(h, recv, m)
  }

  function Lock(lock: int, h: nat, op: LockOp): int {
    match op
    case Keep => lock
    case Take => h
    case Drop => if lock == h then FREE else lock
    case Retake => if lock == h || lock == FREE then h else lock
  }

  /** The hub after its move. */
  function After(b: HubCtl, m: Move): HubCtl {
    match m.act
    case Stay => HubCtl(b.st, b.next, m.initial, m.resetting)
    case Goto(s) => HubCtl(s, b.next, m.initial, m.resetting)
    case Wait(unit, s) => HubCtl(unit, s, m.initial, m.resetting)
    case Send(_) => HubCtl(TRANSACTION, b.next, m.initial, m.resetting)
    case Stop => HubCtl(HALT, b.next, m.initial, m.resetting)
  }

  function Apply(c: Ctl, h: nat, m: Move): Ctl
    requires Wf(c) && h < 2
  {
    Ctl(c.hubs[h := After(c.hubs[h], m)], Lock(c.lock, h, m.op), if m.act.Send? then m.act.recv else c.recv)
  }

  /** The check at the head of `fsm`: a hub whose device is gone goes idle and
      gives the bus back, unless it is resetting its port. */
  predicate Detaches(b: HubCtl, attached: bool) {
    b.st != IDLE && !b.resetting && !attached
  }

  function Detach(c: Ctl, h: nat, attached: bool): Ctl
    requires Wf(c) && h < 2
  {
    if Detaches(c.hubs[h], attached) then
      Ctl(c.hubs[h := c.hubs[h].(st := IDLE)], Lock(c.lock, h, Drop), c.recv)
    else c
  }

  predicate Allowed(c: Ctl, h: nat, m: Move)
    requires Wf(c) && h < 2
  {
    Moves(c.hubs[h], c.lock == FREE, c.recv, m)
  }

  /** `fsm` returns true exactly when the state changed at once. */
  predicate Again(m: Move) {
    m.act.Goto?
  }

  /** A STALL: the transfer reports at once and the bus is given back. */
  predicate Stalls(b: HubCtl, m: Move) {
    b.st == TRANSACTION && m.op == Drop
  }

  /** The transfers a STALL does no harm to: those after which the bus is given
      back, or taken again, at once. */
  predicate StallSafe(b: HubCtl, recv: St) {
    Releasing(recv) || recv == SET_ADDRESS_DONE || (recv == GET_DEVICE_DESC_RECV && b.initial)
  }

  // ----- The invariant ------------------------------------------------------

  /** The state a hub is logically in: delays stand for what they wait for and a
      running transfer for the state it reports to. */
  function Logical(b: HubCtl, recv: St): St {
    var s := if Delay(b.st) then b.next else b.st;
    if Engine(s) then recv else s
  }

  predicate InEngine(b: HubCtl) {
    Engine(if Delay(b.st) then b.next else b.st)
  }

  /** The bus-using states: all but those before the first transfer of an
      enumeration pass and READY. */
  predicate UsesBus(b: HubCtl, recv: St) {
    var s := Logical(b, recv);
    InEngine(b) ||
    !(s == IDLE || s == CONNECT || s == RESET || s == ENABLE || s == SET_ADDRESS || s == READY
      || (s == GET_DEVICE_DESC && b.initial))
  }

  /** States that a transfer reports to. */
  predicate Reports(s: St) {
    s == SET_ADDRESS_DONE || s == GET_DEVICE_DESC_RECV || s == GET_STRING_DESC_RECV
    || s == GET_CONFIGURATION_DESC_RECV || s == SET_CONFIGURATION_DONE || s == EXTRA_SETUP
    || s == GET_HID_REPORT_DESC_RECV || s == HID_SET_PROTOCOL_DONE || s == GET_HUB_DESC_RECV
    || s == SET_PORT_POWER_FEATURE_DONE || s == CLEAR_PORT_CONNECTION_FEATURE_DONE
    || s == DONE || s == IN_RECV || s == OUT_DONE || s == HID_GET_REPORT
  }

  /** What holds of a hub that owns the bus or not, as `owns` tells. */
  predicate Good(b: HubCtl, owns: bool, recv: St) {
    var s := Logical(b, recv);
    && (Delay(b.st) ==> !Delay(b.next) && b.next != TRANSACTION)
    && (InEngine(b) ==> Reports(recv))
    && (b.resetting ==> s == RESET || s == ENABLE)
    && (b.initial ==> s == IDLE || s == CONNECT || s == RESET || s == ENABLE || s == GET_DEVICE_DESC
                      || s == GET_DEVICE_DESC_RECV || s == HALT)
    && (owns ==> UsesBus(b, recv))
    && (UsesBus(b, recv) && !Transient(b) ==> owns)
  }

  /** A hub that has lost the bus to a STALL of SET_ADDRESS can take it again. */
  predicate Retakes(c: Ctl, h: nat)
    requires Wf(c) && h < 2
  {
    c.hubs[h].st == SET_ADDRESS_DONE ==> c.lock == h || c.lock == FREE
  }

  predicate Inv(c: Ctl) {
    Wf(c) && Good(c.hubs[0], c.lock == 0, c.recv) && Good(c.hubs[1], c.lock == 1, c.recv)
    && Retakes(c, 0) && Retakes(c, 1)
  }

  const BOOT := HubCtl(IDLE, IDLE, false, false)

  // ----- One hub ------------------------------------------------------------

  function Owns(owns: bool, free: bool, op: LockOp): bool {
    match op
    case Keep => owns
    case Take => true
    case Drop => false
    case Retake => owns || free
  }

  /** How far the device of a hub is with its address: it is being told one, it
      is asked under the default address on the first pass, it has its own, or
      the hub has stopped. */
  datatype Addressing = Assigning | Probing | Addressed | Stopped

  function AddressPhase(b: HubCtl, recv: St): Addressing {
    var s := Logical(b, recv);
    if s == SET_ADDRESS_DONE then Assigning
    else if s == GET_DEVICE_DESC_RECV && b.initial then Probing
    else if s == HALT then Stopped
    else Addressed
  }

  /** The phase changes only when the bus is taken, and once the address is told. */
  predicate PhaseKept(b: HubCtl, owns: bool, recv: St, m: Move) {
    var after := AddressPhase(After(b, m), if m.act.Send? then m.act.recv else recv);
    && (owns && m.op == Keep ==> after == AddressPhase(b, recv) || after == Stopped)
    && ((owns && m.op != Drop) || m.op == Take ==> m.act != Ms(RESET))
    && (m.op == Retake ==> AddressPhase(b, recv) == Assigning && after == Addressed)
    && (m.op == Take ==> after == if b.st == SET_ADDRESS then Assigning else if b.st == GET_DEVICE_DESC then Probing else Addressed)
  }

  predicate Kept(b: HubCtl, owns: bool, free: bool, recv: St, m: Move) {
    && Good(After(b, m), Owns(owns, free, m.op), if m.act.Send? then m.act.recv else recv)
    && (m.act.Send? ==> Owns(owns, free, m.op))
    && (m.op == Take ==> free)
    && (After(b, m).st == SET_ADDRESS_DONE ==> owns)
    && PhaseKept(b, owns, recv, m)
  }

  lemma OpeningMoves(b: HubCtl, owns: bool, free: bool, recv: St, m: Move)
    requires Good(b, owns, recv) && Moves(b, free, recv, m) && b.st <= GET_STRING_DESC
    requires b.st == SET_ADDRESS_DONE ==> owns || free
    ensures Kept(b, owns, free, recv, m)
  {
    hide DescriptorMove, ClassMove, TransferMove;
  }

  lemma StringMoves(b: HubCtl, owns: bool, free: bool, recv: St, m: Move)
    requires Good(b, owns, recv) && Moves(b, free, recv, m) && GET_STRING_DESC < b.st <= GET_CONFIGURATION_DESC_RECV
    ensures Kept(b, owns, free, recv, m)
  {
    hide OpeningMove, ClassMove, TransferMove;
  }

  lemma ConfigureMoves(b: HubCtl, owns: bool, free: bool, recv: St, m: Move)
    requires Good(b, owns, recv) && Moves(b, free, recv, m) && GET_CONFIGURATION_DESC_RECV < b.st <= SET_CONFIGURATION_DONE
    ensures Kept(b, owns, free, recv, m)
  {
    hide OpeningMove, ClassMove, TransferMove;
  }

  lemma FeatureMoves(b: HubCtl, owns: bool, free: bool, recv: St, m: Move)
    requires Good(b, owns, recv) && Moves(b, free, recv, m) && b.st == SET_FEATURE
    ensures Kept(b, owns, free, recv, m)
  {
    hide OpeningMove, ClassMove, TransferMove;
  }

  lemma ExtraMoves(b: HubCtl, owns: bool, free: bool, recv: St, m: Move)
    requires Good(b, owns, recv) && Moves(b, free, recv, m) && EXTRA_SETUP <= b.st <= GET_HID_REPORT_DESC
    ensures Kept(b, owns, free, recv, m)
  {
    hide OpeningMove, ClassMove, TransferMove;
  }

  lemma HidMoves(b: HubCtl, owns: bool, free: bool, recv: St, m: Move)
    requires Good(b, owns, recv) && Moves(b, free, recv, m) && GET_HID_REPORT_DESC < b.st <= HID_SET_PROTOCOL_DONE
    ensures Kept(b, owns, free, recv, m)
  {
    hide OpeningMove, DescriptorMove, TransferMove;
  }

  lemma HubMoves(b: HubCtl, owns: bool, free: bool, recv: St, m: Move)
    requires Good(b, owns, recv) && Moves(b, free, recv, m) && HID_SET_PROTOCOL_DONE < b.st <= SET_PORT_POWER_FEATURE
    ensures Kept(b, owns, free, recv, m)
  {
    hide OpeningMove, DescriptorMove, TransferMove;
  }

  lemma ClosingMoves(b: HubCtl, owns: bool, free: bool, recv: St, m: Move)
    requires Good(b, owns, recv) && Moves(b, free, recv, m) && SET_PORT_POWER_FEATURE < b.st <= HID_GET_REPORT
    ensures Kept(b, owns, free, recv, m)
  {
    hide OpeningMove, DescriptorMove, TransferMove;
  }

  lemma DelayMoves(b: HubCtl, owns: bool, free: bool, recv: St, m: Move)
    requires Good(b, owns, recv) && Moves(b, free, recv, m) && Delay(b.st)
    ensures Kept(b, owns, free, recv, m)
  {
    hide OpeningMove, DescriptorMove, ClassMove;
  }

  lemma TransactionReports(b: HubCtl, owns: bool, free: bool, recv: St, m: Move)
    requires Good(b, owns, recv) && Moves(b, free, recv, m) && b.st == TRANSACTION && m.act.Goto?
    requires Stalls(b, m) ==> StallSafe(b, recv)
    ensures Kept(b, owns, free, recv, m)
  {
    hide OpeningMove, DescriptorMove, ClassMove;
  }

  lemma TransactionGoesOn(b: HubCtl, owns: bool, free: bool, recv: St, m: Move)
    requires Good(b, owns, recv) && Moves(b, free, recv, m) && b.st == TRANSACTION && !m.act.Goto?
    ensures Kept(b, owns, free, recv, m)
  {
    hide OpeningMove, DescriptorMove, ClassMove;
  }

  lemma StageMoves(b: HubCtl, owns: bool, free: bool, recv: St, m: Move)
    requires Good(b, owns, recv) && Moves(b, free, recv, m) && TRANSACTION < b.st
    ensures Kept(b, owns, free, recv, m)
  {
    hide OpeningMove, DescriptorMove, ClassMove;
  }

  lemma MoveKeepsGood(b: HubCtl, owns: bool, free: bool, recv: St, m: Move)
    requires Good(b, owns, recv) && Moves(b, free, recv, m)
    requires b.st == SET_ADDRESS_DONE ==> owns || free
    requires Stalls(b, m) ==> StallSafe(b, recv)
    ensures Kept(b, owns, free, recv, m)
  {
    hide Good, Moves, Kept, StallSafe;
    if b.st <= GET_STRING_DESC {
      OpeningMoves(b, owns, free, recv, m);
    } else if b.st <= GET_CONFIGURATION_DESC_RECV {
      StringMoves(b, owns, free, recv, m);
    } else if b.st <= SET_CONFIGURATION_DONE {
      ConfigureMoves(b, owns, free, recv, m);
    } else if b.st == SET_FEATURE {
      FeatureMoves(b, owns, free, recv, m);
    } else if b.st <= GET_HID_REPORT_DESC {
      ExtraMoves(b, owns, free, recv, m);
    } else if b.st <= HID_SET_PROTOCOL_DONE {
      HidMoves(b, owns, free, recv, m);
    } else if b.st <= SET_PORT_POWER_FEATURE {
      HubMoves(b, owns, free, recv, m);
    } else if b.st <= HID_GET_REPORT {
      ClosingMoves(b, owns, free, recv, m);
    } else if b.st < TRANSACTION {
      DelayMoves(b, owns, free, recv, m);
    } else if b.st == TRANSACTION {
      if m.act.Goto? {
        TransactionReports(b, owns, free, recv, m);
      } else {
        TransactionGoesOn(b, owns, free, recv, m);
      }
    } else {
      StageMoves(b, owns, free, recv, m);
    }
  }

  /** Only these handlers take the bus, or take it again. */
  lemma TakersOfTheBus(b: HubCtl, free: bool, recv: St, m: Move)
    requires Moves(b, free, recv, m)
    ensures m.op == Take ==> free && (b.st == SET_ADDRESS || b.st == GET_DEVICE_DESC)
    ensures m.op == Retake ==> b.st == SET_ADDRESS_DONE && m.act == Ms(GET_DEVICE_DESC)
  {
  }

  /** A hub comes to SET_ADDRESS_DONE only as the owner, out of the transfer that
      tells its device the address. */
  lemma ToldAddress(b: HubCtl, owns: bool, free: bool, recv: St, m: Move)
    requires Good(b, owns, recv) && Moves(b, free, recv, m) && After(b, m).st == SET_ADDRESS_DONE
    ensures owns && AddressPhase(b, recv) == Assigning && m.act.Goto? && m.op != Take && m.op != Retake
  {
  }

  lemma DetachKeepsGood(b: HubCtl, owns: bool, recv: St)
    requires Good(b, owns, recv) && !b.resetting
    ensures Good(b.(st := IDLE), false, recv)
  {
  }

  /** Off the bus, not resetting and past the first pass. */
  predicate SwitchSafe(b: HubCtl, owns: bool) {
    !owns && !b.resetting && !b.initial
  }

  /** `usb_host_hub_switch` restarts at SET_ADDRESS whatever the state: safe
      exactly for a hub that is off the bus and past its first pass. */
  lemma HubSwitchIsSafeIff(b: HubCtl, owns: bool, recv: St)
    requires Good(b, owns, recv)
    ensures Good(b.(st := SET_ADDRESS), owns, recv) <==> SwitchSafe(b, owns)
  {
  }

  // ----- Both hubs ------------------------------------------------------------

  /** A call of `fsm`, of a transfer entry point, or of `usb_host_hub_switch`. */
  datatype Event =
    | Fsm(h: nat, attached: bool, m: Move)
    | Transfer(h: nat, recv: St)
    | HubSwitch(h: nat)

  predicate Enabled(c: Ctl, e: Event)
    requires Wf(c)
  {
    e.h < 2 &&
    match e
    case Fsm(h, attached, m) =>
      Allowed(Detach(c, h, attached), h, m)
    case Transfer(h, recv) =>
      c.hubs[h].st == READY && c.lock == FREE
      && (recv == IN_RECV || recv == DONE || recv == OUT_DONE || recv == HID_GET_REPORT)
    case HubSwitch(_) => true
  }

  /** A STALL or a hub switch comes only where it does no harm. */
  predicate Guarded(c: Ctl, e: Event)
    requires Wf(c) && Enabled(c, e)
  {
    match e
    case Fsm(h, attached, m) =>
      var d := Detach(c, h, attached);
      Stalls(d.hubs[h], m) ==> StallSafe(d.hubs[h], d.recv)
    case Transfer(_, _) => true
    case HubSwitch(h) => SwitchSafe(c.hubs[h], c.lock == h)
  }

  function Next(c: Ctl, e: Event): Ctl
    requires Wf(c) && Enabled(c, e)
  {
    match e
    case Fsm(h, attached, m) => Apply(Detach(c, h, attached), h, m)
    case Transfer(h, recv) => Apply(c, h, Move(Take, Send(recv), c.hubs[h].initial, c.hubs[h].resetting))
    case HubSwitch(h) => c.(hubs := c.hubs[h := c.hubs[h].(st := SET_ADDRESS)])
  }

  /** No hub but the one whose poll loop goes on is in a transient state. */
  predicate Settled(c: Ctl, going: int)
    requires Wf(c)
  {
    forall h :: 0 <= h < 2 && h != going ==> !Transient(c.hubs[h])
  }

  /** The hub that moves in an event; the transfer entry points and the switch are
      called between poll loops. */
  function Mover(e: Event): int {
    if e.Fsm? then e.h else FREE
  }

  /** A hub that does not move keeps its invariant while the other one sends. */
  lemma OtherKeepsGood(b: HubCtl, recv: St, recv': St)
    requires Good(b, false, recv)
    ensures Good(b, false, recv')
  {
  }

  lemma ApplyKeepsInv(c: Ctl, h: nat, m: Move)
    requires Inv(c) && h < 2 && Kept(c.hubs[h], c.lock == h, c.lock == FREE, c.recv, m)
    requires !Transient(c.hubs[1 - h])
    ensures Inv(Apply(c, h, m))
  {
    hide Good, PhaseKept, UsesBus;
    var o := 1 - h;
    var c' := Apply(c, h, m);
    assert c'.hubs[o] == c.hubs[o] && c'.hubs[h] == After(c.hubs[h], m);
    if c.lock != o {
      OtherKeepsGood(c.hubs[o], c.recv, c'.recv);
    }
  }

  lemma DetachKeepsInv(c: Ctl, h: nat, attached: bool)
    requires Inv(c) && h < 2
    ensures Inv(Detach(c, h, attached))
  {
    hide Good;
    if Detaches(c.hubs[h], attached) {
      DetachKeepsGood(c.hubs[h], c.lock == h, c.recv);
    }
  }

  lemma NextKeepsInv(c: Ctl, e: Event)
    requires Inv(c) && Settled(c, Mover(e)) && Enabled(c, e) && Guarded(c, e)
    ensures Inv(Next(c, e))
  {
    match e
    case Fsm(h, attached, m) =>
      hide Good, Moves, Kept, StallSafe;
      DetachKeepsInv(c, h, attached);
      var d := Detach(c, h, attached);
      MoveKeepsGood(d.hubs[h], d.lock == h, d.lock == FREE, d.recv, m);
      ApplyKeepsInv(d, h, m);
    case Transfer(h, recv) =>
      ApplyKeepsInv(c, h, Move(Take, Send(recv), c.hubs[h].initial, c.hubs[h].resetting));
    case HubSwitch(h) =>
  }

  // ----- Runs -----------------------------------------------------------------

  const START := Ctl([BOOT, BOOT], FREE, IDLE)

  /** The hub whose poll loop goes on after an event, or FREE. */
  function Going(e: Event): int {
    if e.Fsm? && Again(e.m) then e.h else FREE
  }

  /** Runs: `going` is the hub whose `while (fsm(hub))` loop is in progress. */
  predicate Legal(c: Ctl, going: int, es: seq<Event>)
    requires Wf(c)
    decreases |es|
  {
    es == [] ||
    (Enabled(c, es[0]) && (going != FREE ==> es[0].Fsm? && es[0].h == going)
     && Wf(Next(c, es[0])) && Legal(Next(c, es[0]), Going(es[0]), es[1..]))
  }

  /** Every STALL and every hub switch of the run is harmless. */
  predicate AllGuarded(c: Ctl, going: int, es: seq<Event>)
    requires Wf(c) && Legal(c, going, es)
    decreases |es|
  {
    es == [] || (Guarded(c, es[0]) && AllGuarded(Next(c, es[0]), Going(es[0]), es[1..]))
  }

  function Exec(c: Ctl, going: int, es: seq<Event>): (Ctl, int)
    requires Wf(c) && Legal(c, going, es)
    decreases |es|
  {
    if es == [] then (c, going) else Exec(Next(c, es[0]), Going(es[0]), es[1..])
  }

  lemma OpeningEndSettles(b: HubCtl, free: bool, recv: St, m: Move)
    requires Moves(b, free, recv, m) && !Again(m) && b.st <= GET_STRING_DESC
    ensures !Transient(After(b, m))
  {
    hide DescriptorMove, ClassMove, TransferMove;
  }

  lemma DescriptorEndSettles(b: HubCtl, free: bool, recv: St, m: Move)
    requires Moves(b, free, recv, m) && !Again(m) && GET_STRING_DESC < b.st <= GET_HID_REPORT_DESC
    ensures !Transient(After(b, m))
  {
    hide OpeningMove, ClassMove, TransferMove;
  }

  lemma ClassEndSettles(b: HubCtl, free: bool, recv: St, m: Move)
    requires Moves(b, free, recv, m) && !Again(m) && GET_HID_REPORT_DESC < b.st <= HID_GET_REPORT
    ensures !Transient(After(b, m))
  {
    hide OpeningMove, DescriptorMove, TransferMove;
  }

  lemma TransferEndSettles(b: HubCtl, free: bool, recv: St, m: Move)
    requires Moves(b, free, recv, m) && !Again(m) && HID_GET_REPORT < b.st
    ensures !Transient(After(b, m))
  {
    hide OpeningMove, DescriptorMove, ClassMove;
  }

  /** The poll loop of a hub never stops in a transient state. */
  lemma LoopEndSettles(b: HubCtl, free: bool, recv: St, m: Move)
    requires Moves(b, free, recv, m) && !Again(m)
    ensures !Transient(After(b, m))
  {
    hide Moves, Transient;
    if b.st <= GET_STRING_DESC {
      OpeningEndSettles(b, free, recv, m);
    } else if b.st <= GET_HID_REPORT_DESC {
      DescriptorEndSettles(b, free, recv, m);
    } else if b.st <= HID_GET_REPORT {
      ClassEndSettles(b, free, recv, m);
    } else {
      TransferEndSettles(b, free, recv, m);
    }
  }

  lemma NextSettles(c: Ctl, going: int, e: Event)
    requires Wf(c) && Settled(c, going) && Enabled(c, e) && (going != FREE ==> e.Fsm? && e.h == going)
    ensures Wf(Next(c, e)) && Settled(Next(c, e), Going(e))
  {
    if e.Fsm? {
      hide Moves;
      var d := Detach(c, e.h, e.attached);
      if !Again(e.m) {
        LoopEndSettles(d.hubs[e.h], d.lock == FREE, d.recv, e.m);
      }
    }
  }

  lemma {:induction false} RunKeepsInv(c: Ctl, going: int, es: seq<Event>)
    requires Inv(c) && Settled(c, going) && Legal(c, going, es) && AllGuarded(c, going, es)
    ensures var (end, last) := Exec(c, going, es); Inv(end) && Settled(end, last)
    decreases |es|
  {
    if es != [] {
      hide Good, Moves, Enabled, Next, Guarded, Transient;
      NextKeepsInv(c, es[0]);
      NextSettles(c, going, es[0]);
      RunKeepsInv(Next(c, es[0]), Going(es[0]), es[1..]);
    }
  }

  /** The lock names a hub exactly when that hub uses the bus. */
  predicate Exclusive(c: Ctl)
    requires Wf(c)
  {
    forall h :: 0 <= h < 2 ==> (c.lock == h <==> UsesBus(c.hubs[h], c.recv))
  }

  lemma GoodOwner(b: HubCtl, owns: bool, recv: St)
    requires Good(b, owns, recv)
    ensures (!Transient(b) ==> (owns <==> UsesBus(b, recv))) && (InEngine(b) ==> owns)
  {
  }

  /** Bus exclusion over every run, through retries, detaches at any moment and
      repeated enumeration: whenever no poll loop is in progress the lock names a
      hub exactly when that hub uses the bus, so the two never use it together;
      and even inside a loop only the owner has a transfer in flight. */
  lemma BusExclusion(es: seq<Event>)
    requires Legal(START, FREE, es) && AllGuarded(START, FREE, es)
    ensures var (c, going) := Exec(START, FREE, es);
      && Wf(c)
      && (going == FREE ==> Exclusive(c))
      && (forall h :: 0 <= h < 2 && InEngine(c.hubs[h]) ==> c.lock == h)
      && !(InEngine(c.hubs[0]) && InEngine(c.hubs[1]))
  {
    RunKeepsInv(START, FREE, es);
    var (c, going) := Exec(START, FREE, es);
    hide Good, UsesBus, Transient, InEngine, Legal, Exec;
    GoodOwner(c.hubs[0], c.lock == 0, c.recv);
    GoodOwner(c.hubs[1], c.lock == 1, c.recv);
  }

  // ----- STALL ------------------------------------------------------------------

  /** After a STALL the hub's loop makes one move more, and ends. */
  lemma StallThenMove(b: HubCtl, recv: St, m: Move, m': Move)
    requires Good(b, true, recv) && Moves(b, false, recv, m) && Stalls(b, m) && Moves(After(b, m), true, recv, m')
    ensures !Again(m') && !m'.act.Send? && m'.op != Take && (m'.op == Retake <==> recv == SET_ADDRESS_DONE)
    ensures UsesBus(After(After(b, m), m'), recv) <==> recv == SET_ADDRESS_DONE || !StallSafe(b, recv)
  {
  }

  /** At the end of the poll loop in which a transfer is stalled, the lock names
      a hub exactly when that hub uses the bus, if and only if the transfer was
      SET_ADDRESS, the first look at a device, or the last before READY. */
  lemma StallIsSafeIff(c: Ctl, h: nat, m: Move, m': Move)
    requires Inv(c) && h < 2 && !Transient(c.hubs[1 - h]) && Allowed(c, h, m) && Stalls(c.hubs[h], m)
    requires Allowed(Apply(c, h, m), h, m')
    ensures !Again(m')
    ensures Exclusive(Apply(Apply(c, h, m), h, m')) <==> StallSafe(c.hubs[h], c.recv)
  {
    hide Moves, After, StallSafe, Good;
    assert Good(c.hubs[h], c.lock == h, c.recv) && Good(c.hubs[1 - h], c.lock == 1 - h, c.recv) by {
      if h == 0 {} else {}
    }
    StalledHub(c.hubs[h], c.hubs[1 - h], c.lock == h, c.lock == 1 - h, c.recv);
    StallReports(c.hubs[h], c.lock == FREE, c.recv, m);
    StallThenMove(c.hubs[h], c.recv, m, m');
    hide UsesBus;
    var end := Apply(Apply(c, h, m), h, m');
    assert end.hubs[h] == After(After(c.hubs[h], m), m') && end.hubs[1 - h] == c.hubs[1 - h] && end.recv == c.recv;
    AddressedIsSafe(c.hubs[h], c.recv);
    if h == 0 {} else {}
  }

  lemma StallReports(b: HubCtl, free: bool, recv: St, m: Move)
    requires Moves(b, free, recv, m) && Stalls(b, m)
    ensures m == Release(b, Goto(recv))
  {
    hide OpeningMove, DescriptorMove, ClassMove;
  }

  lemma StalledHub(b: HubCtl, o: HubCtl, owns: bool, otherOwns: bool, recv: St)
    requires Good(b, owns, recv) && Good(o, otherOwns, recv) && b.st == TRANSACTION && !Transient(o)
    ensures owns && (UsesBus(o, recv) <==> otherOwns)
  {
  }

  lemma AddressedIsSafe(b: HubCtl, recv: St)
    ensures recv == SET_ADDRESS_DONE ==> StallSafe(b, recv)
  {
  }

  // ----- A run that a STALL spoils --------------------------------------------------

  lemma {:induction false} Extend(c0: Ctl, g0: int, es: seq<Event>, e: Event)
    requires Wf(c0) && Legal(c0, g0, es)
    requires var (c, g) := Exec(c0, g0, es);
      Wf(c) && Enabled(c, e) && (g != FREE ==> e.Fsm? && e.h == g) && Wf(Next(c, e))
    ensures Legal(c0, g0, es + [e])
    ensures Exec(c0, g0, es + [e]) == (Next(Exec(c0, g0, es).0, e), Going(e))
    decreases |es|
  {
    hide Enabled, Next;
    if es == [] {
      assert (es + [e])[1..] == [];
    } else {
      Extend(Next(c0, es[0]), Going(es[0]), es[1..], e);
      assert (es + [e])[1..] == es[1..] + [e];
    }
  }

  /** A run from the start that has come to c, with the loop of `g` going on. */
  ghost predicate Comes(es: seq<Event>, c: Ctl, g: int) {
    Legal(START, FREE, es) && Exec(START, FREE, es) == (c, g) && Wf(c)
  }

  /** One more call of `fsm` for hub h. */
  lemma Call(es: seq<Event>, c: Ctl, g: int, h: nat, m: Move) returns (es': seq<Event>, c': Ctl)
    requires Comes(es, c, g) && h < 2 && (g == FREE || g == h) && Allowed(c, h, m) && m.op != Take
    ensures c' == Apply(c, h, m) && Comes(es', c', if Again(m) then h else FREE) && es <= es' && Wf(c')
  {
    hide Moves, Legal, Exec;
    Extend(START, FREE, es, Fsm(h, true, m));
    es', c' := es + [Fsm(h, true, m)], Apply(c, h, m);
  }

  /** The same for a call that takes the free bus. */
  lemma CallTake(es: seq<Event>, c: Ctl, g: int, h: nat, m: Move) returns (es': seq<Event>, c': Ctl)
    requires Comes(es, c, g) && h < 2 && (g == FREE || g == h) && Allowed(c, h, m) && m.act.Send?
    ensures c' == Apply(c, h, m) && Comes(es', c', FREE) && es <= es' && Wf(c')
  {
    hide Moves, Legal, Exec;
    Extend(START, FREE, es, Fsm(h, true, m));
    es', c' := es + [Fsm(h, true, m)], Apply(c, h, m);
  }

  /** The end of a delay. */
  lemma Expire(es: seq<Event>, c: Ctl, h: nat) returns (es': seq<Event>, c': Ctl)
    requires Wf(c) && Comes(es, c, FREE) && h < 2 && Delay(c.hubs[h].st)
    ensures c' == Ctl(c.hubs[h := c.hubs[h].(st := c.hubs[h].next)], c.lock, c.recv) && Comes(es', c', h) && es <= es' && Wf(c')
  {
    hide Comes;
    es', c' := Call(es, c, FREE, h, Plain(c.hubs[h], Goto(c.hubs[h].next)));
  }

  /** From a reset that is under way to the first request of the pass. */
  lemma ThroughReset(es: seq<Event>, c: Ctl, h: nat) returns (es': seq<Event>, c': Ctl)
    requires Wf(c) && h < 2 && Comes(es, c, FREE) && c.lock == FREE && c.hubs[h].st == DELAY_MS && c.hubs[h].next == RESET
    ensures Comes(es', c', FREE) && es <= es' && Wf(c') && c'.hubs[1 - h] == c.hubs[1 - h] && c'.lock == h
    ensures c'.hubs[h].st == TRANSACTION && c'.hubs[h].initial == c.hubs[h].initial && !c'.hubs[h].resetting
    ensures c'.recv == if c.hubs[h].initial then GET_DEVICE_DESC_RECV else SET_ADDRESS_DONE
  {
    hide Comes;
    es', c' := Expire(es, c, h);
    es', c' := Call(es', c', h, h, Plain(c'.hubs[h], Us(ENABLE)));
    es', c' := Expire(es', c', h);
    var b := c'.hubs[h];
    es', c' := Call(es', c', h, h, Move(Keep, Ms(if b.initial then GET_DEVICE_DESC else SET_ADDRESS), b.initial, false));
    es', c' := Expire(es', c', h);
    es', c' := CallTake(es', c', h, h, Move(Take, Send(if b.initial then GET_DEVICE_DESC_RECV else SET_ADDRESS_DONE), b.initial, false));
  }

  /** A new device: the first look at it is on the bus. */
  lemma FirstLook(es: seq<Event>, c: Ctl, h: nat) returns (es': seq<Event>, c': Ctl)
    requires Wf(c) && h < 2 && Comes(es, c, FREE) && c.lock == FREE && c.hubs[h] == BOOT
    ensures Comes(es', c', FREE) && es <= es' && Wf(c') && c'.hubs[1 - h] == c.hubs[1 - h] && c'.lock == h
    ensures c'.hubs[h].st == TRANSACTION && c'.hubs[h].initial && !c'.hubs[h].resetting && c'.recv == GET_DEVICE_DESC_RECV
  {
    hide Comes;
    es', c' := Call(es, c, FREE, h, Plain(c.hubs[h], Ms(CONNECT)));
    es', c' := Expire(es', c', h);
    es', c' := Call(es', c', h, h, Move(Keep, Ms(RESET), true, true));
    es', c' := ThroughReset(es', c', h);
  }

  /** ... and after the second pass the full device descriptor is. */
  lemma SecondLook(es: seq<Event>, c: Ctl, h: nat) returns (es': seq<Event>, c': Ctl)
    requires Wf(c) && h < 2 && Comes(es, c, FREE) && c.lock == h
    requires c.hubs[h].st == TRANSACTION && c.hubs[h].initial && !c.hubs[h].resetting && c.recv == GET_DEVICE_DESC_RECV
    ensures Comes(es', c', FREE) && es <= es' && Wf(c') && c'.hubs[1 - h] == c.hubs[1 - h] && c'.lock == h
    ensures c'.hubs[h].st == TRANSACTION && !c'.hubs[h].initial && !c'.hubs[h].resetting && c'.recv == GET_DEVICE_DESC_RECV
  {
    hide Comes;
    es', c' := Call(es, c, FREE, h, Plain(c.hubs[h], Goto(GET_DEVICE_DESC_RECV)));
    es', c' := Call(es', c', h, h, Move(Drop, Ms(RESET), false, true));
    es', c' := ThroughReset(es', c', h);
    es', c' := Call(es', c', FREE, h, Plain(c'.hubs[h], Goto(SET_ADDRESS_DONE)));
    es', c' := Call(es', c', h, h, Move(Retake, Ms(GET_DEVICE_DESC), false, false));
    es', c' := Expire(es', c', h);
    es', c' := CallTake(es', c', h, h, Plain(c'.hubs[h], Send(GET_DEVICE_DESC_RECV)));
  }

  /** A device answers the request for its full descriptor with a STALL, and its
      poll loop ends in a state that uses the bus while the bus is free. */
  lemma StallBreaksExclusion() returns (es: seq<Event>, c: Ctl)
    ensures Comes(es, c, FREE) && Wf(c) && c.lock == FREE && UsesBus(c.hubs[0], c.recv) && !Exclusive(c)
    ensures c.hubs == [HubCtl(DELAY_US, GET_STRING_DESC, false, false), BOOT]
  {
    assert Comes([], START, FREE);
    hide Comes;
    es, c := FirstLook([], START, 0);
    es, c := SecondLook(es, c, 0);
    es, c := Call(es, c, FREE, 0, Release(c.hubs[0], Goto(GET_DEVICE_DESC_RECV)));
    es, c := Call(es, c, 0, 0, Plain(c.hubs[0], Us(GET_STRING_DESC)));
  }

  /** The run goes on: the other hub takes the bus, and both have a transfer in flight. */
  lemma StallLetsBothDrive() returns (es: seq<Event>, c: Ctl)
    ensures Comes(es, c, FREE) && Wf(c) && InEngine(c.hubs[0]) && InEngine(c.hubs[1])
  {
    es, c := StallBreaksExclusion();
    hide Comes;
    es, c := FirstLook(es, c, 1);
    es, c := Expire(es, c, 0);
    es, c := CallTake(es, c, 0, 0, Plain(c.hubs[0], Send(GET_STRING_DESC_RECV)));
  }

  // ----- Hub switches that do harm ---------------------------------------------------

  /** The lock names the hub that uses the bus, and a detach of the owner frees it. */
  predicate Sound(c: Ctl)
    requires Wf(c)
  {
    Exclusive(c) && forall h :: 0 <= h < 2 && c.lock == h ==> Detach(c, h, false).lock == FREE
  }

  lemma InvIsSound(c: Ctl)
    requires Inv(c) && Settled(c, FREE)
    ensures Sound(c)
  {
    hide UsesBus, Transient, Good, Detach;
    GoodOwner(c.hubs[0], c.lock == 0, c.recv);
    GoodOwner(c.hubs[1], c.lock == 1, c.recv);
    if 0 <= c.lock {
      DetachFreesBus(c, c.lock);
    }
  }

  /** Behind a switch of a hub that is off the bus, not resetting and past its
      first pass, every run goes on as `BusExclusion` says. */
  lemma SafeSwitchIsSound(c: Ctl, h: nat, es: seq<Event>)
    requires Inv(c) && Settled(c, FREE) && h < 2 && SwitchSafe(c.hubs[h], c.lock == h)
    requires var d := Next(c, HubSwitch(h)); Wf(d) && Legal(d, FREE, es) && AllGuarded(d, FREE, es)
    ensures var (end, going) := Exec(Next(c, HubSwitch(h)), FREE, es); Wf(end) && (going == FREE ==> Sound(end))
  {
    var d := Next(c, HubSwitch(h));
    NextKeepsInv(c, HubSwitch(h));
    RunKeepsInv(d, FREE, es);
    var (end, going) := Exec(d, FREE, es);
    hide Good, Legal, Exec, Settled, Sound;
    if going == FREE {
      InvIsSound(end);
    }
  }

  lemma Then(c: Ctl, g: int, e: Event, es: seq<Event>)
    requires Wf(c) && Enabled(c, e) && (g != FREE ==> e.Fsm? && e.h == g)
    requires Wf(Next(c, e)) && Legal(Next(c, e), Going(e), es)
    ensures Legal(c, g, [e] + es) && Exec(c, g, [e] + es) == Exec(Next(c, e), Going(e), es)
  {
    hide Enabled, Next;
    assert ([e] + es)[1..] == es;
  }

  /** Any other switch breaks that: at once, or after one poll of the hub, unless
      the other hub has the bus. */
  lemma UnsafeSwitchBreaks(c: Ctl, h: nat) returns (es: seq<Event>)
    requires Inv(c) && Settled(c, FREE) && h < 2 && !SwitchSafe(c.hubs[h], c.lock == h) && c.lock != 1 - h
    ensures Legal(Next(c, HubSwitch(h)), FREE, es) && |es| <= 3
    ensures forall i :: 0 <= i < |es| ==> es[i].Fsm? && es[i].h == h && es[i].attached
    ensures var (end, going) := Exec(Next(c, HubSwitch(h)), FREE, es); going == FREE && Wf(end) && !Sound(end)
  {
    hide Settled, Good, DescriptorMove, ClassMove;
    var d := Next(c, HubSwitch(h));
    var b := d.hubs[h];
    if c.lock == h {
      es := [];
      assert !UsesBus(b, d.recv);
    } else {
      var take := Fsm(h, true, Move(Take, Send(SET_ADDRESS_DONE), b.initial, b.resetting));
      var d1 := Next(d, take);
      if b.resetting {
        Then(d, FREE, take, []);
        es := [take] + [];
        assert Detach(d1, h, false) == d1;
      } else {
        var report := Fsm(h, true, Plain(d1.hubs[h], Goto(SET_ADDRESS_DONE)));
        var d2 := Next(d1, report);
        var settle := Fsm(h, true, Move(Retake, Ms(GET_DEVICE_DESC), true, false));
        var d3 := Next(d2, settle);
        assert d3.lock == h && !UsesBus(d3.hubs[h], d3.recv);
        Then(d2, h, settle, []);
        Then(d1, FREE, report, [settle]);
        Then(d, FREE, take, [report, settle]);
        es := [take] + [report, settle];
      }
    }
  }

  /** A run in which the switch comes during the first pass: the hub takes the bus
      for SET_ADDRESS and then waits for the bus to come free. */
  lemma SwitchInFirstPass() returns (es: seq<Event>, c: Ctl)
    ensures Comes(es, c, FREE) && Wf(c) && c.lock == 0 && c.hubs[0].st == GET_DEVICE_DESC && !Exclusive(c)
    ensures forall m :: Allowed(c, 0, m) ==> m == Plain(c.hubs[0], Stay)
  {
    assert Comes([], START, FREE);
    hide Comes, DescriptorMove, ClassMove, TransferMove;
    es, c := Call([], START, FREE, 0, Plain(START.hubs[0], Ms(CONNECT)));
    es, c := Expire(es, c, 0);
    es, c := Call(es, c, 0, 0, Move(Keep, Ms(RESET), true, true));
    es, c := Expire(es, c, 0);
    es, c := Call(es, c, 0, 0, Plain(c.hubs[0], Us(ENABLE)));
    es, c := Expire(es, c, 0);
    es, c := Call(es, c, 0, 0, Move(Keep, Ms(GET_DEVICE_DESC), true, false));
    es, c := Switch(es, c, 0);
    es, c := CallTake(es, c, FREE, 0, Move(Take, Send(SET_ADDRESS_DONE), true, false));
    es, c := Report(es, c, 0);
    es, c := Call(es, c, 0, 0, Move(Retake, Ms(GET_DEVICE_DESC), true, false));
    es, c := Expire(es, c, 0);
    es, c := Call(es, c, 0, 0, Plain(c.hubs[0], Stay));
  }

  /** A run in which it comes during the second reset: the hub has the bus, and no
      call of its `fsm` notices that the device has gone. */
  lemma SwitchWhileResetting() returns (es: seq<Event>, c: Ctl)
    ensures Comes(es, c, FREE) && Wf(c) && c.lock == 0 && InEngine(c.hubs[0]) && Detach(c, 0, false) == c
  {
    assert Comes([], START, FREE);
    hide Comes;
    es, c := FirstLook([], START, 0);
    es, c := Report(es, c, 0);
    es, c := Call(es, c, 0, 0, Move(Drop, Ms(RESET), false, true));
    es, c := Switch(es, c, 0);
    es, c := CallTake(es, c, FREE, 0, Move(Take, Send(SET_ADDRESS_DONE), false, true));
  }

  /** A run in which it comes during a transfer: the hub waits for the bus it has. */
  lemma SwitchWhileOwning() returns (es: seq<Event>, c: Ctl)
    ensures Comes(es, c, FREE) && Wf(c) && c.lock == 0 && c.hubs[0].st == SET_ADDRESS && !Exclusive(c)
    ensures forall m :: Allowed(c, 0, m) ==> m == Plain(c.hubs[0], Stay)
  {
    assert Comes([], START, FREE);
    hide Comes, DescriptorMove, ClassMove, TransferMove;
    es, c := FirstLook([], START, 0);
    es, c := SecondLook(es, c, 0);
    es, c := Switch(es, c, 0);
  }

  lemma Switch(es: seq<Event>, c: Ctl, h: nat) returns (es': seq<Event>, c': Ctl)
    requires Wf(c) && Comes(es, c, FREE) && h < 2
    ensures c' == c.(hubs := c.hubs[h := c.hubs[h].(st := SET_ADDRESS)]) && Comes(es', c', FREE) && es <= es' && Wf(c')
  {
    hide Moves, Legal, Exec;
    Extend(START, FREE, es, HubSwitch(h));
    es', c' := es + [HubSwitch(h)], Next(c, HubSwitch(h));
  }

  /** The transfer of hub h is over. */
  lemma Report(es: seq<Event>, c: Ctl, h: nat) returns (es': seq<Event>, c': Ctl)
    requires Wf(c) && Comes(es, c, FREE) && h < 2 && c.hubs[h].st == TRANSACTION
    ensures c' == c.(hubs := c.hubs[h := c.hubs[h].(st := c.recv)]) && Comes(es', c', h) && es <= es' && Wf(c')
  {
    hide Comes;
    es', c' := Call(es, c, FREE, h, Plain(c.hubs[h], Goto(c.recv)));
  }

  /** A hub that uses the bus is never resetting its port, so the next call of
      its `fsm` notices a detach and frees the bus. */
  lemma DetachFreesBus(c: Ctl, h: nat)
    requires Inv(c) && h < 2 && c.lock == h
    ensures Detach(c, h, false).lock == FREE
  {
    if h == 0 {} else {}
  }

  // ----- The poll loop ----------------------------------------------------------

  /** How many more times `fsm` can return true in a row. */
  function Rank(s: St): nat {
    if Delay(s) || s == TRANSACTION then 2
    else if s == GET_STRING_DESC || s == SET_FEATURE || s == CLEAR_PORT_CONNECTION_FEATURE then 1
    else 0
  }

  /** No delay waits for a delay or for the engine's wait state, and a transfer
      reports to a state made for that.  This holds in every state there is, also
      where the bus is used without the lock. */
  predicate Ends(b: HubCtl, recv: St) {
    (Delay(b.st) ==> !Delay(b.next) && b.next != TRANSACTION) && (InEngine(b) ==> Reports(recv))
  }

  predicate Live(c: Ctl) {
    Wf(c) && Ends(c.hubs[0], c.recv) && Ends(c.hubs[1], c.recv)
  }

  /** Each repetition lowers the rank: one poll of a hub calls `fsm` at most three times. */
  lemma LoopDescends(b: HubCtl, free: bool, recv: St, m: Move)
    requires Ends(b, recv) && Moves(b, free, recv, m) && Again(m)
    ensures Rank(After(b, m).st) < Rank(b.st) <= 2
  {
  }

  lemma MoveKeepsEnds(b: HubCtl, free: bool, recv: St, m: Move)
    requires Ends(b, recv) && Moves(b, free, recv, m)
    ensures m.act.Send? ==> Reports(m.act.recv)
    ensures Ends(After(b, m), if m.act.Send? then m.act.recv else recv)
  {
    hide Moves, Ends, Reports;
    if b.st <= GET_STRING_DESC {
      OpeningKeepsEnds(b, free, recv, m);
    } else if b.st <= SET_CONFIGURATION_DONE {
      DescriptorKeepsEnds(b, free, recv, m);
    } else if b.st <= GET_HID_REPORT_DESC {
      FeatureKeepsEnds(b, free, recv, m);
    } else if b.st <= HID_GET_REPORT {
      ClassKeepsEnds(b, free, recv, m);
    } else if b.st != TRANSACTION {
      StageKeepsEnds(b, free, recv, m);
    } else {
      PacketKeepsEnds(b, free, recv, m);
    }
  }

  lemma OpeningKeepsEnds(b: HubCtl, free: bool, recv: St, m: Move)
    requires Ends(b, recv) && Moves(b, free, recv, m) && b.st <= GET_STRING_DESC
    ensures m.act.Send? ==> Reports(m.act.recv)
    ensures Ends(After(b, m), if m.act.Send? then m.act.recv else recv)
  {
    hide DescriptorMove, ClassMove, TransferMove;
  }

  lemma DescriptorKeepsEnds(b: HubCtl, free: bool, recv: St, m: Move)
    requires Ends(b, recv) && Moves(b, free, recv, m) && GET_STRING_DESC < b.st <= SET_CONFIGURATION_DONE
    ensures m.act.Send? ==> Reports(m.act.recv)
    ensures Ends(After(b, m), if m.act.Send? then m.act.recv else recv)
  {
    hide OpeningMove, ClassMove, TransferMove;
  }

  lemma FeatureKeepsEnds(b: HubCtl, free: bool, recv: St, m: Move)
    requires Ends(b, recv) && Moves(b, free, recv, m) && SET_FEATURE <= b.st <= GET_HID_REPORT_DESC
    ensures m.act.Send? ==> Reports(m.act.recv)
    ensures Ends(After(b, m), if m.act.Send? then m.act.recv else recv)
  {
    hide OpeningMove, ClassMove, TransferMove;
  }

  lemma ClassKeepsEnds(b: HubCtl, free: bool, recv: St, m: Move)
    requires Ends(b, recv) && Moves(b, free, recv, m) && GET_HID_REPORT_DESC < b.st <= HID_GET_REPORT
    ensures m.act.Send? ==> Reports(m.act.recv)
    ensures Ends(After(b, m), if m.act.Send? then m.act.recv else recv)
  {
    hide OpeningMove, DescriptorMove, TransferMove;
  }

  lemma StageKeepsEnds(b: HubCtl, free: bool, recv: St, m: Move)
    requires Ends(b, recv) && Moves(b, free, recv, m) && HID_GET_REPORT < b.st && b.st != TRANSACTION
    ensures m.act.Send? ==> Reports(m.act.recv)
    ensures Ends(After(b, m), if m.act.Send? then m.act.recv else recv)
  {
    hide OpeningMove, DescriptorMove, ClassMove;
  }

  lemma PacketKeepsEnds(b: HubCtl, free: bool, recv: St, m: Move)
    requires Ends(b, recv) && Moves(b, free, recv, m) && b.st == TRANSACTION
    ensures m.act.Send? ==> Reports(m.act.recv)
    ensures Ends(After(b, m), if m.act.Send? then m.act.recv else recv)
  {
    hide OpeningMove, DescriptorMove, ClassMove;
  }

  lemma OtherKeepsEnds(b: HubCtl, recv: St, recv': St)
    requires Ends(b, recv) && Reports(recv')
    ensures Ends(b, recv')
  {
  }

  lemma IdleEnds(b: HubCtl, recv: St)
    ensures Ends(b.(st := IDLE), recv) && Ends(b.(st := SET_ADDRESS), recv)
  {
  }

  lemma ApplyKeepsLive(c: Ctl, h: nat, m: Move)
    requires Live(c) && h < 2 && Ends(After(c.hubs[h], m), if m.act.Send? then m.act.recv else c.recv)
    requires m.act.Send? ==> Reports(m.act.recv)
    ensures Live(Apply(c, h, m))
  {
    hide Ends, After, Reports;
    if m.act.Send? {
      OtherKeepsEnds(c.hubs[1 - h], c.recv, m.act.recv);
    }
    if h == 0 {} else {}
  }

  lemma DetachKeepsLive(c: Ctl, h: nat, attached: bool)
    requires Live(c) && h < 2
    ensures Live(Detach(c, h, attached))
  {
    hide Ends;
    IdleEnds(c.hubs[h], c.recv);
  }

  lemma NextKeepsLive(c: Ctl, e: Event)
    requires Live(c) && Enabled(c, e)
    ensures Live(Next(c, e))
  {
    hide Ends, Moves;
    match e
    case Fsm(h, attached, m) =>
      DetachKeepsLive(c, h, attached);
      var d := Detach(c, h, attached);
      assert Ends(d.hubs[h], d.recv) by {
        if h == 0 {} else {}
      }
      MoveKeepsEnds(d.hubs[h], d.lock == FREE, d.recv, m);
      ApplyKeepsLive(d, h, m);
    case Transfer(h, recv) =>
      var m := Move(Take, Send(recv), c.hubs[h].initial, c.hubs[h].resetting);
      SentEnds(c.hubs[h], m);
      ApplyKeepsLive(c, h, m);
    case HubSwitch(h) => IdleEnds(c.hubs[h], c.recv);
  }

  lemma SentEnds(b: HubCtl, m: Move)
    requires m.act.Send? && Reports(m.act.recv)
    ensures Ends(After(b, m), m.act.recv)
  {
  }

  lemma {:induction false} RunKeepsLive(c: Ctl, going: int, es: seq<Event>)
    requires Live(c) && Legal(c, going, es)
    ensures Live(Exec(c, going, es).0)
    decreases |es|
  {
    if es != [] {
      hide Ends, Enabled, Next;
      NextKeepsLive(c, es[0]);
      RunKeepsLive(Next(c, es[0]), Going(es[0]), es[1..]);
    }
  }

  /** Calls of `while (fsm(h))`: all but the last want to go on. */
  predicate Loop(h: nat, loop: seq<Event>) {
    forall i :: 0 <= i < |loop| ==> loop[i].Fsm? && loop[i].h == h && (i < |loop| - 1 ==> Again(loop[i].m))
  }

  lemma CallDescends(c: Ctl, h: nat, attached: bool, m: Move)
    requires Live(c) && h < 2 && Enabled(c, Fsm(h, attached, m)) && Again(m)
    ensures Rank(Next(c, Fsm(h, attached, m)).hubs[h].st) < Rank(c.hubs[h].st) <= 2
  {
    hide Moves, Ends;
    DetachKeepsLive(c, h, attached);
    var d := Detach(c, h, attached);
    assert Ends(d.hubs[h], d.recv) by {
      if h == 0 {} else {}
    }
    LoopDescends(d.hubs[h], d.lock == FREE, d.recv, m);
  }

  lemma {:induction false} LoopIsShort(c: Ctl, going: int, h: nat, loop: seq<Event>)
    requires Live(c) && h < 2 && Legal(c, going, loop) && Loop(h, loop)
    ensures |loop| <= 1 + Rank(c.hubs[h].st)
    decreases |loop|
  {
    if |loop| > 1 {
      hide Ends, Enabled, Next, Rank;
      NextKeepsLive(c, loop[0]);
      CallDescends(c, h, loop[0].attached, loop[0].m);
      LoopIsShort(Next(c, loop[0]), Going(loop[0]), h, loop[1..]);
    }
  }

  /** Over every run, STALLs and hub switches of any kind included, wherever it has
      come to: a poll loop calls `fsm` at most three times. */
  lemma EveryLoopEnds(es: seq<Event>, h: nat, loop: seq<Event>)
    requires Legal(START, FREE, es) && h < 2
    requires var (c, going) := Exec(START, FREE, es); Wf(c) && Legal(c, going, loop) && Loop(h, loop)
    ensures |loop| <= 3
  {
    RunKeepsLive(START, FREE, es);
    var (c, going) := Exec(START, FREE, es);
    LoopIsShort(c, going, h, loop);
  }

  /** The ownership invariant is one of those states. */
  lemma GoodEnds(c: Ctl)
    requires Inv(c)
    ensures Live(c)
  {
  }
}
