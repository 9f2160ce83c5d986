/** One transfer on the host controller's single transaction engine: the
    `transaction_*` variables of src/usb/usb_host.c and what `state_transaction`
    makes of a completed packet. */
module UsbTransfer {

  datatype Pid = Setup | In | Out | Ack

  // Handshake tokens as the controller reports them.
  const TOKEN_NONE: nat := 0x0
  const TOKEN_DATA0: nat := 0x3
  const TOKEN_NAK: nat := 0xa
  const TOKEN_DATA1: nat := 0xb
  const TOKEN_STALL: nat := 0xe

  const PACKET := 64
  const BUFFER := 1024
  const SETUP_LEN := 8

  type Endpoint = n: nat | n < 16
  type Buffer = b: seq<byte> | |b| == BUFFER witness seq(BUFFER, _ => 0)
  type TxBuffer = b: seq<byte> | |b| == PACKET witness seq(PACKET, _ => 0)

  /** `struct usb_setup_req`; `dirIn` is bit 7 of bRequestType, `kind` the other bits. */
  datatype Request = Request(dirIn: bool, kind: byte, request: byte, value: uint16, index: uint16, length: uint16)
  type byte = n: nat | n < 0x100
  type uint16 = n: nat | n < 0x1_0000

  function Low(n: uint16): byte { n % 256 }
  function High(n: uint16): byte { n / 256 }
  function Word(low: byte, high: byte): uint16 { low + 256 * high }

  /** The eight bytes of a request as they lie in memory and on the bus. */
  function Bytes(r: Request): (b: seq<byte>)
    ensures |b| == SETUP_LEN
  {
    [r.kind % 0x80 + if r.dirIn then 0x80 else 0, r.request, Low(r.value), High(r.value),
     Low(r.index), High(r.index), Low(r.length), High(r.length)]
  }

  predicate DirIn(tx: TxBuffer) {
    tx[0] >= 0x80
  }

  function Length(tx: TxBuffer): uint16 {
    Word(tx[6], tx[7])
  }

  /** The data toggle a packet is set up with: DATA0, DATA1, or DATA1 with the
      controller toggling on from there (AUTO_TOGGLE). */
  datatype Tog = Data0 | Data1 | Auto

  /** `out` is what `transaction_buffer` still points at in a SETUP or OUT
      stage; `fill` is its offset into `buffer` in an IN stage. */
  datatype Transfer = Transfer(pid: Pid, ep: Endpoint, size: uint16, stage: nat, out: seq<byte>, fill: nat)

  /** The engine: the transfer, the packet buffer with the length of the packet
      in it, the data buffer, `user_request_size`, and the toggle registers. */
  datatype Engine = Engine(tr: Transfer, tx: TxBuffer, txLen: nat, buffer: Buffer, wanted: uint16, tog: Tog)

  function Min(a: nat, b: nat): nat {
    if a <= b then a else b
  }

  /** `host_transact_cont`: moves the next packet to send into `tx_buffer`. */
  function Issue(e: Engine, tog: Tog): Engine {
    if e.tr.pid == In then e.(txLen := 0, tog := tog)
    else
      var n := Min(Min(e.tr.size, PACKET), |e.tr.out|);
      e.(tx := e.tr.out[..n] + e.tx[n..], txLen := n, tog := tog,
         tr := e.tr.(out := e.tr.out[n..], size := e.tr.size - n))
  }

  function Begin(e: Engine, pid: Pid, ep: Endpoint, stage: nat, out: seq<byte>, size: uint16, tog: Tog): Engine {
    Issue(e.(tr := Transfer(pid, ep, size, stage, out, 0)), tog)
  }

  function BeginSetup(e: Engine, r: Request): Engine {
    Begin(e, Setup, 0, 0, Bytes(r), SETUP_LEN, Data0)
  }

  /** `state_transaction_in` and `state_transaction_out`. */
  function StageIn(e: Engine): Engine {
    var size := if e.tr.stage == 1 then 0 else Length(e.tx);
    Begin(e.(wanted := size), In, e.tr.ep, e.tr.stage, [], size, if e.tr.stage == 1 then Auto else Data0)
  }

  function StageOut(e: Engine): Engine {
    var size := if e.tr.stage == 1 then 0 else Length(e.tx);
    Begin(e, Out, e.tr.ep, e.tr.stage, e.buffer[..Min(size, BUFFER)], size, if e.tr.stage != 2 then Auto else Data0)
  }

  /** What the controller reports when a packet has completed. */
  datatype Answer = Answer(token: nat, togOk: bool, rx: seq<byte>)

  predicate Success(a: Answer) {
    a.togOk || a.token == TOKEN_DATA0 || a.token == TOKEN_DATA1 || a.token == TOKEN_NONE
  }

  /** Bytes past the end of `buffer` are not part of this model. */
  function Store(b: Buffer, at: nat, bytes: seq<byte>): Buffer {
    seq(BUFFER, i requires 0 <= i < BUFFER => if at <= i < at + |bytes| then bytes[i - at] else b[i])
  }

  function Received(e: Engine, a: Answer): Engine {
    if e.tr.pid == In && a.token != TOKEN_NAK && a.token != TOKEN_STALL then
      e.(buffer := Store(e.buffer, e.tr.fill, a.rx),
         tr := e.tr.(fill := e.tr.fill + |a.rx|, size := (e.tr.size - |a.rx|) % 0x1_0000))
    else e
  }

  datatype Verdict = Continue | StartIn | StartOut | Finish | Stalled | NakFail | Retry | Error

  datatype Completion = Completion(e: Engine, v: Verdict)

  /** The decisions of `state_transaction` for a completed packet. */
  function Complete(e0: Engine, maxPacket: nat, noRetry: bool, a: Answer): Completion {
    var e := Received(e0, a);
    if a.token == TOKEN_STALL then Completion(e.(buffer := e.buffer[0 := 0]), Stalled)
    else if Success(a) then
      if e.tr.size != 0 && |a.rx| == maxPacket then Completion(e, Continue)
      else
        var dir := if e.tr.pid != Setup then e.tr.pid else if DirIn(e.tx) then In else Out;
        if e.tr.pid == Setup && Length(e.tx) != 0 then
          Completion(e, if dir == In then StartIn else StartOut)
        else if e.tr.stage == 0 && dir != Ack then
          Completion(e.(tr := e.tr.(stage := 1)), if dir == In then StartOut else StartIn)
        else if e.tr.stage == 0 then Completion(e.(tr := e.tr.(stage := 1)), Finish)
        else Completion(e, Finish)
    else if a.token == TOKEN_NAK then Completion(e, if noRetry then NakFail else Retry)
    else Completion(e, Error)
  }

  /** The delayed step that follows the verdict: issue again, or open the next stage. */
  function Next(c: Completion): Engine {
    match c.v
    case Continue => Issue(c.e, Auto)
    case StartIn => StageIn(c.e)
    case StartOut => StageOut(c.e)
    case _ => c.e
  }

  // ----- Runs of one control transfer --------------------------------------

  /** A packet that completed: its toggle, and what was sent in it or came back. */
  datatype Packet = Packet(pid: Pid, tog: Tog, data: seq<byte>)

  /** A transfer that does not finish ends in a STALL, in a NAK that is not to be
      retried, or in a transmission error. */
  datatype Progress = Running | Finished | Aborted(why: Verdict)

  datatype Run = Run(e: Engine, done: seq<Packet>, progress: Progress)

  function Completed(e: Engine, a: Answer): Packet {
    Packet(e.tr.pid, e.tog, if e.tr.pid == In then a.rx else e.tx[..Min(e.txLen, PACKET)])
  }

  /** One completed packet, with the retry flag of the hub as `noRetry`. */
  function Step(r: Run, maxPacket: nat, noRetry: bool, a: Answer): Run {
    if r.progress != Running then r
    else
      var c := Complete(r.e, maxPacket, noRetry, a);
      match c.v
      case Retry => r
      case Continue => Run(Next(c), r.done + [Completed(r.e, a)], Running)
      case StartIn => Run(Next(c), r.done + [Completed(r.e, a)], Running)
      case StartOut => Run(Next(c), r.done + [Completed(r.e, a)], Running)
      case Finish => Run(c.e, r.done + [Completed(r.e, a)], Finished)
      case _ => Run(c.e, r.done, Aborted(c.v))
  }

  function Steps(r: Run, maxPacket: nat, noRetry: bool, answers: seq<Answer>): Run {
    if answers == [] then r
    else Step(Steps(r, maxPacket, noRetry, answers[..|answers| - 1]), maxPacket, noRetry, answers[|answers| - 1])
  }

  /** The device never sends more than the host asked for, and a NAK is not
      reported as a good packet. */
  predicate Honest(r: Run, a: Answer) {
    (r.e.tr.pid == In ==> |a.rx| <= r.e.tr.size) && (a.token == TOKEN_NAK ==> !a.togOk)
  }

  predicate AllHonest(r: Run, maxPacket: nat, noRetry: bool, answers: seq<Answer>) {
    answers == [] ||
    (AllHonest(r, maxPacket, noRetry, answers[..|answers| - 1])
     && Honest(Steps(r, maxPacket, noRetry, answers[..|answers| - 1]), answers[|answers| - 1]))
  }

  // ----- The shape of a control transfer, USB 2.0 section 8.5.3 --------------

  /** The toggle of IN packet i of a data stage. */
  function InTog(i: nat): Tog {
    if i == 0 then Data0 else Auto
  }

  function Ins(ps: seq<seq<byte>>): seq<Packet> {
    seq(|ps|, i requires 0 <= i < |ps| => Packet(In, InTog(i), ps[i]))
  }

  function Concat(ps: seq<seq<byte>>): seq<byte> {
    if ps == [] then [] else Concat(ps[..|ps| - 1]) + ps[|ps| - 1]
  }

  predicate AllFull(ps: seq<seq<byte>>, maxPacket: nat) {
    forall i :: 0 <= i < |ps| ==> |ps[i]| == maxPacket
  }

  /** A data stage that ended: only its last packet may be short, and it stopped
      at a short packet or when the request was satisfied. */
  predicate DataStage(ps: seq<seq<byte>>, length: nat, maxPacket: nat) {
    && ps != []
    && AllFull(ps[..|ps| - 1], maxPacket)
    && (|ps[|ps| - 1]| != maxPacket || |Concat(ps)| == length)
  }

  /** The packets of a whole transfer: SETUP, the data stage if there is one,
      and an empty packet the other way, with the toggles they were set up with. */
  predicate Transferred(done: seq<Packet>, req: Request, payload: Buffer, ps: seq<seq<byte>>) {
    done == if req.dirIn then [Packet(Setup, Data0, Bytes(req))] + Ins(ps) + [Packet(Out, Auto, [])]
            else [Packet(Setup, Data0, Bytes(req))] + OutData(req, payload) + [Packet(In, Auto, [])]
  }

  function OutData(req: Request, payload: Buffer): seq<Packet> {
    if req.length == 0 then [] else [Packet(Out, Auto, payload[..Min(req.length, BUFFER)])]
  }

  /** Transfers the claims are about: an IN request asks for something that fits
      the buffer, the data of an OUT request fits one packet. */
  predicate Plain(req: Request) {
    if req.dirIn then 0 < req.length <= BUFFER else req.length <= PACKET
  }

  predicate Gathered(e: Engine, ps: seq<seq<byte>>) {
    |Concat(ps)| <= BUFFER && e.buffer[..|Concat(ps)|] == Concat(ps)
  }

  /** What holds of a run between packets; `ps` are the IN packets so far. */
  predicate Shape(r: Run, req: Request, payload: Buffer, maxPacket: nat, ps: seq<seq<byte>>) {
    var tr := r.e.tr;
    var setup := [Packet(Setup, Data0, Bytes(req))];
    match r.progress
    case Aborted(_) => true
    case Finished =>
      && Transferred(r.done, req, payload, ps) && tr.size == 0 && (req.dirIn ==> r.e.wanted == req.length)
      && (req.dirIn ==> DataStage(ps, req.length, maxPacket) && |Concat(ps)| <= req.length && Gathered(r.e, ps))
    case Running =>
      match (tr.pid, tr.stage)
      case (Setup, 0) =>
        && r.done == [] && ps == [] && tr.size == 0 && r.e.tog == Data0
        && r.e.txLen == SETUP_LEN && r.e.tx[..SETUP_LEN] == Bytes(req) && r.e.buffer == payload
      case (In, 0) =>
        && req.dirIn && r.done == setup + Ins(ps) && AllFull(ps, maxPacket) && r.e.tog == InTog(|ps|) && r.e.wanted == req.length
        && tr.fill == |Concat(ps)| && tr.fill + tr.size == req.length && tr.size > 0 && Gathered(r.e, ps)
      case (Out, 1) =>
        && req.dirIn && r.done == setup + Ins(ps) && tr.size == 0 && r.e.txLen == 0 && r.e.tog == Auto && r.e.wanted == req.length
        && DataStage(ps, req.length, maxPacket) && |Concat(ps)| <= req.length && Gathered(r.e, ps)
      case (Out, 0) =>
        && !req.dirIn && r.done == setup && tr.size == 0 && r.e.tog == Auto
        && r.e.txLen == req.length && 0 < req.length <= PACKET && r.e.tx[..r.e.txLen] == payload[..req.length]
      case (In, 1) =>
        !req.dirIn && r.done == setup + OutData(req, payload) && tr.size == 0 && r.e.tog == Auto
      case _ => false
  }

  lemma RequestBits(r: Request, tx: TxBuffer)
    requires tx[..SETUP_LEN] == Bytes(r)
    ensures DirIn(tx) == r.dirIn && Length(tx) == r.length
  {
    var b := Bytes(r);
    assert tx[0] == tx[..SETUP_LEN][0] && tx[6] == tx[..SETUP_LEN][6] && tx[7] == tx[..SETUP_LEN][7];
  }

  lemma ConcatPush(ps: seq<seq<byte>>, p: seq<byte>)
    ensures Concat(ps + [p]) == Concat(ps) + p
    ensures Ins(ps + [p]) == Ins(ps) + [Packet(In, InTog(|ps|), p)]
  {
    hide InTog;
    assert (ps + [p])[..|ps|] == ps;
    InsPush(ps, p);
  }

  lemma InsPush(ps: seq<seq<byte>>, p: seq<byte>)
    ensures Ins(ps + [p]) == Ins(ps) + [Packet(In, InTog(|ps|), p)]
  {
    hide InTog, Concat;
    var all := Ins(ps + [p]);
    assert |all| == |ps| + 1;
    forall i | 0 <= i < |all| ensures all[i] == (Ins(ps) + [Packet(In, InTog(|ps|), p)])[i] {
      if i < |ps| {
        assert (ps + [p])[i] == ps[i];
      }
    }
  }

  lemma SetupShape(e: Engine, req: Request, maxPacket: nat)
    ensures Shape(Run(BeginSetup(e, req), [], Running), req, e.buffer, maxPacket, [])
  {
  }

  lemma AfterSetupPacket(r: Run, req: Request, payload: Buffer, maxPacket: nat, noRetry: bool, a: Answer)
    requires Plain(req) && Shape(r, req, payload, maxPacket, []) && Honest(r, a)
    requires r.progress == Running && r.e.tr.pid == Setup && r.e.tr.stage == 0 && Success(a) && a.token != TOKEN_STALL
    ensures Shape(Step(r, maxPacket, noRetry, a), req, payload, maxPacket, [])
  {
    hide Bytes;
    RequestBits(req, r.e.tx);
    hide DirIn, Length, Store;
    NothingIn();
    assert Completed(r.e, a) == Packet(Setup, Data0, Bytes(req));
    hide Ins, Concat;
  }

  lemma NothingIn()
    ensures Ins([]) == [] && Concat([]) == []
  {
  }

  lemma AfterSetupOther(r: Run, req: Request, payload: Buffer, maxPacket: nat, noRetry: bool, a: Answer)
    requires Shape(r, req, payload, maxPacket, []) && (!Success(a) || a.token == TOKEN_STALL)
    requires r.progress == Running && r.e.tr.pid == Setup && r.e.tr.stage == 0
    ensures Shape(Step(r, maxPacket, noRetry, a), req, payload, maxPacket, [])
  {
    hide Bytes, DirIn, Length, Store, Ins, Concat, Issue, StageIn, StageOut;
  }

  lemma AfterInPacket(r: Run, req: Request, payload: Buffer, maxPacket: nat, noRetry: bool, ps: seq<seq<byte>>, a: Answer)
    requires Plain(req) && Shape(r, req, payload, maxPacket, ps) && Honest(r, a)
    requires r.progress == Running && r.e.tr.pid == In && r.e.tr.stage == 0 && Success(a) && a.token != TOKEN_STALL
    ensures Shape(Step(r, maxPacket, noRetry, a), req, payload, maxPacket, ps + [a.rx])
  {
    hide Bytes, DirIn, Length, Store;
    ConcatPush(ps, a.rx);
    StoredBehind(r.e.buffer, Concat(ps), a.rx);
    hide Concat, Ins;
    assert (ps + [a.rx])[..|ps|] == ps;
  }

  lemma AfterInOther(r: Run, req: Request, payload: Buffer, maxPacket: nat, noRetry: bool, ps: seq<seq<byte>>, a: Answer)
    requires Plain(req) && Shape(r, req, payload, maxPacket, ps) && Honest(r, a)
    requires r.progress == Running && r.e.tr.pid == In && r.e.tr.stage == 0 && (!Success(a) || a.token == TOKEN_STALL)
    ensures Shape(Step(r, maxPacket, noRetry, a), req, payload, maxPacket, ps)
  {
    hide Bytes, DirIn, Length, Store, Concat, Ins;
  }

  /** The last packet of a transfer, and the only one of an OUT data stage. */
  lemma AfterRest(r: Run, req: Request, payload: Buffer, maxPacket: nat, noRetry: bool, ps: seq<seq<byte>>, a: Answer)
    requires Plain(req) && Shape(r, req, payload, maxPacket, ps) && Honest(r, a)
    requires r.progress == Running && (r.e.tr.pid == Out || r.e.tr.stage == 1)
    ensures Shape(Step(r, maxPacket, noRetry, a), req, payload, maxPacket, ps)
  {
    hide Bytes, DirIn, Length, Concat, Ins;
  }

  lemma StepShape(r: Run, req: Request, payload: Buffer, maxPacket: nat, noRetry: bool, ps: seq<seq<byte>>, a: Answer)
    returns (ps': seq<seq<byte>>)
    requires Plain(req) && Shape(r, req, payload, maxPacket, ps) && Honest(r, a)
    ensures Shape(Step(r, maxPacket, noRetry, a), req, payload, maxPacket, ps')
  {
    ps' := ps;
    if r.progress == Running {
      if r.e.tr.pid == Setup {
        if Success(a) && a.token != TOKEN_STALL {
          AfterSetupPacket(r, req, payload, maxPacket, noRetry, a);
        } else {
          AfterSetupOther(r, req, payload, maxPacket, noRetry, a);
        }
      } else if r.e.tr.pid == In && r.e.tr.stage == 0 {
        if Success(a) && a.token != TOKEN_STALL {
          ps' := ps + [a.rx];
          AfterInPacket(r, req, payload, maxPacket, noRetry, ps, a);
        } else {
          AfterInOther(r, req, payload, maxPacket, noRetry, ps, a);
        }
      } else {
        AfterRest(r, req, payload, maxPacket, noRetry, ps, a);
      }
    }
  }

  /** Whatever NAKs interleave and whatever the device answers: if a transfer
      finishes, the packets that completed are SETUP, its data stage and an empty
      status packet in the other direction, and the IN data lies in the buffer
      in order and unchanged. */
  lemma {:induction false} ControlTransferShape(e: Engine, req: Request, maxPacket: nat, noRetry: bool, answers: seq<Answer>)
    returns (ps: seq<seq<byte>>)
    requires Plain(req) && AllHonest(Run(BeginSetup(e, req), [], Running), maxPacket, noRetry, answers)
    ensures Shape(Steps(Run(BeginSetup(e, req), [], Running), maxPacket, noRetry, answers), req, e.buffer, maxPacket, ps)
    decreases |answers|
  {
    var r0 := Run(BeginSetup(e, req), [], Running);
    if answers == [] {
      SetupShape(e, req, maxPacket);
      ps := [];
    } else {
      var n := |answers| - 1;
      ps := ControlTransferShape(e, req, maxPacket, noRetry, answers[..n]);
      ps := StepShape(Steps(r0, maxPacket, noRetry, answers[..n]), req, e.buffer, maxPacket, noRetry, ps, answers[n]);
    }
  }

  // ----- Completion -------------------------------------------------------------

  /** The answers that move a transfer on. */
  function Successes(answers: seq<Answer>): nat {
    if answers == [] then 0
    else Successes(answers[..|answers| - 1]) + if answers[|answers| - 1].token == TOKEN_NAK then 0 else 1
  }

  /** No STALL and no transmission error. */
  predicate Clean(answers: seq<Answer>) {
    forall i :: 0 <= i < |answers| ==> answers[i].token == TOKEN_NAK || (Success(answers[i]) && answers[i].token != TOKEN_STALL)
  }

  /** The packets that n bytes take. */
  function Packets(n: nat, maxPacket: nat): nat
    requires maxPacket > 0
  {
    if n == 0 then 0 else if n <= maxPacket then 1 else 1 + Packets(n - maxPacket, maxPacket)
  }

  lemma OnePacketLess(n: nat, maxPacket: nat)
    requires maxPacket > 0
    ensures n > maxPacket ==> Packets(n - maxPacket, maxPacket) + 1 == Packets(n, maxPacket)
    ensures n > 0 ==> Packets(n, maxPacket) > 0
    ensures Packets(0, maxPacket) == 0
  {
  }

  /** Answers a transfer still needs at most: the status packet, the packets of
      the data stage, and the setup packet. */
  function Needed(r: Run, length: nat, maxPacket: nat): nat
    requires maxPacket > 0
  {
    if r.progress != Running then 0
    else if r.e.tr.pid == Setup then Packets(length, maxPacket) + 2
    else if r.e.tr.stage == 1 then 1
    else if r.e.tr.pid == In then Packets(r.e.tr.size, maxPacket) + 1
    else 2
  }

  /** What one answer does to a transfer that still runs. */
  predicate MovesOn(r: Run, next: Run, length: nat, maxPacket: nat, a: Answer)
    requires maxPacket > 0
  {
    if a.token == TOKEN_NAK then next == r
    else next.progress == Finished || (next.progress == Running && Needed(next, length, maxPacket) < Needed(r, length, maxPacket))
  }

  lemma StepIsNeeded(r: Run, req: Request, payload: Buffer, maxPacket: nat, ps: seq<seq<byte>>, a: Answer)
    requires Plain(req) && Shape(r, req, payload, maxPacket, ps) && Honest(r, a)
    requires maxPacket > 0 && Clean([a]) && r.progress == Running
    ensures MovesOn(r, Step(r, maxPacket, false, a), req.length, maxPacket, a)
  {
    hide Bytes, Concat, Ins, Packets, DirIn, Length, Store;
    assert a == [a][0];
    OnePacketLess(req.length, maxPacket);
    OnePacketLess(r.e.tr.size, maxPacket);
    if r.e.tr.pid == Setup {
      RequestBits(req, r.e.tx);
    }
  }

  lemma {:induction false} TransferProgress(e: Engine, req: Request, maxPacket: nat, answers: seq<Answer>)
    requires Plain(req) && AllHonest(Run(BeginSetup(e, req), [], Running), maxPacket, false, answers)
    requires maxPacket > 0 && Clean(answers)
    ensures var r := Steps(Run(BeginSetup(e, req), [], Running), maxPacket, false, answers);
      r.progress == Finished
      || (r.progress == Running && Needed(r, req.length, maxPacket) + Successes(answers) <= Packets(req.length, maxPacket) + 2)
    decreases |answers|
  {
    hide BeginSetup, Step, Shape, Needed, Honest, Packets;
    var r0 := Run(BeginSetup(e, req), [], Running);
    if answers == [] {
      FirstNeeded(e, req, maxPacket);
    } else {
      var n := |answers| - 1;
      TransferProgress(e, req, maxPacket, answers[..n]);
      var ps := ControlTransferShape(e, req, maxPacket, false, answers[..n]);
      assert Clean([answers[n]]);
      if Steps(r0, maxPacket, false, answers[..n]).progress == Running {
        StepIsNeeded(Steps(r0, maxPacket, false, answers[..n]), req, e.buffer, maxPacket, ps, answers[n]);
      } else {
        StepFinished(Steps(r0, maxPacket, false, answers[..n]), maxPacket, answers[n]);
      }
    }
  }

  lemma StepFinished(r: Run, maxPacket: nat, a: Answer)
    requires r.progress == Finished
    ensures Step(r, maxPacket, false, a) == r
  {
  }

  lemma FirstNeeded(e: Engine, req: Request, maxPacket: nat)
    requires maxPacket > 0
    ensures Needed(Run(BeginSetup(e, req), [], Running), req.length, maxPacket) == Packets(req.length, maxPacket) + 2
  {
  }

  /** Without a STALL, an error or a packet size of zero a transfer is finished
      once the device has answered as many packets as the data takes and two
      more, whatever NAKs interleave. */
  lemma TransferCompletes(e: Engine, req: Request, maxPacket: nat, answers: seq<Answer>)
    requires Plain(req) && AllHonest(Run(BeginSetup(e, req), [], Running), maxPacket, false, answers)
    requires maxPacket > 0 && Clean(answers) && Successes(answers) >= Packets(req.length, maxPacket) + 2
    ensures Steps(Run(BeginSetup(e, req), [], Running), maxPacket, false, answers).progress == Finished
  {
    hide BeginSetup, Step, Steps, Packets;
    TransferProgress(e, req, maxPacket, answers);
    var r := Steps(Run(BeginSetup(e, req), [], Running), maxPacket, false, answers);
    if r.progress == Running {
      StillNeeded(r, req.length, maxPacket);
    }
  }

  lemma StillNeeded(r: Run, length: nat, maxPacket: nat)
    requires maxPacket > 0 && r.progress == Running
    ensures Needed(r, length, maxPacket) > 0
  {
  }

  /** With a packet size of zero an empty packet counts as a full one: a device
      that sends nothing keeps an IN data stage open for ever. */
  lemma {:induction false} EmptyPacketsNeverEnd(r: Run, answers: seq<Answer>)
    requires Hungry(r)
    requires forall i :: 0 <= i < |answers| ==> answers[i] == Answer(TOKEN_DATA0, true, [])
    ensures Hungry(Steps(r, 0, false, answers))
    decreases |answers|
  {
    if answers != [] {
      hide Hungry, Step;
      var n := |answers| - 1;
      EmptyPacketsNeverEnd(r, answers[..n]);
      EmptyPacketGoesOn(Steps(r, 0, false, answers[..n]), answers[n]);
    }
  }

  /** In an IN data stage that still wants bytes. */
  predicate Hungry(r: Run) {
    r.progress == Running && r.e.tr.pid == In && r.e.tr.stage == 0 && r.e.tr.size > 0
  }

  lemma EmptyPacketGoesOn(r: Run, a: Answer)
    requires Hungry(r) && a == Answer(TOKEN_DATA0, true, [])
    ensures Hungry(Step(r, 0, false, a))
  {
  }

  // ----- The size a transfer reports ------------------------------------------------

  /** What `state_in_recv` and `state_hid_get_report` pass on as the size. */
  function Reported(e: Engine): uint16 {
    (e.wanted - e.tr.size) % 0x1_0000
  }

  /** A finished control IN transfer reports the length that was asked for; that
      is what was received if and only if the device sent all of it. */
  lemma ControlReport(r: Run, req: Request, payload: Buffer, maxPacket: nat, ps: seq<seq<byte>>)
    requires req.dirIn && r.progress == Finished && Shape(r, req, payload, maxPacket, ps)
    ensures Reported(r.e) == req.length
    ensures Reported(r.e) == |Concat(ps)| <==> |Concat(ps)| == req.length
  {
    hide Concat, Ins, Bytes;
  }

  lemma StepsPush(r: Run, maxPacket: nat, noRetry: bool, answers: seq<Answer>, a: Answer)
    ensures Steps(r, maxPacket, noRetry, answers + [a]) == Step(Steps(r, maxPacket, noRetry, answers), maxPacket, noRetry, a)
  {
    hide Step;
    assert (answers + [a])[..|answers|] == answers;
  }

  lemma SetupAnswered(e: Engine, req: Request, maxPacket: nat)
    requires req.dirIn && 0 < req.length
    ensures var r := Run(BeginSetup(e, req), [], Running);
      && Step(r, maxPacket, false, Answer(TOKEN_NONE, true, [])) == Run(StageIn(r.e), [Packet(Setup, Data0, Bytes(req))], Running)
      && Length(r.e.tx) == req.length && r.e.tr.stage == 0
  {
    var r := Run(BeginSetup(e, req), [], Running);
    hide Bytes;
    assert r.e.tx[..SETUP_LEN] == Bytes(req);
    RequestBits(req, r.e.tx);
    hide DirIn, Length, StageIn;
  }

  /** A short packet ends the data stage. */
  lemma ShortPacket(r: Run, maxPacket: nat, data: seq<byte>)
    requires r.progress == Running && r.e.tr.pid == In && r.e.tr.stage == 0 && |data| < maxPacket && |data| < r.e.tr.size
    ensures var next := Step(r, maxPacket, false, Answer(TOKEN_DATA0, true, data));
      && next.progress == Running && next.done == r.done + [Packet(In, r.e.tog, data)] && next.e.wanted == r.e.wanted
      && next.e.tr.pid == Out && next.e.tr.stage == 1 && next.e.tr.size == 0 && next.e.txLen == 0 && next.e.tog == Auto
  {
    hide Store;
  }

  lemma StatusPacket(r: Run, maxPacket: nat)
    requires r.progress == Running && r.e.tr.pid == Out && r.e.tr.stage == 1 && r.e.tr.size == 0 && r.e.txLen == 0
    ensures Step(r, maxPacket, false, Answer(TOKEN_NONE, true, [])) == Run(r.e, r.done + [Packet(Out, r.e.tog, [])], Finished)
  {
  }

  lemma FirstIn(e: Engine)
    requires e.tr.stage == 0
    ensures var next := StageIn(e);
      next.tr.pid == In && next.tr.stage == 0 && next.tr.size == Length(e.tx) == next.wanted && next.tog == Data0
  {
  }

  /** A device that answers a request with one short packet: the transfer is
      finished and reports more than has come in. */
  lemma ShortTransferReportsAll(e: Engine, req: Request, maxPacket: nat, data: seq<byte>)
    requires req.dirIn && |data| < maxPacket && |data| < req.length
    ensures var answers := [Answer(TOKEN_NONE, true, [])] + [Answer(TOKEN_DATA0, true, data)] + [Answer(TOKEN_NONE, true, [])];
      var r := Steps(Run(BeginSetup(e, req), [], Running), maxPacket, false, answers);
      && r.progress == Finished && Reported(r.e) == req.length > |data|
      && r.done == [Packet(Setup, Data0, Bytes(req)), Packet(In, Data0, data), Packet(Out, Auto, [])]
  {
    var a1, a2, a3 := Answer(TOKEN_NONE, true, []), Answer(TOKEN_DATA0, true, data), Answer(TOKEN_NONE, true, []);
    var r0 := Run(BeginSetup(e, req), [], Running);
    hide Steps, Step, BeginSetup, Bytes, Length, StageIn;
    assert Step(r0, maxPacket, false, a1) == Steps(r0, maxPacket, false, [a1]) by {
      StepsPush(r0, maxPacket, false, [], a1);
      FromNothing(r0, maxPacket, false);
      assert [] + [a1] == [a1];
    }
    SetupAnswered(e, req, maxPacket);
    var r1 := Run(StageIn(r0.e), [Packet(Setup, Data0, Bytes(req))], Running);
    FirstIn(r0.e);
    ShortPacket(r1, maxPacket, data);
    StepsPush(r0, maxPacket, false, [a1], a2);
    StatusPacket(Step(r1, maxPacket, false, a2), maxPacket);
    StepsPush(r0, maxPacket, false, [a1] + [a2], a3);
  }

  lemma FromNothing(r: Run, maxPacket: nat, noRetry: bool)
    ensures Steps(r, maxPacket, noRetry, []) == r
  {
  }

  /** An IN transfer of `usb_host_in`: no setup, no status. */
  function BeginIn(e: Engine, ep: Endpoint, size: uint16): Engine {
    Begin(e.(wanted := size), In, ep, 2, [], size, Data0)
  }

  /** The transfer so far: the bytes of the packets ps lie in `buffer`, up to the
      STALL that overwrites the first of them, and the sizes say how many they are,
      also when a NAK has ended it. */
  predicate Reading(r: Run, size: uint16, ps: seq<seq<byte>>) {
    var tr := r.e.tr;
    && tr.pid == In && tr.stage == 2 && r.e.wanted == size && r.done == Ins(ps)
    && (r.progress != Aborted(Error) ==> tr.fill == |Concat(ps)| && tr.fill + tr.size == size && HeldUnless(r, ps))
    && (r.progress == Running ==> r.e.tog == InTog(|ps|))
  }

  predicate HeldUnless(r: Run, ps: seq<seq<byte>>) {
    if r.progress == Aborted(Stalled) then
      |Concat(ps)| <= BUFFER && r.e.buffer[0] == 0 && forall i :: 0 < i < |Concat(ps)| ==> r.e.buffer[i] == Concat(ps)[i]
    else Gathered(r.e, ps)
  }

  /** What `state_in_recv` passes on: all that has come in. */
  lemma ReadingReports(r: Run, size: uint16, ps: seq<seq<byte>>)
    requires size <= BUFFER && Reading(r, size, ps) && r.progress != Aborted(Error)
    ensures Reported(r.e) == |Concat(ps)| <= BUFFER
    ensures r.progress != Aborted(Stalled) ==> r.e.buffer[..Reported(r.e)] == Concat(ps)
  {
    hide Concat, Ins;
  }

  /** One packet more. */
  lemma ReadingPacket(r: Run, size: uint16, maxPacket: nat, noRetry: bool, ps: seq<seq<byte>>, a: Answer)
    requires size <= BUFFER && Reading(r, size, ps) && Honest(r, a) && r.progress == Running
    requires Success(a) && a.token != TOKEN_STALL && a.token != TOKEN_NAK
    ensures Reading(Step(r, maxPacket, noRetry, a), size, ps + [a.rx])
  {
    hide Store;
    ConcatPush(ps, a.rx);
    StoredBehind(r.e.buffer, Concat(ps), a.rx);
    hide Concat, Ins, InTog;
    assert InTog(|ps| + 1) == Auto by { LaterTog(|ps|); }
  }

  lemma LaterTog(n: nat)
    ensures InTog(n + 1) == Auto
  {
  }

  lemma StoredBehind(b: Buffer, front: seq<byte>, bytes: seq<byte>)
    requires |front| + |bytes| <= BUFFER && b[..|front|] == front
    ensures Store(b, |front|, bytes)[..|front| + |bytes|] == front + bytes
  {
  }

  /** Any other answer. */
  lemma ReadingEnd(r: Run, size: uint16, maxPacket: nat, noRetry: bool, ps: seq<seq<byte>>, a: Answer)
    requires size <= BUFFER && Reading(r, size, ps) && Honest(r, a) && r.progress == Running
    requires !Success(a) || a.token == TOKEN_STALL
    ensures Reading(Step(r, maxPacket, noRetry, a), size, ps)
  {
    hide Store, Concat, Ins, InTog;
  }

  lemma ReadingStep(r: Run, size: uint16, maxPacket: nat, noRetry: bool, ps: seq<seq<byte>>, a: Answer)
    returns (ps': seq<seq<byte>>)
    requires size <= BUFFER && Reading(r, size, ps) && Honest(r, a)
    ensures Reading(Step(r, maxPacket, noRetry, a), size, ps')
  {
    hide Reading;
    ps' := ps;
    if r.progress == Running {
      hide Step;
      if Success(a) && a.token != TOKEN_STALL {
        ps' := ps + [a.rx];
        ReadingPacket(r, size, maxPacket, noRetry, ps, a);
      } else {
        ReadingEnd(r, size, maxPacket, noRetry, ps, a);
      }
    }
  }

  /** An IN transfer gathers its packets in `buffer`, in order and unchanged, and
      (`ReadingReports`) tells how many bytes they were. */
  lemma {:induction false} InTransferGathers(
    e: Engine, ep: Endpoint, size: uint16, maxPacket: nat, noRetry: bool, answers: seq<Answer>) returns (ps: seq<seq<byte>>)
    requires size <= BUFFER && AllHonest(Run(BeginIn(e, ep, size), [], Running), maxPacket, noRetry, answers)
    ensures var r := Steps(Run(BeginIn(e, ep, size), [], Running), maxPacket, noRetry, answers);
      Reading(r, size, ps)
    decreases |answers|
  {
    if answers == [] {
      ps := [];
    } else {
      hide BeginIn, Step, Honest, Reading;
      var n := |answers| - 1;
      ps := InTransferGathers(e, ep, size, maxPacket, noRetry, answers[..n]);
      ps := ReadingStep(Steps(Run(BeginIn(e, ep, size), [], Running), maxPacket, noRetry, answers[..n]), size, maxPacket, noRetry, ps, answers[n]);
    }
  }
}
