/** Transfers as the poll loops of src/usb/usb_host.c carry them out: the packets
    of one hub's transfer, between which come delays and the other hub's calls. */
module UsbSchedule {
  import opened UsbTransfer
  import opened UsbHost
  import G = UsbGraph

  /** One call of `fsm`. */
  datatype Call = Call(h: nat, env: Env, m: G.Move)

  /** The variables before, between and behind calls. */
  predicate Scheduled(vs: seq<Vars>, cs: seq<Call>) {
    && |vs| == |cs| + 1
    && forall i :: 0 <= i < |cs| ==> FsmStep(vs[i], vs[i + 1], cs[i].h, cs[i].env, cs[i].m)
  }

  // ----- What the scheduler and the engine on its own have in common -------------

  /** The engine once the step that is due has been taken. */
  predicate Due(s: G.St, e: Engine, next: Engine) {
    if s == G.TRANSACTION || s == G.TRANSACTION_RETRY then next == e
    else if s == G.TRANSACTION_CONT then next == Issue(e, Auto)
    else if s == G.TRANSACTION_IN then next == StageIn(e)
    else s == G.TRANSACTION_OUT && next == StageOut(e)
  }

  /** Hub h, in the state b, is at the point of its transfer that r has come to. */
  predicate Follows(b: G.HubCtl, e: Engine, r: Run) {
    if b.st == G.DELAY_US then b.next != G.TRANSACTION && Due(b.next, e, r.e) else Due(b.st, e, r.e)
  }

  /** Hub h has the bus, and the other one is where a hub without it is. */
  predicate HasBus(v: Vars, h: nat) {
    h < 2 && Shaped(v) && v.lock == h && Waits(v.hubs[1 - h].ctl, v.recv)
  }

  predicate Waits(b: G.HubCtl, recv: G.St) {
    G.Good(b, false, recv) && b.st != G.SET_ADDRESS_DONE
  }

  /** So it is wherever the ownership invariant holds. */
  lemma OwnerHasBus(v: Vars, h: nat)
    requires Shaped(v) && G.Inv(Control(v)) && h < 2 && v.lock == h
    ensures HasBus(v, h)
  {
    hide G.Good;
    if h == 0 {} else {}
  }

  /** Hub h drives a transfer that reports to `recv`. */
  predicate Driving(v: Vars, h: nat, recv: G.St, maxPacket: nat, noRetry: bool, r: Run) {
    && HasBus(v, h) && v.recv == recv
    && v.hubs[h].maxPacket[v.e.tr.ep] == maxPacket && v.hubs[h].noRetry == noRetry
    && r.progress == Running && Follows(v.hubs[h].ctl, v.e, r)
  }

  /** The transfer has ended as r has. */
  predicate Over(v: Vars, h: nat, recv: G.St, r: Run) {
    && h < 2 && Shaped(v) && r.progress != Running && v.e == r.e
    && v.hubs[h].ctl.st == (if r.progress == Aborted(Error) then G.HALT else recv)
    && v.lock == (if r.progress == Aborted(Stalled) then G.FREE else h)
  }

  /** A packet of hub h has completed before this call. */
  predicate Answered(v: Vars, c: Call, h: nat) {
    h < 2 && Shaped(v) && c.h == h && v.hubs[h].ctl.st == G.TRANSACTION && c.env.completed
  }

  /** The answers that the calls for hub h have seen. */
  function Answers(vs: seq<Vars>, cs: seq<Call>, h: nat): seq<Answer>
    requires |vs| == |cs| + 1
    decreases |cs|
  {
    if cs == [] then []
    else
      var n := |cs| - 1;
      Answers(vs[..|cs|], cs[..n], h) + if Answered(vs[n], cs[n], h) then [cs[n].env.answer] else []
  }

  /** The packets on the bus that the device has accepted or sent, as the
      registers and the two packet buffers held them. */
  function OnTheBus(vs: seq<Vars>, cs: seq<Call>, h: nat): seq<Packet>
    requires |vs| == |cs| + 1
    decreases |cs|
  {
    if cs == [] then []
    else
      var n := |cs| - 1;
      OnTheBus(vs[..|cs|], cs[..n], h) + Sent(vs[n], cs[n], h)
  }

  function Sent(v: Vars, c: Call, h: nat): seq<Packet> {
    if Answered(v, c, h) && Success(c.env.answer) && c.env.answer.token != TOKEN_STALL then [Completed(v.e, c.env.answer)]
    else []
  }

  // ----- One call -------------------------------------------------------------------

  lemma WaitingMove(b: G.HubCtl, recv: G.St, m: G.Move)
    requires Waits(b, recv) && G.Moves(b, false, recv, m)
    ensures Waits(G.After(b, m), recv) && m.op != G.Take && !m.act.Send?
  {
    hide G.Good, G.Moves, G.After, G.PhaseKept;
    G.GoodOwner(b, false, recv);
    G.TakersOfTheBus(b, false, recv, m);
    G.MoveKeepsGood(b, false, false, recv, m);
  }

  lemma WaitingDetached(b: G.HubCtl, attached: bool, recv: G.St)
    requires Waits(b, recv) && G.Detaches(b, attached)
    ensures Waits(b.(st := G.IDLE), recv)
  {
    hide G.Good;
    G.DetachKeepsGood(b, false, recv);
  }

  lemma OtherMoves(a: Vars, b: Vars, h: nat, env: Env, m: G.Move)
    requires HasBus(a, h) && FsmStep(a, b, 1 - h, env, m)
    ensures HasBus(b, h) && b.hubs[h] == a.hubs[h]
  {
    hide Effect, Choice, G.Moves, G.After, Waits, G.Detaches, AddressRule;
    var mid := Checked(a, 1 - h, env.attached);
    if G.Detaches(a.hubs[1 - h].ctl, env.attached) {
      WaitingDetached(a.hubs[1 - h].ctl, env.attached, a.recv);
    }
    WaitingMove(mid.hubs[1 - h].ctl, mid.recv, m);
  }

  /** The other hub cannot take the bus, nor touch the engine. */
  lemma OtherKeepsBus(a: Vars, b: Vars, h: nat, env: Env, m: G.Move)
    requires HasBus(a, h) && FsmStep(a, b, 1 - h, env, m)
    ensures HasBus(b, h) && b.hubs[h] == a.hubs[h] && b.e == a.e && b.recv == a.recv
    ensures b.epPid == if G.Detaches(a.hubs[1 - h].ctl, env.attached) then 0 else a.epPid
  {
    hide FsmStep, G.Good;
    OtherMoves(a, b, h, env, m);
    OffBusKeepsShared(a, b, 1 - h, env, m);
  }

  lemma OtherDrives(a: Vars, b: Vars, h: nat, env: Env, m: G.Move, recv: G.St, maxPacket: nat, noRetry: bool, r: Run)
    requires h < 2 && FsmStep(a, b, 1 - h, env, m) && Driving(a, h, recv, maxPacket, noRetry, r)
    ensures Driving(b, h, recv, maxPacket, noRetry, r)
  {
    hide FsmStep, Follows, Waits;
    OtherKeepsBus(a, b, h, env, m);
  }

  /** A call for hub h while its device is there. */
  predicate OwnStep(a: Vars, b: Vars, h: nat, env: Env, m: G.Move) {
    h < 2 && Shaped(a) && env.attached && FsmStep(a, b, h, env, m)
  }

  lemma OwnMove(a: Vars, b: Vars, h: nat, env: Env, m: G.Move)
    requires OwnStep(a, b, h, env, m) && G.HID_GET_REPORT < a.hubs[h].ctl.st
    ensures Shaped(b) && b.hubs[h].ctl == G.After(a.hubs[h].ctl, m) && b.lock == G.Lock(a.lock, h, m.op)
    ensures b.recv == if m.act.Send? then m.act.recv else a.recv
    ensures G.TransferMove(a.hubs[h].ctl, a.recv, m)
    ensures b.hubs[1 - h] == a.hubs[1 - h]
    ensures DataOf(b, h) == TransferEffect(DataOf(a, h), a.hubs[h].ctl, a.recv, env)
    ensures TransferChoice(DataOf(a, h), a.hubs[h].ctl, a.recv, env, m)
  {
    hide G.After, G.TransferMove, TransferEffect, TransferChoice, AddressRule;
  }

  lemma DelayDrives(a: Vars, b: Vars, h: nat, env: Env, m: G.Move, recv: G.St, maxPacket: nat, noRetry: bool, r: Run)
    requires OwnStep(a, b, h, env, m) && Driving(a, h, recv, maxPacket, noRetry, r) && a.hubs[h].ctl.st == G.DELAY_US
    ensures Driving(b, h, recv, maxPacket, noRetry, r)
  {
    hide OwnStep, Due, Waits;
    OwnMove(a, b, h, env, m);
    hide G.TransferMove;
  }

  /** The packet that is due is started. */
  lemma StageDrives(a: Vars, b: Vars, h: nat, env: Env, m: G.Move, recv: G.St, maxPacket: nat, noRetry: bool, r: Run)
    requires OwnStep(a, b, h, env, m) && Driving(a, h, recv, maxPacket, noRetry, r)
    requires a.hubs[h].ctl.st != G.DELAY_US && a.hubs[h].ctl.st != G.TRANSACTION
    ensures Driving(b, h, recv, maxPacket, noRetry, r)
    ensures b.hubs[h].ctl.st == G.TRANSACTION && b.epPid == 16 * PidCode(b.e.tr.pid) + b.e.tr.ep
  {
    hide OwnStep, TransferChoice, Waits;
    OwnMove(a, b, h, env, m);
  }

  lemma WaitDrives(a: Vars, b: Vars, h: nat, env: Env, m: G.Move, recv: G.St, maxPacket: nat, noRetry: bool, r: Run)
    requires OwnStep(a, b, h, env, m) && Driving(a, h, recv, maxPacket, noRetry, r)
    requires a.hubs[h].ctl.st == G.TRANSACTION && !env.completed
    ensures Driving(b, h, recv, maxPacket, noRetry, r)
  {
    hide OwnStep, Waits;
    OwnMove(a, b, h, env, m);
    hide G.TransferMove;
  }

  /** What the verdict on a packet says of the run on its own. */
  lemma VerdictStep(r: Run, maxPacket: nat, noRetry: bool, a: Answer)
    requires r.progress == Running
    ensures var c := Complete(r.e, maxPacket, noRetry, a);
      && Step(r, maxPacket, noRetry, a).e == (if c.v == Retry then r.e else Next(c))
      && Step(r, maxPacket, noRetry, a).progress ==
           (match c.v case Finish => Finished case Continue => Running case StartIn => Running
                      case StartOut => Running case Retry => Running case _ => Aborted(c.v))
      && Step(r, maxPacket, noRetry, a).done ==
           r.done + (if Success(a) && a.token != TOKEN_STALL then [Completed(r.e, a)] else [])
      && (c.v == Retry ==> c.e == r.e) && c.e.tr.ep == r.e.tr.ep
  {
    hide Issue, StageIn, StageOut, DirIn, Length, Store;
  }

  lemma PacketDrives(a: Vars, b: Vars, h: nat, env: Env, m: G.Move, recv: G.St, maxPacket: nat, noRetry: bool, r: Run)
    requires OwnStep(a, b, h, env, m) && Driving(a, h, recv, maxPacket, noRetry, r)
    requires a.hubs[h].ctl.st == G.TRANSACTION && env.completed
    ensures var r' := Step(r, maxPacket, noRetry, env.answer);
      if r'.progress == Running then Driving(b, h, recv, maxPacket, noRetry, r') else Over(b, h, recv, r')
  {
    hide OwnStep, Waits, Complete, Step, Issue, StageIn, StageOut;
    OwnMove(a, b, h, env, m);
    hide G.TransferMove;
    VerdictStep(r, maxPacket, noRetry, env.answer);
  }

  /** The run after a call: one step further if the call saw an answer. */
  function Seen(v: Vars, c: Call, h: nat, maxPacket: nat, noRetry: bool, r: Run): Run {
    if Answered(v, c, h) then Step(r, maxPacket, noRetry, c.env.answer) else r
  }

  /** One call of either hub; hub h keeps its device. */
  lemma CallDrives(a: Vars, b: Vars, c: Call, h: nat, recv: G.St, maxPacket: nat, noRetry: bool, r: Run)
    requires FsmStep(a, b, c.h, c.env, c.m) && Driving(a, h, recv, maxPacket, noRetry, r)
    requires c.h == h ==> c.env.attached
    ensures var r' := Seen(a, c, h, maxPacket, noRetry, r);
      && (if r'.progress == Running then Driving(b, h, recv, maxPacket, noRetry, r') else Over(b, h, recv, r'))
      && r'.done == r.done + Sent(a, c, h)
  {
    hide Driving, Over, Step, Complete, Completed, FsmStep;
    CallerIsAHub(a, b, c, h, recv, maxPacket, noRetry, r);
    DrivingStates(a, h, recv, maxPacket, noRetry, r);
    if c.h != h {
      assert c.h == 1 - h;
      OtherDrives(a, b, h, c.env, c.m, recv, maxPacket, noRetry, r);
    } else if a.hubs[h].ctl.st == G.DELAY_US {
      DelayDrives(a, b, h, c.env, c.m, recv, maxPacket, noRetry, r);
    } else if a.hubs[h].ctl.st != G.TRANSACTION {
      StageDrives(a, b, h, c.env, c.m, recv, maxPacket, noRetry, r);
    } else if !c.env.completed {
      WaitDrives(a, b, h, c.env, c.m, recv, maxPacket, noRetry, r);
    } else {
      PacketDrives(a, b, h, c.env, c.m, recv, maxPacket, noRetry, r);
      VerdictStep(r, maxPacket, noRetry, c.env.answer);
    }
  }

  lemma CallerIsAHub(a: Vars, b: Vars, c: Call, h: nat, recv: G.St, maxPacket: nat, noRetry: bool, r: Run)
    requires FsmStep(a, b, c.h, c.env, c.m) && Driving(a, h, recv, maxPacket, noRetry, r)
    ensures c.h < 2 && h < 2
  {
    hide Dispatched, Follows;
  }

  lemma DrivingStates(a: Vars, h: nat, recv: G.St, maxPacket: nat, noRetry: bool, r: Run)
    requires Driving(a, h, recv, maxPacket, noRetry, r)
    ensures h < 2 && Shaped(a) && r.progress == Running && G.InEngine(a.hubs[h].ctl)
    ensures a.hubs[h].ctl.st == G.TRANSACTION ==> r.e == a.e
  {
    hide Issue, StageIn, StageOut;
  }

  lemma OverLeaves(v: Vars, h: nat, recv: G.St, r: Run)
    requires Over(v, h, recv, r) && G.Reports(recv)
    ensures h < 2 && Shaped(v) && !G.InEngine(v.hubs[h].ctl) && v.e == r.e
    ensures v.hubs[h].ctl.st == recv <==> r.progress != Aborted(Error)
    ensures v.lock == h <==> r.progress != Aborted(Stalled)
  {
  }

  // ----- A whole transfer ---------------------------------------------------------------

  /** The device of hub h stays, and its transfer goes on up to the last call. */
  predicate InTransfer(vs: seq<Vars>, cs: seq<Call>, h: nat)
    requires |vs| == |cs| + 1
  {
    forall i :: 0 <= i < |cs| ==>
      && (cs[i].h == h ==> cs[i].env.attached)
      && h < 2 && Shaped(vs[i]) && G.InEngine(vs[i].hubs[h].ctl)
  }

  lemma AllButLast(vs: seq<Vars>, cs: seq<Call>, h: nat)
    requires Scheduled(vs, cs) && InTransfer(vs, cs, h) && cs != []
    ensures var n := |cs| - 1;
      && Scheduled(vs[..|cs|], cs[..n]) && InTransfer(vs[..|cs|], cs[..n], h) && vs[..|cs|][n] == vs[n] && vs[..|cs|][0] == vs[0]
      && FsmStep(vs[n], vs[|cs|], cs[n].h, cs[n].env, cs[n].m) && (cs[n].h == h ==> cs[n].env.attached)
      && h < 2 && Shaped(vs[n]) && G.InEngine(vs[n].hubs[h].ctl)
  {
    hide FsmStep;
  }

  lemma LastCall(vs: seq<Vars>, cs: seq<Call>, h: nat, maxPacket: nat, noRetry: bool, r0: Run)
    requires |vs| == |cs| + 1 && cs != []
    ensures var n := |cs| - 1;
      && OnTheBus(vs, cs, h) == OnTheBus(vs[..|cs|], cs[..n], h) + Sent(vs[n], cs[n], h)
      && Steps(r0, maxPacket, noRetry, Answers(vs, cs, h)) ==
           Seen(vs[n], cs[n], h, maxPacket, noRetry, Steps(r0, maxPacket, noRetry, Answers(vs[..|cs|], cs[..n], h)))
  {
    hide Step, Answered, Sent;
    var n := |cs| - 1;
    var before := Answers(vs[..|cs|], cs[..n], h);
    if Answered(vs[n], cs[n], h) {
      assert (before + [cs[n].env.answer])[..|before|] == before;
    } else {
      assert before + [] == before;
    }
  }

  /** Between the packets of a transfer come delays, retries and any calls of the
      other hub's `fsm`, also ones that attach, enumerate or detach its device:
      what is on the bus and in the engine is what the engine on its own makes of
      the answers. */
  lemma {:induction false} RunDrives(
    vs: seq<Vars>, cs: seq<Call>, h: nat, recv: G.St, maxPacket: nat, noRetry: bool, r0: Run)
    requires Scheduled(vs, cs) && InTransfer(vs, cs, h) && G.Reports(recv)
    requires Driving(vs[0], h, recv, maxPacket, noRetry, r0) && r0.done == []
    ensures var r := Steps(r0, maxPacket, noRetry, Answers(vs, cs, h)); var v := vs[|cs|];
      && OnTheBus(vs, cs, h) == r.done
      && (if r.progress == Running then Driving(v, h, recv, maxPacket, noRetry, r) else Over(v, h, recv, r))
    decreases |cs|
  {
    if cs != [] {
      hide *;
      var n := |cs| - 1;
      AllButLast(vs, cs, h);
      RunDrives(vs[..|cs|], cs[..n], h, recv, maxPacket, noRetry, r0);
      LastCall(vs, cs, h, maxPacket, noRetry, r0);
      var r := Steps(r0, maxPacket, noRetry, Answers(vs[..|cs|], cs[..n], h));
      if r.progress != Running {
        OverLeaves(vs[n], h, recv, r);
      }
      CallDrives(vs[n], vs[|cs|], cs[n], h, recv, maxPacket, noRetry, r);
    } else {
      hide Driving;
      DrivingStates(vs[0], h, recv, maxPacket, noRetry, r0);
    }
  }

  /** From the first packet of a control transfer on, over any interleaving of the
      calls of both hubs: the packets on the bus and the data buffer have the
      shape of USB 2.0 section 8.5.3, and the hub reports a finished transfer as
      the owner of the bus. */
  lemma ScheduledControlTransfer(
    vs: seq<Vars>, cs: seq<Call>, h: nat, recv: G.St, maxPacket: nat, noRetry: bool, e0: Engine, req: Request)
    returns (ps: seq<seq<byte>>)
    requires Plain(req) && Scheduled(vs, cs) && InTransfer(vs, cs, h) && G.Reports(recv)
    requires Driving(vs[0], h, recv, maxPacket, noRetry, Run(BeginSetup(e0, req), [], Running))
    requires AllHonest(Run(BeginSetup(e0, req), [], Running), maxPacket, noRetry, Answers(vs, cs, h))
    ensures var r := Steps(Run(BeginSetup(e0, req), [], Running), maxPacket, noRetry, Answers(vs, cs, h)); var v := vs[|cs|];
      && OnTheBus(vs, cs, h) == r.done && Shape(r, req, e0.buffer, maxPacket, ps)
      && h < 2 && Shaped(v) && (r.progress == Running <==> G.InEngine(v.hubs[h].ctl))
      && (r.progress != Running ==> v.e == r.e)
      && (r.progress == Finished ==>
            v.hubs[h].ctl.st == recv && v.lock == h && Transferred(OnTheBus(vs, cs, h), req, e0.buffer, ps)
            && (req.dirIn ==> Gathered(v.e, ps) && DataStage(ps, req.length, maxPacket)))
  {
    hide Driving, Over, BeginSetup, Step, Steps, Answers, OnTheBus, FsmStep, InTransfer, AllHonest, Shape, Transferred, Gathered, DataStage;
    var r0 := Run(BeginSetup(e0, req), [], Running);
    var answers := Answers(vs, cs, h);
    RunDrives(vs, cs, h, recv, maxPacket, noRetry, r0);
    ps := ControlTransferShape(e0, req, maxPacket, noRetry, answers);
    var r := Steps(r0, maxPacket, noRetry, answers);
    if r.progress == Running {
      DrivingStates(vs[|cs|], h, recv, maxPacket, noRetry, r);
    } else {
      OverLeaves(vs[|cs|], h, recv, r);
      if r.progress == Finished {
        FinishedShape(r, req, e0.buffer, maxPacket, ps);
      }
    }
  }

  lemma FinishedShape(r: Run, req: Request, payload: Buffer, maxPacket: nat, ps: seq<seq<byte>>)
    requires r.progress == Finished && Shape(r, req, payload, maxPacket, ps)
    ensures Transferred(r.done, req, payload, ps)
    ensures req.dirIn ==> Gathered(r.e, ps) && DataStage(ps, req.length, maxPacket)
  {
    hide Transferred, Gathered, DataStage;
  }

  /** ... and it ends: without a STALL or an error it lasts for fewer answers than
      the packets of its data and two more, whatever NAKs and calls of the other
      hub interleave, and behind it the hub is in the state it reports to. */
  lemma ScheduledTransferCompletes(
    vs: seq<Vars>, cs: seq<Call>, h: nat, recv: G.St, maxPacket: nat, e0: Engine, req: Request)
    requires Plain(req) && Scheduled(vs, cs) && InTransfer(vs, cs, h) && G.Reports(recv)
    requires Driving(vs[0], h, recv, maxPacket, false, Run(BeginSetup(e0, req), [], Running))
    requires AllHonest(Run(BeginSetup(e0, req), [], Running), maxPacket, false, Answers(vs, cs, h))
    requires maxPacket > 0 && Clean(Answers(vs, cs, h))
    ensures var v := vs[|cs|];
      && h < 2 && Shaped(v)
      && if G.InEngine(v.hubs[h].ctl) then Successes(Answers(vs, cs, h)) < Packets(req.length, maxPacket) + 2
         else v.hubs[h].ctl.st == recv && v.lock == h
  {
    hide Driving, BeginSetup, Step, Steps, Answers, OnTheBus, FsmStep, InTransfer, AllHonest, Clean, Successes, Shape, Packets, Needed;
    var answers := Answers(vs, cs, h);
    var ps := ScheduledControlTransfer(vs, cs, h, recv, maxPacket, false, e0, req);
    TransferProgress(e0, req, maxPacket, answers);
    var r := Steps(Run(BeginSetup(e0, req), [], Running), maxPacket, false, answers);
    if r.progress == Running {
      StillNeeded(r, req.length, maxPacket);
    }
  }

  // ----- The start of a transfer --------------------------------------------------------

  lemma LaunchedOwner(a: Vars, b: Vars, h: nat, recv: G.St, d: Data)
    requires Launched(a, b, h, recv, d)
    ensures b.hubs[h].ctl.st == G.TRANSACTION && b.lock == h && b.recv == recv && G.Reports(recv)
  {
    assert Control(b).hubs[h] == b.hubs[h].ctl && Control(b).lock == b.lock && Control(b).recv == b.recv by {
      if h == 0 {} else {}
    }
  }

  lemma SetupFrame(e: Engine, req: Request)
    ensures BeginSetup(e, req).tr.ep == 0
  {
  }

  /** A request that has been started is at its first packet. */
  lemma RequestedDrives(b: Vars, h: nat, recv: G.St, d: Data, req: Request)
    requires HasBus(b, h) && b.recv == recv && b.hubs[h].ctl.st == G.TRANSACTION && DataOf(b, h) == Requested(d, req)
    ensures Driving(b, h, recv, d.hub.maxPacket[0], d.hub.noRetry, Run(BeginSetup(d.e, req), [], Running))
  {
    hide HasBus, BeginSetup;
    assert Shaped(b) && h < 2 by { BusShape(b, h); }
    SetupFrame(d.e, req);
    assert DataOf(b, h).hub.maxPacket == b.hubs[h].maxPacket && DataOf(b, h).hub.noRetry == b.hubs[h].noRetry;
  }

  lemma BusShape(v: Vars, h: nat)
    requires HasBus(v, h)
    ensures Shaped(v) && h < 2
  {
  }

  /** An accepted control transfer is at its first packet. */
  lemma LaunchDrives(a: Vars, b: Vars, h: nat, recv: G.St, d: Data, req: Request)
    requires Launched(a, b, h, recv, Requested(d, req)) && G.Inv(Control(b))
    ensures Driving(b, h, recv, d.hub.maxPacket[0], d.hub.noRetry, Run(BeginSetup(d.e, req), [], Running)) && G.Reports(recv)
  {
    hide HasBus, G.Good, Requested, Driving;
    LaunchedOwner(a, b, h, recv, Requested(d, req));
    OwnerHasBus(b, h);
    RequestedDrives(b, h, recv, d, req);
  }

  /** A transfer that `usb_host_setup` has started: as long as hub h keeps its
      device and the transfer lasts, whatever the other hub does. */
  lemma SetupIsCarriedOut(a: Vars, vs: seq<Vars>, cs: seq<Call>, h: nat, recv: G.St, d: Data, req: Request)
    returns (ps: seq<seq<byte>>)
    requires Plain(req) && Scheduled(vs, cs) && InTransfer(vs, cs, h)
    requires Launched(a, vs[0], h, recv, Requested(d, req)) && G.Inv(Control(vs[0]))
    requires AllHonest(Run(BeginSetup(d.e, req), [], Running), d.hub.maxPacket[0], d.hub.noRetry, Answers(vs, cs, h))
    ensures var v := vs[|cs|];
      var r := Steps(Run(BeginSetup(d.e, req), [], Running), d.hub.maxPacket[0], d.hub.noRetry, Answers(vs, cs, h));
      && Shaped(v) && OnTheBus(vs, cs, h) == r.done && (r.progress == Running <==> G.InEngine(v.hubs[h].ctl))
      && (r.progress == Finished ==>
            v.hubs[h].ctl.st == recv && v.lock == h && Transferred(OnTheBus(vs, cs, h), req, d.e.buffer, ps)
            && (req.dirIn ==> Gathered(v.e, ps) && DataStage(ps, req.length, d.hub.maxPacket[0]) && Reported(v.e) == req.length))
  {
    hide Driving, BeginSetup, Step, Steps, Answers, OnTheBus, FsmStep, InTransfer, AllHonest, Shape, Transferred, Gathered, DataStage,
      Launched, Reported, Requested, G.Inv;
    LaunchDrives(a, vs[0], h, recv, d, req);
    ps := ScheduledControlTransfer(vs, cs, h, recv, d.hub.maxPacket[0], d.hub.noRetry, d.e, req);
    var r := Steps(Run(BeginSetup(d.e, req), [], Running), d.hub.maxPacket[0], d.hub.noRetry, Answers(vs, cs, h));
    if r.progress == Finished && req.dirIn {
      ControlReport(r, req, d.e.buffer, d.hub.maxPacket[0], ps);
    }
  }

  // ----- IN transfers of usb_host_in --------------------------------------------------------

  /** From its first packet on, over any interleaving of the calls of both hubs,
      also when a NAK ends it: what came in on the bus is what lies in the buffer,
      up to the STALL that overwrites the first byte, and what is reported. */
  lemma ScheduledInTransfer(
    vs: seq<Vars>, cs: seq<Call>, h: nat, maxPacket: nat, noRetry: bool, e0: Engine, ep: Endpoint, size: uint16)
    returns (ps: seq<seq<byte>>)
    requires size <= BUFFER && Scheduled(vs, cs) && InTransfer(vs, cs, h)
    requires Driving(vs[0], h, G.IN_RECV, maxPacket, noRetry, Run(BeginIn(e0, ep, size), [], Running))
    requires AllHonest(Run(BeginIn(e0, ep, size), [], Running), maxPacket, noRetry, Answers(vs, cs, h))
    ensures var r := Steps(Run(BeginIn(e0, ep, size), [], Running), maxPacket, noRetry, Answers(vs, cs, h)); var v := vs[|cs|];
      && OnTheBus(vs, cs, h) == r.done && h < 2 && Shaped(v) && (r.progress == Running <==> G.InEngine(v.hubs[h].ctl))
      && (v.hubs[h].ctl.st == G.IN_RECV ==>
            && OnTheBus(vs, cs, h) == Ins(ps) && Reported(v.e) == |Concat(ps)| <= BUFFER
            && (v.lock == h ==> v.e.buffer[..Reported(v.e)] == Concat(ps)))
  {
    hide Driving, Over, BeginIn, Step, Steps, Answers, OnTheBus, FsmStep, InTransfer, AllHonest, Reading, Reported, Concat, Ins;
    var r0 := Run(BeginIn(e0, ep, size), [], Running);
    RunDrives(vs, cs, h, G.IN_RECV, maxPacket, noRetry, r0);
    ps := InTransferGathers(e0, ep, size, maxPacket, noRetry, Answers(vs, cs, h));
    var r := Steps(r0, maxPacket, noRetry, Answers(vs, cs, h));
    if r.progress == Running {
      DrivingStates(vs[|cs|], h, G.IN_RECV, maxPacket, noRetry, r);
    } else {
      OverLeaves(vs[|cs|], h, G.IN_RECV, r);
      ReadingOnBus(r, size, ps);
      if r.progress != Aborted(Error) {
        ReadingReports(r, size, ps);
      }
    }
  }

  lemma ReadingOnBus(r: Run, size: uint16, ps: seq<seq<byte>>)
    requires Reading(r, size, ps)
    ensures r.done == Ins(ps)
  {
    hide Concat, Ins;
  }

  /** The data of an accepted `usb_host_in`. */
  function InAsked(d: Data, ep: byte, size: uint16): Data {
    Reissued(d.(hub := d.hub.(noRetry := true)), BeginIn(d.e, EndpointOf(ep), size))
  }

  lemma LaunchInDrives(a: Vars, b: Vars, h: nat, d: Data, ep: byte, size: uint16)
    requires Launched(a, b, h, G.IN_RECV, InAsked(d, ep, size)) && G.Inv(Control(b))
    ensures Driving(b, h, G.IN_RECV, d.hub.maxPacket[EndpointOf(ep)], true, Run(BeginIn(d.e, EndpointOf(ep), size), [], Running))
  {
    hide HasBus, G.Good;
    LaunchedOwner(a, b, h, G.IN_RECV, InAsked(d, ep, size));
    OwnerHasBus(b, h);
    assert DataOf(b, h).hub.maxPacket == b.hubs[h].maxPacket && DataOf(b, h).e == b.e && DataOf(b, h).hub.noRetry == b.hubs[h].noRetry;
  }

  /** An accepted `usb_host_in` is carried out in this way. */
  lemma InIsCarriedOut(a: Vars, vs: seq<Vars>, cs: seq<Call>, h: nat, d: Data, ep: byte, size: uint16)
    returns (ps: seq<seq<byte>>)
    requires size <= BUFFER && Scheduled(vs, cs) && InTransfer(vs, cs, h)
    requires Launched(a, vs[0], h, G.IN_RECV, InAsked(d, ep, size)) && G.Inv(Control(vs[0]))
    requires AllHonest(Run(BeginIn(d.e, EndpointOf(ep), size), [], Running), d.hub.maxPacket[EndpointOf(ep)], true, Answers(vs, cs, h))
    ensures var v := vs[|cs|];
      && Shaped(v)
      && (v.hubs[h].ctl.st == G.IN_RECV && v.lock == h ==>
            && OnTheBus(vs, cs, h) == Ins(ps) && Reported(v.e) == |Concat(ps)| <= BUFFER
            && v.e.buffer[..Reported(v.e)] == Concat(ps))
  {
    hide Driving, BeginIn, Step, Steps, Answers, OnTheBus, FsmStep, InTransfer, AllHonest, Reported, Concat, Ins, Launched, InAsked, G.Inv;
    LaunchInDrives(a, vs[0], h, d, ep, size);
    ps := ScheduledInTransfer(vs, cs, h, d.hub.maxPacket[EndpointOf(ep)], true, d.e, EndpointOf(ep), size);
  }

  // ----- What is sent ---------------------------------------------------------------------

  /** The data stage of an OUT request carries the caller's bytes. */
  lemma PayloadIsSent(d: Data, req: Request, data: seq<byte>)
    requires req.length <= |data| && req.length <= BUFFER
    ensures OutData(req, WithPayload(d, data[..req.length]).e.buffer) == if req.length == 0 then [] else [Packet(Out, Auto, data[..req.length])]
  {
    var b := WithPayload(d, data[..req.length]).e.buffer;
    assert b[..req.length] == data[..req.length];
  }

  // ----- The requests of an enumeration ---------------------------------------------------

  lemma OpeningRequest(d0: Data, b: G.HubCtl, h: nat, free: bool, present: bool, m: G.Move) returns (d: Data, req: Request)
    requires h < 2 && G.OpeningMove(b, free, m) && m.act.Send? && OpeningChoice(d0, b, present, m)
    ensures OpeningEffect(d0, b, h, m) == Requested(d, req) && G.Reports(m.act.recv)
  {
    hide BeginSetup, Bytes;
    if b.st == G.SET_ADDRESS {
      req := d0.reqs.setAddress.(value := Target(d0.hub, h));
      d := d0.(reqs := d0.reqs.(setAddress := req));
    } else if b.st == G.GET_DEVICE_DESC {
      req := d0.reqs.getDevice.(length := if b.initial then 0x08 else 0x12);
      d := d0.(reqs := d0.reqs.(getDevice := req));
    } else {
      req := d0.reqs.getString.(value := Word(d0.strings[FirstString(d0.strings)], DESC_STRING));
      d := d0.(reqs := d0.reqs.(getString := req));
    }
  }

  lemma DescriptorRequest(d0: Data, b: G.HubCtl, iface: Option<byte>, m: G.Move) returns (d: Data, req: Request)
    requires G.DescriptorMove(b, m) && m.act.Send?
    ensures DescriptorEffect(d0, b, iface, m) == Requested(d, req) && G.Reports(m.act.recv)
  {
    hide BeginSetup, Bytes, StringRead, ConfigurationRead;
    d := if b.st == G.SET_FEATURE then d0.(hub := d0.hub.(noRetry := true)) else d0;
    req := if b.st == G.GET_CONFIGURATION_DESC then d0.reqs.getConfig
           else if b.st == G.SET_CONFIGURATION then d0.reqs.setConfig
           else if b.st == G.SET_FEATURE then d0.reqs.setFeature
           else d0.reqs.getHidReport;
  }

  lemma ClassRequest(d0: Data, b: G.HubCtl, m: G.Move) returns (d: Data, req: Request)
    requires G.ClassMove(b, m) && m.act.Send? && ClassChoice(d0, b, m)
    ensures ClassEffect(d0, b) == Requested(d, req) && G.Reports(m.act.recv)
  {
    hide BeginSetup, Bytes, HubRead, PortsDone, NextPort;
    d := d0;
    if b.st == G.HID_SET_PROTOCOL {
      req := d0.reqs.hidSetProtocol.(value := if d0.hub.boot == Selected then 0 else 1);
      d := d0.(reqs := d0.reqs.(hidSetProtocol := req));
    } else {
      req := if b.st == G.GET_HUB_DESC then d0.reqs.getHub
             else if b.st == G.SET_PORT_POWER_FEATURE then d0.reqs.setPortPower
             else d0.reqs.clearPort;
    }
  }

  /** What a handler sends it sends as the owner of the bus. */
  lemma SenderOwns(a: Vars, b: Vars, h: nat, env: Env, m: G.Move)
    requires FsmStep(a, b, h, env, m) && m.act.Send? && G.Inv(Control(a))
    ensures b.lock == h
  {
    hide G.Good, G.Moves, G.After, Effect, Choice, AddressRule;
    var mid := Checked(a, h, env.attached);
    G.DetachKeepsInv(Control(a), h, env.attached);
    assert Control(mid) == G.Detach(Control(a), h, env.attached) by {
      if h == 0 {} else {}
    }
    assert G.Good(mid.hubs[h].ctl, mid.lock == h, mid.recv) && (mid.hubs[h].ctl.st == G.SET_ADDRESS_DONE ==> mid.lock == h || mid.lock == G.FREE) by {
      if h == 0 {} else {}
    }
    if G.Stalls(mid.hubs[h].ctl, m) {
      G.StallReports(mid.hubs[h].ctl, mid.lock == G.FREE, mid.recv, m);
    }
    G.MoveKeepsGood(mid.hubs[h].ctl, mid.lock == h, mid.lock == G.FREE, mid.recv, m);
  }

  lemma SenderHasBus(a: Vars, b: Vars, h: nat, env: Env, m: G.Move)
    requires FsmStep(a, b, h, env, m) && G.Inv(Control(a)) && !G.Transient(a.hubs[1 - h].ctl) && b.lock == h
    ensures HasBus(b, h)
  {
    hide G.Good, G.Moves, G.After, Effect, Choice, AddressRule;
    var mid := Checked(a, h, env.attached);
    G.TakersOfTheBus(mid.hubs[h].ctl, mid.lock == G.FREE, mid.recv, m);
    assert G.Good(a.hubs[1 - h].ctl, false, a.recv) by {
      if h == 0 {} else {}
    }
    G.OtherKeepsGood(a.hubs[1 - h].ctl, a.recv, b.recv);
  }

  /** Every request of an enumeration is carried out the same way. */
  lemma RequestDrives(a: Vars, b: Vars, h: nat, env: Env, m: G.Move) returns (d: Data, req: Request)
    requires FsmStep(a, b, h, env, m) && m.act.Send? && !G.Engine(Checked(a, h, env.attached).hubs[h].ctl.st)
    requires G.Inv(Control(a)) && !G.Transient(a.hubs[1 - h].ctl)
    ensures Driving(b, h, m.act.recv, d.hub.maxPacket[0], d.hub.noRetry, Run(BeginSetup(d.e, req), [], Running))
    ensures G.Reports(m.act.recv)
  {
    hide G.OpeningMove, G.DescriptorMove, G.ClassMove, OpeningEffect, DescriptorEffect, ClassEffect, TransferEffect,
      OpeningChoice, DescriptorChoice, ClassChoice, TransferChoice, AddressRule, BeginSetup, Requested, Driving;
    var mid := Checked(a, h, env.attached);
    var ctl, d0 := mid.hubs[h].ctl, DataOf(mid, h);
    assert HasBus(b, h) by {
      SenderOwns(a, b, h, env, m);
      SenderHasBus(a, b, h, env, m);
    }
    hide HasBus;
    if ctl.st <= G.GET_STRING_DESC {
      d, req := OpeningRequest(d0, ctl, h, mid.lock == G.FREE, env.present, m);
    } else if ctl.st <= G.GET_HID_REPORT_DESC {
      d, req := DescriptorRequest(d0, ctl, env.iface, m);
    } else {
      d, req := ClassRequest(d0, ctl, m);
    }
    RequestedDrives(b, h, m.act.recv, d, req);
  }

  /** What the second look at a device notes is what the device has sent. */
  lemma DescriptorAsSent(v: Vars, b: Vars, h: nat, env: Env, m: G.Move, ps: seq<seq<byte>>)
    requires OwnStep(v, b, h, env, m) && v.hubs[h].ctl.st == G.GET_DEVICE_DESC_RECV && !v.hubs[h].ctl.initial
    requires Gathered(v.e, ps) && |Concat(ps)| >= 17
    ensures var sent := Concat(ps); var hub := b.hubs[h];
      && hub.maxPacket[0] == sent[7] && (hub.isHid <==> sent[4] == CLASS_HID) && (hub.ports == 1 <==> sent[4] == CLASS_HUB)
      && hub.boot == BootOf(sent[4], sent[5], sent[6]) && b.strings == sent[14..17]
  {
    hide G.Moves, G.After, AddressRule, BootOf, Concat, DescriptorEffect, ClassEffect, TransferEffect,
      OpeningChoice, DescriptorChoice, ClassChoice, TransferChoice, StringAsked, AddressSent, DeviceAsked;
    var sent := Concat(ps);
    assert forall i :: 0 <= i < 17 ==> v.e.buffer[i] == v.e.buffer[..|sent|][i];
    assert DataOf(b, h).hub.(ctl := b.hubs[h].ctl) == b.hubs[h];
  }

  // ----- A detach beside a transfer -------------------------------------------------------

  /** Hub h waits for a packet that the controller has been told to stop. */
  predicate Stranded(a: Vars, v: Vars, h: nat) {
    HasBus(v, h) && Shaped(a) && v.hubs[h] == a.hubs[h] && v.e == a.e && v.epPid == 0
  }

  /** The controller completes no packet while UH_EP_PID is zero. */
  predicate StopsOnZero(vs: seq<Vars>, cs: seq<Call>, h: nat)
    requires |vs| == |cs| + 1
  {
    forall i :: 0 <= i < |cs| && cs[i].h == h && vs[i].epPid == 0 ==> !cs[i].env.completed
  }

  /** When the other hub's device goes while a packet is on the bus, the check at
      the head of `fsm` stops that packet (usb_host.c:878), and no call ever starts
      a packet again: hub h stays in TRANSACTION and keeps the bus until its own
      device goes too. */
  lemma {:induction false} DetachStrandsTransfer(vs: seq<Vars>, cs: seq<Call>, h: nat)
    requires Scheduled(vs, cs) && cs != [] && HasBus(vs[0], h) && vs[0].hubs[h].ctl.st == G.TRANSACTION
    requires cs[0].h == 1 - h && G.Detaches(vs[0].hubs[1 - h].ctl, cs[0].env.attached)
    requires forall i :: 0 <= i < |cs| && cs[i].h == h ==> cs[i].env.attached
    requires StopsOnZero(vs, cs, h)
    ensures Stranded(vs[0], vs[|cs|], h)
    decreases |cs|
  {
    var n := |cs| - 1;
    hide FsmStep, G.Detaches, Waits;
    if n == 0 {
      OtherKeepsBus(vs[0], vs[1], h, cs[0].env, cs[0].m);
    } else {
      DetachStrandsTransfer(vs[..|cs|], cs[..n], h);
      if cs[n].h == h {
        WaitingStays(vs[n], vs[n + 1], h, cs[n].env, cs[n].m);
      } else {
        assert cs[n].h == 1 - h by { CalledHub(vs[n], vs[n + 1], cs[n]); }
        OtherKeepsBus(vs[n], vs[n + 1], h, cs[n].env, cs[n].m);
      }
    }
  }

  lemma CalledHub(a: Vars, b: Vars, c: Call)
    requires FsmStep(a, b, c.h, c.env, c.m)
    ensures c.h < 2
  {
    hide Dispatched;
  }

  lemma WaitingStays(a: Vars, b: Vars, h: nat, env: Env, m: G.Move)
    requires OwnStep(a, b, h, env, m) && a.hubs[h].ctl.st == G.TRANSACTION && !env.completed
    ensures Shaped(b) && b.lock == a.lock && b.hubs == a.hubs && b.e == a.e && b.epPid == a.epPid && b.recv == a.recv
  {
    hide FsmStep;
    OwnMove(a, b, h, env, m);
    hide G.TransferMove;
    assert b.hubs[h] == DataOf(b, h).hub.(ctl := b.hubs[h].ctl);
    assert b.hubs[h] == a.hubs[h] && b.hubs[1 - h] == a.hubs[1 - h];
    if h == 0 {} else {}
  }

  // ----- A run that leads there -------------------------------------------------------------

  /** The device is there, every delay is over, no packet has completed. */
  const PLUGGED := Env(true, true, true, false, Answer(TOKEN_NAK, false, []), None)

  /** The control state behind a call with a device that is there: a delay ends, or
      the next step of the first enumeration pass is taken. */
  function Plugged(b: G.HubCtl): G.HubCtl {
    if G.Delay(b.st) then b.(st := b.next)
    else if b.st == G.IDLE then b.(st := G.DELAY_MS, next := G.CONNECT)
    else if b.st == G.CONNECT then G.HubCtl(G.DELAY_MS, G.RESET, true, true)
    else if b.st == G.RESET then b.(st := G.DELAY_US, next := G.ENABLE)
    else b.(st := G.DELAY_MS, next := G.GET_DEVICE_DESC, resetting := false)
  }

  predicate Early(b: G.HubCtl) {
    b.st == G.IDLE || b.st == G.CONNECT || b.st == G.RESET || (b.st == G.ENABLE && b.initial)
  }

  lemma EarlyCall(a: Vars, b: Vars, h: nat, m: G.Move)
    requires FsmStep(a, b, h, PLUGGED, m) && Early(a.hubs[h].ctl)
    ensures Shaped(b) && b.hubs[h].ctl == Plugged(a.hubs[h].ctl) && b.hubs[1 - h] == a.hubs[1 - h] && b.lock == a.lock
  {
    hide Effect, DescriptorChoice, ClassChoice, TransferChoice, AddressRule, G.DescriptorMove, G.ClassMove, G.TransferMove;
  }

  lemma DelayCall(a: Vars, b: Vars, h: nat, m: G.Move)
    requires FsmStep(a, b, h, PLUGGED, m) && G.Delay(a.hubs[h].ctl.st)
    ensures Shaped(b) && b.hubs[h].ctl == Plugged(a.hubs[h].ctl) && b.hubs[1 - h] == a.hubs[1 - h] && b.lock == a.lock
  {
    hide Effect, OpeningChoice, DescriptorChoice, ClassChoice, AddressRule, G.Moves;
  }

  lemma FirstRequest(a: Vars, b: Vars, h: nat, m: G.Move)
    requires FsmStep(a, b, h, PLUGGED, m) && a.lock == G.FREE
    requires a.hubs[h].ctl.st == G.GET_DEVICE_DESC && a.hubs[h].ctl.initial
    ensures Shaped(b) && b.hubs[h].ctl.st == G.TRANSACTION && b.hubs[1 - h] == a.hubs[1 - h] && b.lock == h && b.epPid != 0
  {
    hide BeginSetup, Choice, AddressRule, G.DescriptorMove, G.ClassMove, G.TransferMove;
    assert DataOf(b, h).epPid == b.epPid;
  }

  /** One call of `fsm` in the first pass. */
  method PluggedCall(host: Host, h: nat)
    requires host.Turn(h) && (Early(host.hubs[h].ctl) || G.Delay(host.hubs[h].ctl.st))
    modifies host
    ensures host.Turn(h) && host.hubs[h].ctl == Plugged(old(host.hubs[h].ctl))
    ensures host.hubs[1 - h] == old(host.hubs[1 - h]) && host.lock == old(host.lock)
  {
    hide FsmStep, Addressed, G.Inv, G.Enabled, G.Guarded, G.Next, G.Live;
    var again, hang;
    ghost var m;
    again, hang, m := host.Fsm(h, PLUGGED);
    if Early(old(host.hubs[h].ctl)) {
      EarlyCall(old(host.Now()), host.Now(), h, m);
    } else {
      DelayCall(old(host.Now()), host.Now(), h, m);
    }
  }

  /** Up to the first request of a device that has been plugged in. */
  method FirstLook(host: Host, h: nat)
    requires host.Turn(h) && host.lock == G.FREE && host.hubs[h].ctl == G.BOOT
    modifies host
    ensures host.Turn(h) && host.lock == h && host.hubs[h].ctl.st == G.TRANSACTION && host.epPid != 0
    ensures host.hubs[1 - h] == old(host.hubs[1 - h])
  {
    hide FsmStep, Addressed, G.Inv, G.Enabled, G.Guarded, G.Next, G.Live;
    for i := 0 to 8
      invariant host.Turn(h) && host.lock == G.FREE && host.hubs[1 - h] == old(host.hubs[1 - h])
      invariant var b := host.hubs[h].ctl;
        && (i == 0 ==> b == G.BOOT)
        && (i > 0 ==> b.st == [G.DELAY_MS, G.CONNECT, G.DELAY_MS, G.RESET, G.DELAY_US, G.ENABLE, G.DELAY_MS, G.GET_DEVICE_DESC][i - 1])
        && (i == 1 ==> b.next == G.CONNECT) && (i == 3 ==> b.next == G.RESET) && (i == 5 ==> b.next == G.ENABLE)
        && (i == 7 ==> b.next == G.GET_DEVICE_DESC) && (i >= 3 ==> b.initial)
    {
      PluggedCall(host, h);
    }
    var again, hang;
    ghost var m;
    ghost var before := host.Now();
    again, hang, m := host.Fsm(h, PLUGGED);
    FirstRequest(before, host.Now(), h, m);
  }

  /** Hub 1 has just noticed a device when that of hub 0 is looked at for the first
      time; the device of hub 1 goes, and the request of hub 0 is stranded. */
  method StrandByDetach() returns (host: Host, ghost v: Vars, ghost c: Call)
    ensures fresh(host) && host.Valid()
    ensures Scheduled([v, host.Now()], [c]) && HasBus(v, 0) && v.hubs[0].ctl.st == G.TRANSACTION && v.epPid != 0
    ensures c.h == 1 && G.Detaches(v.hubs[1].ctl, c.env.attached) && Stranded(v, host.Now(), 0)
  {
    hide FsmStep, Addressed, G.Inv, G.Enabled, G.Guarded, G.Next, G.Live, Waits;
    host := new Host();
    PluggedCall(host, 1);
    FirstLook(host, 0);
    v := host.Now();
    OwnerHasBus(v, 0);
    var pulled := PLUGGED.(attached := false);
    var again, hang;
    ghost var m;
    again, hang, m := host.Fsm(1, pulled);
    c := Call(1, pulled, m);
    assert Scheduled([v, host.Now()], [c]);
    OtherKeepsBus(v, host.Now(), 0, pulled, m);
  }
}
