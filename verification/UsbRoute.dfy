/** The way from an attach to READY: which transfers a device has answered by the
    time that src/usb/usb_host.c uses it, over every run of the two hubs. */
module UsbRoute {
  import opened UsbGraph

  /** The steps of an enumeration in their order: attach, reset and first look at the
      device (1 to 5), reset again (6, 7), address (8, 9), device descriptor (10, 11),
      strings (12), configuration descriptor (13, 14), configuration (15, 16), remote
      wakeup (17), class requests and use (18). */
  function Milestone(s: St, initial: bool): nat {
    if s == IDLE || s == HALT then 0
    else if s == CONNECT then 1
    else if s == RESET then if initial then 2 else 6
    else if s == ENABLE then if initial then 3 else 7
    else if s == SET_ADDRESS then 8
    else if s == SET_ADDRESS_DONE then 9
    else if s == GET_DEVICE_DESC then if initial then 4 else 10
    else if s == GET_DEVICE_DESC_RECV then if initial then 5 else 11
    else if s == GET_STRING_DESC || s == GET_STRING_DESC_RECV then 12
    else if s == GET_CONFIGURATION_DESC then 13
    else if s == GET_CONFIGURATION_DESC_RECV then 14
    else if s == SET_CONFIGURATION then 15
    else if s == SET_CONFIGURATION_DONE then 16
    else if s == SET_FEATURE then 17
    else 18
  }

  /** While a transfer runs that reports to recv, it has not been answered. */
  function Asking(recv: St, initial: bool): nat {
    if recv == GET_DEVICE_DESC_RECV then if initial then 4 else 10
    else if recv == SET_ADDRESS_DONE then 8
    else if recv == GET_STRING_DESC_RECV then 12
    else if recv == GET_CONFIGURATION_DESC_RECV then 13
    else if recv == SET_CONFIGURATION_DONE then 15
    else 18
  }

  function Stage(b: HubCtl, recv: St): nat {
    if InEngine(b) then Asking(recv, b.initial)
    else Milestone(if Delay(b.st) then b.next else b.st, b.initial)
  }

  /** The stages that only the answer to a transfer ends, but for the first look. */
  predicate Gated(k: nat) {
    k == 8 || k == 10 || k == 13 || k == 15
  }

  /** That transfer, by what it reports to. */
  function Gate(k: nat): St
    requires Gated(k)
  {
    if k == 8 then SET_ADDRESS_DONE else if k == 10 then GET_DEVICE_DESC_RECV
    else if k == 13 then GET_CONFIGURATION_DESC_RECV else SET_CONFIGURATION_DONE
  }

  /** A move takes a hub at most one stage further, and through a gate only out of a
      transfer that has been answered. */
  predicate Advances(b: HubCtl, recv: St, m: Move) {
    var s, s' := Stage(b, recv), Stage(After(b, m), if m.act.Send? then m.act.recv else recv);
    && s' <= s + 1
    && (s' == s + 1 && Gated(s) ==> b.st == TRANSACTION && recv == Gate(s) && m.act == Goto(recv))
  }

  lemma OpeningAdvances(b: HubCtl, owns: bool, free: bool, recv: St, m: Move)
    requires Good(b, owns, recv) && Moves(b, free, recv, m) && b.st <= GET_STRING_DESC
    ensures Advances(b, recv, m)
  {
    hide DescriptorMove, ClassMove, TransferMove, UsesBus;
  }

  lemma DescriptorAdvances(b: HubCtl, owns: bool, free: bool, recv: St, m: Move)
    requires Good(b, owns, recv) && Moves(b, free, recv, m) && GET_STRING_DESC < b.st <= GET_HID_REPORT_DESC
    ensures Advances(b, recv, m)
  {
    hide OpeningMove, ClassMove, TransferMove, UsesBus;
  }

  lemma ClassAdvances(b: HubCtl, owns: bool, free: bool, recv: St, m: Move)
    requires Good(b, owns, recv) && Moves(b, free, recv, m) && GET_HID_REPORT_DESC < b.st <= HID_GET_REPORT
    ensures Advances(b, recv, m)
  {
    hide OpeningMove, DescriptorMove, TransferMove, UsesBus;
  }

  lemma TransferAdvances(b: HubCtl, owns: bool, free: bool, recv: St, m: Move)
    requires Good(b, owns, recv) && Moves(b, free, recv, m) && HID_GET_REPORT < b.st
    ensures Advances(b, recv, m)
  {
    hide OpeningMove, DescriptorMove, ClassMove, UsesBus;
  }

  lemma MoveAdvances(b: HubCtl, owns: bool, free: bool, recv: St, m: Move)
    requires Good(b, owns, recv) && Moves(b, free, recv, m)
    ensures Advances(b, recv, m)
  {
    hide Good, Moves, Advances;
    if b.st <= GET_STRING_DESC {
      OpeningAdvances(b, owns, free, recv, m);
    } else if b.st <= GET_HID_REPORT_DESC {
      DescriptorAdvances(b, owns, free, recv, m);
    } else if b.st <= HID_GET_REPORT {
      ClassAdvances(b, owns, free, recv, m);
    } else {
      TransferAdvances(b, owns, free, recv, m);
    }
  }

  /** A hub halts only behind a transmission error, or in a state that has no
      handler (the two that fetch a full configuration are never entered). */
  lemma OnlyErrorsHalt(b: HubCtl, free: bool, recv: St, m: Move)
    requires Moves(b, free, recv, m) && m.act == Stop
    ensures b.st == TRANSACTION || b.st == 12 || b.st == 13
  {
  }

  /** The states that may wait: for a device, for the bus, for a delay, for the
      packet, or for a caller. */
  lemma OnlyThesePause(b: HubCtl, free: bool, recv: St, m: Move)
    requires Moves(b, free, recv, m) && m.act == Stay
    ensures b.st == IDLE || b.st == ENABLE || b.st == READY || b.st == HALT || Delay(b.st) || b.st == TRANSACTION
      || (!free && (b.st == SET_ADDRESS || (b.st == GET_DEVICE_DESC && b.initial)))
  {
  }

  // ----- Both hubs ------------------------------------------------------------

  function StageOf(c: Ctl, h: nat): nat
    requires Wf(c) && h < 2
  {
    Stage(c.hubs[h], c.recv)
  }

  /** Event e answers the transfer that leads hub h from stage k to the next. */
  predicate Passes(c: Ctl, e: Event, h: nat, k: nat)
    requires Wf(c) && h < 2 && Gated(k)
  {
    e.Fsm? && e.h == h && c.hubs[h].st == TRANSACTION && c.recv == Gate(k) && e.m.act == Goto(Gate(k))
  }

  /** A hub that does not move stays where it is. */
  lemma OtherStays(c: Ctl, h: nat, m: Move)
    requires h < 2 && Inv(c) && !Transient(c.hubs[h]) && Allowed(c, 1 - h, m)
    requires Stalls(c.hubs[1 - h], m) ==> StallSafe(c.hubs[1 - h], c.recv)
    ensures StageOf(Apply(c, 1 - h, m), h) == StageOf(c, h)
  {
    hide Moves, Good, PhaseKept, StallSafe, Asking, Milestone;
    var o := 1 - h;
    assert Good(c.hubs[o], c.lock == o, c.recv) && Good(c.hubs[h], c.lock == h, c.recv) by {
      if h == 0 {} else {}
    }
    assert c.hubs[o].st == SET_ADDRESS_DONE ==> c.lock == o || c.lock == FREE by {
      if h == 0 {} else {}
    }
    MoveKeepsGood(c.hubs[o], c.lock == o, c.lock == FREE, c.recv, m);
    GoodOwner(c.hubs[h], c.lock == h, c.recv);
    TakersOfTheBus(c.hubs[o], c.lock == FREE, c.recv, m);
  }

  lemma DetachedStage(c: Ctl, h: nat, attached: bool)
    requires Wf(c) && h < 2
    ensures Wf(Detach(c, h, attached)) && StageOf(Detach(c, h, attached), h) <= StageOf(c, h)
    ensures Detach(c, h, attached) == c || StageOf(Detach(c, h, attached), h) == 0
    ensures Detach(c, h, attached).hubs[1 - h] == c.hubs[1 - h] && Detach(c, h, attached).recv == c.recv
  {
    hide Asking;
  }

  lemma OwnMoveAdvances(c: Ctl, h: nat, m: Move)
    requires h < 2 && Inv(c) && Allowed(c, h, m)
    ensures StageOf(Apply(c, h, m), h) <= StageOf(c, h) + 1
    ensures StageOf(Apply(c, h, m), h) == StageOf(c, h) + 1 && Gated(StageOf(c, h)) ==>
      c.hubs[h].st == TRANSACTION && c.recv == Gate(StageOf(c, h)) && m.act == Goto(c.recv)
  {
    hide Good, Moves, Stage, After;
    assert Good(c.hubs[h], c.lock == h, c.recv) by {
      if h == 0 {} else {}
    }
    MoveAdvances(c.hubs[h], c.lock == h, c.lock == FREE, c.recv, m);
  }

  /** A transfer of a caller moves no hub to another stage. */
  lemma TransferStage(c: Ctl, e: Event, h: nat)
    requires Inv(c) && h < 2 && e.Transfer? && Enabled(c, e)
    ensures Wf(Next(c, e)) && StageOf(Next(c, e), h) == StageOf(c, h)
  {
    hide Milestone;
    GoodOwner(c.hubs[h], c.lock == h, c.recv) by {
      if h == 0 {} else {}
    }
    assert !InEngine(c.hubs[h]);
    assert Milestone(READY, c.hubs[e.h].initial) == 18 by { ReadyStage(c.hubs[e.h].initial); }
  }

  lemma ReadyStage(initial: bool)
    ensures Milestone(READY, initial) == 18
  {
  }

  lemma SwitchStage(c: Ctl, e: Event, h: nat)
    requires Wf(c) && h < 2 && e.HubSwitch? && Enabled(c, e)
    ensures Wf(Next(c, e)) && StageOf(Next(c, e), h) == if e.h == h then 8 else StageOf(c, h)
  {
    hide Asking;
  }

  /** One event takes a hub at most one stage further, but for a hub switch, which
      takes it to stage 8. */
  lemma NextAdvances(c: Ctl, e: Event, h: nat, k: nat)
    requires Inv(c) && Settled(c, Mover(e)) && Enabled(c, e) && Guarded(c, e) && h < 2 && 8 <= k < 18
    requires StageOf(c, h) <= k
    ensures Wf(Next(c, e))
    ensures StageOf(Next(c, e), h) > k ==>
      StageOf(c, h) == k && StageOf(Next(c, e), h) == k + 1 && (Gated(k) ==> Passes(c, e, h, k))
  {
    hide Good, Moves, StallSafe, Stage, Transient, Retakes, After;
    if e.Fsm? {
      var d := Detach(c, e.h, e.attached);
      DetachedStage(c, e.h, e.attached);
      DetachKeepsInv(c, e.h, e.attached);
      if e.h == h {
        OwnMoveAdvances(d, h, e.m);
      } else {
        assert e.h == 1 - h;
        OtherStays(d, h, e.m);
      }
    } else if e.Transfer? {
      TransferStage(c, e, h);
    } else {
      SwitchStage(c, e, h);
    }
  }

  // ----- Runs -------------------------------------------------------------------

  /** The state before event i of a run. */
  function At(c: Ctl, going: int, es: seq<Event>, i: nat): (v: Ctl)
    requires Wf(c) && Legal(c, going, es) && i <= |es|
    ensures Wf(v)
    decreases i
  {
    if i == 0 then c else At(Next(c, es[0]), Going(es[0]), es[1..], i - 1)
  }

  lemma {:induction false} AtEnd(c: Ctl, going: int, es: seq<Event>)
    requires Wf(c) && Legal(c, going, es)
    ensures At(c, going, es, |es|) == Exec(c, going, es).0
    decreases |es|
  {
    hide Enabled, Next;
    if es != [] {
      AtEnd(Next(c, es[0]), Going(es[0]), es[1..]);
    }
  }

  /** What holds before every event of a run. */
  lemma {:induction false} AtStep(c: Ctl, going: int, es: seq<Event>, i: nat)
    requires Inv(c) && Settled(c, going) && Legal(c, going, es) && AllGuarded(c, going, es) && i < |es|
    ensures var v := At(c, going, es, i);
      && Inv(v) && Settled(v, Mover(es[i])) && Enabled(v, es[i]) && Guarded(v, es[i])
      && At(c, going, es, i + 1) == Next(v, es[i])
    decreases i
  {
    hide Good, Moves, Enabled, Next, Guarded, Transient;
    if i == 0 {
      assert At(c, going, es, 1) == At(Next(c, es[0]), Going(es[0]), es[1..], 0);
    } else {
      NextKeepsInv(c, es[0]);
      NextSettles(c, going, es[0]);
      AtStep(Next(c, es[0]), Going(es[0]), es[1..], i - 1);
    }
  }

  /** Hub h passed from stage k to the next at event i, and has been further since. */
  ghost predicate PassedAt(es: seq<Event>, h: nat, k: nat, i: nat)
    requires Legal(START, FREE, es) && h < 2 && 8 <= k < 18
  {
    && i < |es| && StageOf(At(START, FREE, es, i), h) == k && StageOf(At(START, FREE, es, i + 1), h) == k + 1
    && (Gated(k) ==> Passes(At(START, FREE, es, i), es[i], h, k))
    && forall j :: i < j <= |es| ==> StageOf(At(START, FREE, es, j), h) > k
  }

  /** Over every run: a hub that is further than step k has taken step k, and nothing
      has thrown it back since. */
  lemma {:induction false} LastPassage(es: seq<Event>, h: nat, k: nat) returns (i: nat)
    requires Legal(START, FREE, es) && AllGuarded(START, FREE, es) && h < 2 && 8 <= k < 18
    requires StageOf(At(START, FREE, es, |es|), h) > k
    ensures PassedAt(es, h, k, i)
  {
    hide Legal, AllGuarded, At, Enabled, Next, Guarded, Passes, Stage, Good;
    assert At(START, FREE, es, 0) == START by { FirstAt(es); }
    assert StageOf(START, h) == 0 by { StartStage(h); }
    i := |es|;
    while StageOf(At(START, FREE, es, i), h) > k
      invariant i <= |es|
      invariant forall j :: i < j <= |es| ==> StageOf(At(START, FREE, es, j), h) > k
      decreases i
    {
      i := i - 1;
    }
    assert Inv(START) && Settled(START, FREE) by { StartInv(); }
    AtStep(START, FREE, es, i);
    NextAdvances(At(START, FREE, es, i), es[i], h, k);
    assert StageOf(At(START, FREE, es, i + 1), h) > k;
  }

  lemma FirstAt(es: seq<Event>)
    requires Legal(START, FREE, es)
    ensures At(START, FREE, es, 0) == START
  {
  }

  lemma StartStage(h: nat)
    requires h < 2
    ensures StageOf(START, h) == 0
  {
  }

  lemma StartInv()
    ensures Inv(START) && Settled(START, FREE)
  {
  }

  /** No device is used that has not been enumerated: whenever a hub is READY or has
      a transfer of a caller on the bus, then since its device was attached, or the
      hub was switched, it has answered, one after the other, the requests that give
      it an address, ask for its device and its configuration descriptor, and set
      its configuration, whatever retries, detaches and calls for the other hub
      there were. */
  lemma {:induction false} ReadyIsConfigured(es: seq<Event>, h: nat) returns (i: nat, j: nat, k: nat, l: nat)
    requires Legal(START, FREE, es) && AllGuarded(START, FREE, es) && h < 2
    requires var (c, _) := Exec(START, FREE, es);
      Wf(c) && (c.hubs[h].st == READY || (InEngine(c.hubs[h]) && (c.recv == IN_RECV || c.recv == OUT_DONE || c.recv == HID_GET_REPORT)))
    ensures i < j < k < l
    ensures PassedAt(es, h, 8, i) && PassedAt(es, h, 10, j) && PassedAt(es, h, 13, k) && PassedAt(es, h, 15, l)
  {
    hide Legal, AllGuarded, At, Exec, Passes, Good;
    AtEnd(START, FREE, es);
    i := LastPassage(es, h, 8);
    j := LastPassage(es, h, 10);
    k := LastPassage(es, h, 13);
    l := LastPassage(es, h, 15);
  }
}
