/** Reading the 16-bit tick counter byte by byte while it runs (src/timer3.c). */
module Timer3 {

  /** T3_END: the counter runs from 0 to 0x3e7f and starts over. */
  const PERIOD := 0x3e80

  /** The counter at time t, in ticks. */
  function Count(t: nat): nat {
    t % PERIOD
  }

  function High(t: nat): nat {
    Count(t) / 256
  }

  function Low(t: nat): nat {
    Count(t) % 256
  }

  /** The value put together from one high and one low read. */
  function Tick(th: nat, tl: nat): nat {
    High(th) * 256 + Low(tl)
  }

  lemma SamePeriod(a: nat, b: nat)
    requires a <= b && b / PERIOD == a / PERIOD
    ensures Count(b) == Count(a) + (b - a)
  {
  }

  lemma NextPeriod(a: nat, b: nat)
    requires a <= b < a + PERIOD && b / PERIOD != a / PERIOD
    ensures b / PERIOD == a / PERIOD + 1 && Count(b) == Count(a) + (b - a) - PERIOD
  {
  }

  /** Between two equal high bytes less than a period apart by 255 ticks or more,
      the high byte was the same all along. */
  lemma HighHeld(a: nat, m: nat, b: nat)
    requires a <= m <= b < a + PERIOD - 255 && High(a) == High(b)
    ensures High(m) == High(a)
  {
    if b / PERIOD == a / PERIOD {
      assert m / PERIOD == a / PERIOD;
      SamePeriod(a, m);
      SamePeriod(m, b);
    } else {
      NextPeriod(a, b);
    }
  }

  /** No torn read: what is put together is what the counter held at the low
      read, provided the reads are close enough. */
  lemma NotTorn(a: nat, m: nat, b: nat)
    requires a <= m <= b < a + PERIOD - 255 && High(a) == High(b)
    ensures Tick(a, m) == Count(m)
  {
    HighHeld(a, m, b);
  }

  /** One tick later the counter, which counts 16000 to the second, can have come
      round, and the read is torn. */
  lemma TornAtTheBound()
    ensures var a, m, b := 255, 256, 16000;
      a <= m <= b == a + PERIOD - 255 && High(a) == High(b) && Tick(a, m) != Count(m)
  {
  }

  /** The high byte changes at most once in 128 ticks: every value of it lasts
      as long, also the last one of a period. */
  lemma OneChange(a: nat, b: nat, c: nat, d: nat)
    requires a <= b <= c <= d < a + 128 && High(a) != High(b)
    ensures High(c) == High(d)
  {
    if d / PERIOD == a / PERIOD {
      SamePeriod(a, b);
      SamePeriod(a, c);
      SamePeriod(a, d);
      OneBoundary(Count(a), b - a, c - a, d - a);
    } else if b / PERIOD == a / PERIOD {
      SamePeriod(a, b);
      NextPeriod(a, d);
      LastPage(Count(a), b - a, d - a);
    } else {
      NextPeriod(a, c);
      NextPeriod(a, d);
      FirstPage(Count(a), c - a, d - a);
    }
  }

  lemma OneBoundary(x: nat, i: nat, j: nat, k: nat)
    requires i <= j <= k < 128 && x / 256 != (x + i) / 256
    ensures (x + j) / 256 == (x + k) / 256
  {
  }

  /** The last value of the high byte lasts 128 ticks. */
  lemma LastPage(x: nat, i: nat, k: nat)
    requires i <= k < 128 && x + i < PERIOD <= x + k
    ensures x / 256 == (x + i) / 256
  {
  }

  lemma FirstPage(x: nat, j: nat, k: nat)
    requires j <= k < 128 && x < PERIOD <= x + j
    ensures (x + j - PERIOD) / 256 == (x + k - PERIOD) / 256
  {
  }

  /** Read k of the counter happens at time at(k). */
  ghost predicate InOrder(at: nat -> nat) {
    forall i: nat, j: nat :: i <= j ==> at(i) <= at(j)
  }

  /** Iteration j of the loop, three reads long, is not stretched over a period. */
  ghost predicate Prompt(at: nat -> nat, j: nat) {
    at(3 * j + 2) < at(3 * j) + PERIOD - 255
  }

  /** `timer3_tick_raw`: with two undisturbed iterations in a row from `calm` on,
      it ends by the second of them, with a value the counter held. */
  method TickRaw(at: nat -> nat, ghost calm: nat) returns (tick: nat, retries: nat)
    requires InOrder(at) && forall i: nat :: Prompt(at, i)
    requires at(3 * calm + 5) < at(3 * calm) + 128
    ensures retries <= calm + 1 && tick == Count(at(3 * retries + 1)) < PERIOD
  {
    retries := 0;
    var n := 0;
    while true
      invariant n == 3 * retries && retries <= calm + 1
      invariant retries == calm + 1 ==> High(at(3 * calm)) != High(at(3 * calm + 2))
      decreases calm + 1 - retries
    {
      var h := High(at(n));
      var l := Low(at(n + 1));
      if h == High(at(n + 2)) {
        assert Prompt(at, retries);
        NotTorn(at(n), at(n + 1), at(n + 2));
        tick := h * 256 + l;
        return;
      }
      if retries == calm + 1 {
        OneChange(at(3 * calm), at(3 * calm + 2), at(n), at(n + 2));
      }
      retries, n := retries + 1, n + 3;
    }
  }
}
