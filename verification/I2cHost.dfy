/** The host side of src/i2c.c: a byte is clocked out or in by a timer tick that
    moves one state on per call, whatever clock stretching the target does. */
module I2cHost {

  /** What the target does to the lines during a tick: holds them low, or not. */
  datatype Target = Target(holdsScl: bool, holdsSda: bool)

  /** The engine: `host_state`, `host_data`, the two bits of `host_ack`, and
      whether the host lets each line go (its direction bits). */
  datatype Bus = Bus(state: nat, data: bv8, nack: bool, ready: bool, sda: bool, scl: bool)

  const READING := 0x80

  predicate Reading(b: Bus) {
    b.state / READING % 2 == 1
  }

  function Phase(b: Bus): nat {
    b.state % 16
  }

  function Moved(b: Bus, d: nat): Bus {
    b.(state := (b.state + d) % 256)
  }

  function Shl(d: bv8): bv8 {
    d << 1
  }

  predicate Top(d: bv8) {
    d & 0x80 != 0
  }

  function ShiftIn(d: bv8, bit: bool): bv8 {
    (d << 1) | (if bit then 1 else 0)
  }

  /** One timer interrupt: `i2c_int_tmr0`. */
  function Tick(b: Bus, t: Target): Bus {
    var sclLine, sdaLine := b.scl && !t.holdsScl, b.sda && !t.holdsSda;
    match Phase(b)
    case 0 => Moved(b.(sda := false), 1)
    case 1 => Moved(b.(scl := false), 1)
    case 2 => Moved(if Reading(b) then b else b.(sda := Top(b.data), data := Shl(b.data)), 1)
    case 3 => Moved(b.(scl := true), 1)
    case 4 =>
      if !sclLine then b
      else Moved(if Reading(b) then b.(data := ShiftIn(b.data, sdaLine)) else b, 1)
    case 5 =>
      var low := b.(sda := true, scl := false);
      Moved(if b.state % 128 != 0x75 then Moved(low, 12) else low, 1)
    case 6 => Moved(if Reading(b) then b.(sda := false) else b, 1)
    case 7 => Moved(b.(scl := true), 1)
    case 8 =>
      if !sclLine then b else Moved(if Reading(b) then b else b.(nack := sdaLine), 1)
    case 9 => Moved(b.(scl := false), 1)
    case 10 => b.(ready := true, sda := Reading(b) || b.sda)
    case 11 => Moved(b.(scl := true), 1)
    case 12 => if !sclLine then b else Moved(b.(sda := true), 1)
    case 13 => b
    case 14 => Moved(b.(sda := true), 1)
    case _ => b.(scl := true, ready := true)
  }

  lemma PhaseFive(state: nat, base: nat, n: nat)
    requires (base == 0 || base == 128) && n < 8 && state == base + 16 * n + 5
    ensures state % 16 == 5 && state % 128 == 16 * n + 5
  {
  }

  /** Phase 5 of bit n, of a write (base 0) or of a read (base 128). */
  lemma TickFall(b: Bus, t: Target, base: nat, n: nat)
    requires (base == 0 || base == 128) && n < 8 && b.state == base + 16 * n + 5
    ensures Tick(b, t) == b.(sda := true, scl := false, state := if n < 7 then base + 16 * (n + 1) + 2 else base + 118)
  {
    hide Tick;
    PhaseFive(b.state, base, n);
    TickOfFive(b, t);
  }

  lemma TickOfFive(b: Bus, t: Target)
    requires b.state % 16 == 5
    ensures var low := b.(sda := true, scl := false);
      Tick(b, t) == Moved(if b.state % 128 != 0x75 then Moved(low, 12) else low, 1)
  {
    hide Shl, Top, ShiftIn, Reading, Moved;
  }

  /** Ticks until the engine reports ready or the target's moves run out. */
  function Run(b: Bus, moves: seq<Target>): Bus
    decreases |moves|
  {
    if moves == [] || b.ready then b else Run(Tick(b, moves[0]), moves[1..])
  }

  // ----- What is seen on the wires ------------------------------------------------

  /** A clock pulse: what the host drives and what the line then shows, at the
      first tick of the pulse at which the clock line is high. */
  datatype Pulse = Pulse(driven: bool, line: bool)

  /** The pulse that is seen at a tick, if any; `low` says the clock has been
      low since the last one. */
  function Seen(b: Bus, t: Target, low: bool): seq<Pulse> {
    if b.scl && low && !t.holdsScl then [Pulse(b.sda, b.sda && !t.holdsSda)] else []
  }

  predicate LowSince(b: Bus, t: Target, low: bool) {
    !b.scl || (low && t.holdsScl)
  }

  /** The clock pulses of a run. */
  function Pulses(b: Bus, moves: seq<Target>, low: bool): seq<Pulse>
    decreases |moves|
  {
    if moves == [] || b.ready then []
    else Seen(b, moves[0], low) + Pulses(Tick(b, moves[0]), moves[1..], LowSince(b, moves[0], low))
  }

  /** The ticks at which the target leaves the clock alone. */
  function Free(moves: seq<Target>): nat
    decreases |moves|
  {
    if moves == [] then 0 else (if moves[0].holdsScl then 0 else 1) + Free(moves[1..])
  }

  /** The first n bits of a byte, most significant first. */
  function Bits(d: bv8, n: nat): seq<bool>
    decreases n
  {
    if n == 0 then [] else [Top(d)] + Bits(Shl(d), n - 1)
  }

  /** The byte that has been shifted in. */
  function Byte(bits: seq<bool>): bv8 {
    if bits == [] then 0 else ShiftIn(Byte(bits[..|bits| - 1]), bits[|bits| - 1])
  }

  function Driven(ps: seq<Pulse>): seq<bool> {
    seq(|ps|, i requires 0 <= i < |ps| => ps[i].driven)
  }

  function Lines(ps: seq<Pulse>): seq<bool> {
    seq(|ps|, i requires 0 <= i < |ps| => ps[i].line)
  }

  function ShlN(d: bv8, n: nat): bv8 {
    if n == 0 then d else Shl(ShlN(d, n - 1))
  }

  lemma {:induction false} BitsAt(d: bv8, k: nat, m: nat, n: nat)
    requires k < n
    ensures |Bits(ShlN(d, m), n)| == n && Bits(ShlN(d, m), n)[k] == Top(ShlN(d, m + k))
    decreases n
  {
    hide Shl, Top;
    if n > 1 {
      BitsAt(d, if k > 0 then k - 1 else 0, m + 1, n - 1);
    }
  }

  function Bit(d: bv8, n: nat): bool {
    Top(ShlN(d, n))
  }

  lemma Rebuild(d: bv8)
    ensures ShiftIn(ShiftIn(ShiftIn(ShiftIn(ShiftIn(ShiftIn(ShiftIn(ShiftIn(0, d & 0x80 != 0), d & 0x40 != 0), d & 0x20 != 0),
      d & 0x10 != 0), d & 0x08 != 0), d & 0x04 != 0), d & 0x02 != 0), d & 0x01 != 0) == d
  {
  }

  // ----- Writing a byte --------------------------------------------------------------

  /** Where the engine stands while it writes `data`, in phase p of bit n, after
      the pulses ps. */
  ghost predicate Writes(b: Bus, data: bv8, ps: seq<Pulse>, low: bool, n: nat, p: nat) {
    && !b.ready && b.state == 16 * n + p && n < 8 && p <= 10
    && (forall k :: 0 <= k < |ps| && k < 8 ==> ps[k].driven == Bit(data, k))
    && (p < 2 ==> n == 0 && ps == [] && b.data == data && (b.scl ==> !low))
    && (p == 2 ==> |ps| == n && b.data == ShlN(data, n) && !b.scl)
    && (3 <= p <= 5 ==> b.data == ShlN(data, n + 1))
    && (3 <= p <= 4 ==> |ps| == n && b.sda == Bit(data, n) && low)
    && (p == 5 ==> |ps| == n + 1 && !low)
    && (p >= 6 ==> n == 7)
    && (6 <= p <= 8 ==> |ps| == 8)
    && (p >= 6 ==> b.sda)
    && (7 <= p <= 8 ==> low)
    && (p >= 9 ==> |ps| == 9 && ps[8].driven && b.nack == ps[8].line)
    && (p == 9 ==> !low)
    && (p >= 2 ==> (b.scl <==> p == 4 || p == 5 || p == 8 || p == 9))
  }

  /** The place after one tick. */
  function NextPlace(n: nat, p: nat, stays: bool): (nat, nat) {
    if stays && (p == 4 || p == 8) then (n, p) else if p == 5 && n < 7 then (n + 1, 2) else (n, p + 1)
  }

  /** Ticks still to go when the target never stretches the clock. */
  function Left(n: nat, p: nat): int {
    if p < 2 then 39 - p else if p < 6 then 39 - (4 * n + p) else 11 - p
  }

  ghost predicate WriteGoesOn(b: Bus, data: bv8, ps: seq<Pulse>, low: bool, n: nat, p: nat, t: Target) {
    var (m, q) := NextPlace(n, p, t.holdsScl);
    Writes(Tick(b, t), data, ps + Seen(b, t, low), LowSince(b, t, low), m, q)
  }

  lemma WriteStart(b: Bus, data: bv8, ps: seq<Pulse>, low: bool, n: nat, p: nat, t: Target)
    requires Writes(b, data, ps, low, n, p) && p <= 1
    ensures WriteGoesOn(b, data, ps, low, n, p, t)
  {
    hide Shl, Top, Bit, ShiftIn;
  }

  lemma WriteBit(b: Bus, data: bv8, ps: seq<Pulse>, low: bool, n: nat, p: nat, t: Target)
    requires Writes(b, data, ps, low, n, p) && p == 2
    ensures WriteGoesOn(b, data, ps, low, n, p, t)
  {
    hide Shl, Top, ShiftIn;
  }

  lemma WriteRise(b: Bus, data: bv8, ps: seq<Pulse>, low: bool, n: nat, p: nat, t: Target)
    requires Writes(b, data, ps, low, n, p) && p == 3
    ensures WriteGoesOn(b, data, ps, low, n, p, t)
  {
    hide Shl, Top, ShlN, Bit, ShiftIn;
  }

  lemma WriteSample(b: Bus, data: bv8, ps: seq<Pulse>, low: bool, n: nat, p: nat, t: Target)
    requires Writes(b, data, ps, low, n, p) && p == 4
    ensures WriteGoesOn(b, data, ps, low, n, p, t)
  {
    hide Shl, Top, ShlN, Bit, ShiftIn;
  }

  lemma WriteFall(b: Bus, data: bv8, ps: seq<Pulse>, low: bool, n: nat, p: nat, t: Target)
    requires Writes(b, data, ps, low, n, p) && p == 5
    ensures WriteGoesOn(b, data, ps, low, n, p, t)
  {
    hide Shl, Top, ShlN, Bit, ShiftIn, Tick;
    TickFall(b, t, 0, n);
  }

  lemma WriteAck(b: Bus, data: bv8, ps: seq<Pulse>, low: bool, n: nat, p: nat, t: Target)
    requires Writes(b, data, ps, low, n, p) && 6 <= p <= 9
    ensures WriteGoesOn(b, data, ps, low, n, p, t)
  {
    hide Shl, Top, ShlN, Bit, ShiftIn;
  }

  lemma WriteTick(b: Bus, data: bv8, ps: seq<Pulse>, low: bool, n: nat, p: nat, t: Target)
    requires Writes(b, data, ps, low, n, p) && p <= 9
    ensures WriteGoesOn(b, data, ps, low, n, p, t)
  {
    hide WriteGoesOn;
    if p <= 1 { WriteStart(b, data, ps, low, n, p, t); }
    if p == 2 { WriteBit(b, data, ps, low, n, p, t); }
    if p == 3 { WriteRise(b, data, ps, low, n, p, t); }
    if p == 4 { WriteSample(b, data, ps, low, n, p, t); }
    if p == 5 { WriteFall(b, data, ps, low, n, p, t); }
    if p >= 6 { WriteAck(b, data, ps, low, n, p, t); }
  }

  /** In phase 10 the engine reports ready. */
  lemma WriteEnds(b: Bus, data: bv8, ps: seq<Pulse>, low: bool, t: Target)
    requires Writes(b, data, ps, low, 7, 10)
    ensures Tick(b, t) == b.(ready := true) && Seen(b, t, low) == []
  {
    hide Bit;
  }

  /** What a finished write has shown and learnt. */
  ghost predicate Written(data: bv8, ps: seq<Pulse>, b: Bus) {
    && b.ready && !b.scl && b.sda && |ps| == 9
    && (forall k :: 0 <= k < 8 ==> ps[k].driven == Bit(data, k))
    && ps[8].driven && b.nack == ps[8].line
  }

  lemma {:induction false} WriteRuns(b: Bus, data: bv8, ps: seq<Pulse>, low: bool, n: nat, p: nat, moves: seq<Target>)
    requires Writes(b, data, ps, low, n, p) && Left(n, p) <= Free(moves)
    ensures Written(data, ps + Pulses(b, moves, low), Run(b, moves))
    decreases |moves|
  {
    hide Bit, Tick, Seen, LowSince;
    var t, rest := moves[0], moves[1..];
    if p == 10 {
      WriteEnds(b, data, ps, low, t);
      assert Run(Tick(b, t), rest) == Tick(b, t) && Pulses(Tick(b, t), rest, LowSince(b, t, low)) == [];
    } else {
      WriteTick(b, data, ps, low, n, p, t);
      var (m, q) := NextPlace(n, p, t.holdsScl);
      var more := ps + Seen(b, t, low);
      WriteRuns(Tick(b, t), data, more, LowSince(b, t, low), m, q, rest);
      assert ps + Pulses(b, moves, low) == more + Pulses(Tick(b, t), rest, LowSince(b, t, low));
    }
  }

  /** `i2c_write` sets the engine off in state 0. */
  function BeginWrite(b: Bus, data: bv8): Bus {
    b.(state := 0, data := data, nack := false, ready := false)
  }

  /** A byte written: nine clock pulses whatever the target stretches, the eight
      bits most significant first and then a free ninth, whose level is the answer. */
  lemma ByteIsWritten(b: Bus, data: bv8, moves: seq<Target>)
    requires Free(moves) >= 39
    ensures var ps := Pulses(BeginWrite(b, data), moves, false); var after := Run(BeginWrite(b, data), moves);
      && after.ready && after.sda && !after.scl && |ps| == 9
      && Driven(ps) == Bits(data, 8) + [true]
      && Byte(Driven(ps)[..8]) == data
      && after.nack == ps[8].line
  {
    hide Bit, Tick, Pulses, Run;
    var start := BeginWrite(b, data);
    WriteRuns(start, data, [], false, 0, 0, moves);
    var ps := Pulses(start, moves, false);
    assert [] + ps == ps;
    forall k: nat | k < 8 ensures |Bits(data, 8)| == 8 && Bits(data, 8)[k] == Bit(data, k) {
      BitIs(data, k);
    }
    ByteOfBits(data);
    assert Driven(ps)[..8] == Bits(data, 8);
  }

  lemma BitIs(data: bv8, k: nat)
    requires k < 8
    ensures |Bits(data, 8)| == 8 && Bits(data, 8)[k] == Bit(data, k)
  {
    hide Bits;
    BitsAt(data, k, 0, 8);
  }

  lemma ByteOfBits(data: bv8)
    ensures Byte(Bits(data, 8)) == data
  {
    hide Bit;
    var s := Bits(data, 8);
    forall k: nat | k < 8 ensures |s| == 8 && s[k] == Bit(data, k) {
      BitIs(data, k);
    }
    ByteUnrolled(s);
    BitMasks(data);
    Rebuild(data);
  }

  lemma ByteUnrolled(s: seq<bool>)
    requires |s| == 8
    ensures Byte(s) == ShiftIn(ShiftIn(ShiftIn(ShiftIn(ShiftIn(ShiftIn(ShiftIn(ShiftIn(0, s[0]), s[1]), s[2]), s[3]), s[4]), s[5]), s[6]), s[7])
  {
    hide ShiftIn;
    assert s[..8] == s && s[..0] == [];
    forall k: nat | k < 8 ensures Byte(s[..k + 1]) == ShiftIn(Byte(s[..k]), s[k]) {
      assert s[..k + 1][..k] == s[..k];
    }
    assert Byte(s[..0]) == 0;
    assert Byte(s[..4]) == ShiftIn(ShiftIn(ShiftIn(ShiftIn(0, s[0]), s[1]), s[2]), s[3]);
  }

  lemma BitMasks(d: bv8)
    ensures Bit(d, 0) == (d & 0x80 != 0) && Bit(d, 1) == (d & 0x40 != 0) && Bit(d, 2) == (d & 0x20 != 0)
    ensures Bit(d, 3) == (d & 0x10 != 0) && Bit(d, 4) == (d & 0x08 != 0) && Bit(d, 5) == (d & 0x04 != 0)
    ensures Bit(d, 6) == (d & 0x02 != 0) && Bit(d, 7) == (d & 0x01 != 0)
  {
  }

  // ----- Reading a byte --------------------------------------------------------------

  /** Where the engine stands while it reads. */
  ghost predicate Reads(b: Bus, ps: seq<Pulse>, low: bool, n: nat, p: nat) {
    && !b.ready && b.state == READING + 16 * n + p && n < 8 && 2 <= p <= 10
    && (forall k :: 0 <= k < |ps| && k < 8 ==> ps[k].driven)
    && (p <= 4 ==> |ps| == n && b.sda && b.data == Byte(Lines(ps)))
    && (p == 3 || p == 4 ==> low)
    && (p == 5 ==> |ps| == n + 1 && !low && b.data == Byte(Lines(ps)))
    && (p >= 6 ==> n == 7)
    && (6 <= p <= 8 ==> |ps| == 8 && b.data == Byte(Lines(ps)))
    && (7 <= p <= 8 ==> low && !b.sda)
    && (p >= 9 ==> |ps| == 9 && !ps[8].driven && b.data == Byte(Lines(ps[..8])))
    && (p == 9 ==> !low)
    && (b.scl <==> p == 4 || p == 5 || p == 8 || p == 9)
  }

  ghost predicate ReadGoesOn(b: Bus, ps: seq<Pulse>, low: bool, n: nat, p: nat, t: Target) {
    var (m, q) := NextPlace(n, p, t.holdsScl);
    Reads(Tick(b, t), ps + Seen(b, t, low), LowSince(b, t, low), m, q)
  }

  lemma ReadBit(b: Bus, ps: seq<Pulse>, low: bool, n: nat, p: nat, t: Target)
    requires Reads(b, ps, low, n, p) && p <= 3
    ensures ReadGoesOn(b, ps, low, n, p, t)
  {
    hide Shl, Top, ShiftIn, Lines, Byte;
    assert ps + [] == ps;
  }

  lemma LinePushed(ps: seq<Pulse>, pulse: Pulse)
    ensures Byte(Lines(ps + [pulse])) == ShiftIn(Byte(Lines(ps)), pulse.line)
  {
    hide ShiftIn;
    var more := Lines(ps + [pulse]);
    assert more[..|more| - 1] == Lines(ps) && more[|more| - 1] == pulse.line;
  }

  lemma ReadSample(b: Bus, ps: seq<Pulse>, low: bool, n: nat, t: Target)
    requires Reads(b, ps, low, n, 4)
    ensures ReadGoesOn(b, ps, low, n, 4, t)
  {
    hide Shl, Top, ShiftIn, Byte, Lines;
    if !t.holdsScl {
      LinePushed(ps, Pulse(b.sda, b.sda && !t.holdsSda));
      assert Seen(b, t, low) == [Pulse(b.sda, b.sda && !t.holdsSda)];
    } else {
      assert ps + Seen(b, t, low) == ps;
    }
  }

  lemma ReadFall(b: Bus, ps: seq<Pulse>, low: bool, n: nat, p: nat, t: Target)
    requires Reads(b, ps, low, n, p) && p == 5
    ensures ReadGoesOn(b, ps, low, n, p, t)
  {
    hide Shl, Top, ShiftIn, Lines, Byte, Tick;
    TickFall(b, t, 128, n);
    assert ps + [] == ps;
  }

  lemma ReadRise(b: Bus, ps: seq<Pulse>, low: bool, n: nat, p: nat, t: Target)
    requires Reads(b, ps, low, n, p) && 6 <= p <= 7
    ensures ReadGoesOn(b, ps, low, n, p, t)
  {
    hide Shl, Top, ShiftIn, Lines, Byte;
    assert ps + [] == ps;
  }

  lemma ReadAck(b: Bus, ps: seq<Pulse>, low: bool, n: nat, p: nat, t: Target)
    requires Reads(b, ps, low, n, p) && 8 <= p <= 9
    ensures ReadGoesOn(b, ps, low, n, p, t)
  {
    hide Shl, Top, ShiftIn, Lines, Byte;
    assert p == 8 ==> (ps + Seen(b, t, low))[..8] == ps && ps + [] == ps;
    assert p == 9 ==> ps + Seen(b, t, low) == ps;
  }

  lemma ReadTick(b: Bus, ps: seq<Pulse>, low: bool, n: nat, p: nat, t: Target)
    requires Reads(b, ps, low, n, p) && p <= 9
    ensures ReadGoesOn(b, ps, low, n, p, t)
  {
    hide ReadGoesOn;
    if p <= 3 { ReadBit(b, ps, low, n, p, t); }
    if p == 4 { ReadSample(b, ps, low, n, t); }
    if p == 5 { ReadFall(b, ps, low, n, p, t); }
    if 6 <= p <= 7 { ReadRise(b, ps, low, n, p, t); }
    if p >= 8 { ReadAck(b, ps, low, n, p, t); }
  }

  lemma ReadEnds(b: Bus, ps: seq<Pulse>, low: bool, t: Target)
    requires Reads(b, ps, low, 7, 10)
    ensures Tick(b, t) == b.(ready := true, sda := true) && Seen(b, t, low) == []
  {
    hide Byte, Lines;
  }

  /** What a finished read has shown and learnt. */
  ghost predicate Received(ps: seq<Pulse>, b: Bus) {
    && b.ready && !b.scl && b.sda && |ps| == 9
    && (forall k :: 0 <= k < 8 ==> ps[k].driven)
    && !ps[8].driven && b.data == Byte(Lines(ps[..8]))
  }

  lemma {:induction false} ReadRuns(b: Bus, ps: seq<Pulse>, low: bool, n: nat, p: nat, moves: seq<Target>)
    requires Reads(b, ps, low, n, p) && Left(n, p) <= Free(moves)
    ensures Received(ps + Pulses(b, moves, low), Run(b, moves))
    decreases |moves|
  {
    hide Tick, Seen, LowSince, Byte, Lines;
    var t, rest := moves[0], moves[1..];
    if p == 10 {
      ReadEnds(b, ps, low, t);
      assert Run(Tick(b, t), rest) == Tick(b, t) && Pulses(Tick(b, t), rest, LowSince(b, t, low)) == [];
      assert ps + Pulses(b, moves, low) == ps;
    } else {
      ReadTick(b, ps, low, n, p, t);
      var (m, q) := NextPlace(n, p, t.holdsScl);
      var more := ps + Seen(b, t, low);
      ReadRuns(Tick(b, t), more, LowSince(b, t, low), m, q, rest);
      assert ps + Pulses(b, moves, low) == more + Pulses(Tick(b, t), rest, LowSince(b, t, low));
    }
  }

  /** `i2c_read` sets the engine off in state 0x82, behind the start condition. */
  function BeginRead(b: Bus): Bus {
    b.(state := 0x82, data := 0, nack := false, ready := false)
  }

  /** A byte read: nine clock pulses, the data line free in eight and low, for
      the acknowledgement, in the ninth; the result is the eight levels seen. */
  lemma ByteIsRead(b: Bus, moves: seq<Target>)
    requires b.sda && !b.scl && Free(moves) >= 37
    ensures var ps := Pulses(BeginRead(b), moves, false); var after := Run(BeginRead(b), moves);
      && after.ready && after.sda && !after.scl && |ps| == 9
      && Driven(ps) == seq(8, _ => true) + [false]
      && after.data == Byte(Lines(ps)[..8])
  {
    hide Tick, Pulses, Run, Byte;
    var start := BeginRead(b);
    assert Lines([]) == [];
    EmptyByte();
    ReadRuns(start, [], false, 0, 2, moves);
    var ps := Pulses(start, moves, false);
    assert [] + ps == ps;
    assert Lines(ps)[..8] == Lines(ps[..8]);
  }

  lemma EmptyByte()
    ensures Byte([]) == 0
  {
  }

  /** What the host sees of a target that sends a byte: the target holds the
      line low for the zeros and nobody drives it for the ones. */
  lemma ReadsWhatIsSent(b: Bus, moves: seq<Target>, sent: bv8)
    requires b.sda && !b.scl && Free(moves) >= 37
    requires Bits(sent, 8) <= Lines(Pulses(BeginRead(b), moves, false))
    ensures Run(BeginRead(b), moves).data == sent
  {
    hide Run, Pulses, Byte, Bits;
    ByteIsRead(b, moves);
    ByteOfBits(sent);
    BitIs(sent, 0);
    assert Lines(Pulses(BeginRead(b), moves, false))[..8] == Bits(sent, 8);
  }

  // ----- The lines from tick to tick ----------------------------------------------------

  /** The bits of a byte on the line, by their weights. */
  lemma BitsByWeight(d: bv8)
    ensures Bits(d, 8) == [d & 0x80 != 0, d & 0x40 != 0, d & 0x20 != 0, d & 0x10 != 0,
                           d & 0x08 != 0, d & 0x04 != 0, d & 0x02 != 0, d & 0x01 != 0]
  {
    hide Bit, Bits;
    forall k: nat | k < 8 ensures |Bits(d, 8)| == 8 && Bits(d, 8)[k] == Bit(d, k) {
      BitIs(d, k);
    }
    BitMasks(d);
  }

  /** A write on an idle bus starts with a START condition: the data line falls
      while the clock is high, then the clock falls. */
  lemma StartCondition(b: Bus, data: bv8, t: Target, u: Target)
    requires b.sda && b.scl
    ensures var first := Tick(BeginWrite(b, data), t); var second := Tick(first, u);
      && !first.sda && first.scl && !first.ready
      && !second.sda && !second.scl && !second.ready && second.data == data
  {
  }

  lemma NextPhase(b: Bus, c: Bus)
    requires c.state == b.state
    ensures Phase(Moved(c, 1)) == if Phase(b) < 15 then Phase(b) + 1 else 0
  {
  }

  /** States 11 and 12 make a STOP condition: the clock rises with the data line as
      it was, and once the clock is high, whoever stretches it, the data line is let
      go. */
  lemma StopCondition(b: Bus, t: Target)
    ensures Phase(b) == 11 ==> Tick(b, t) == b.(scl := true, state := Tick(b, t).state) && Phase(Tick(b, t)) == 12
    ensures Phase(b) == 12 && (!b.scl || t.holdsScl) ==> Tick(b, t) == b
    ensures Phase(b) == 12 && b.scl && !t.holdsScl ==> Tick(b, t) == b.(sda := true, state := Tick(b, t).state) && Phase(Tick(b, t)) == 13
  {
    NextPhase(b, b.(scl := true));
    NextPhase(b, b.(sda := true));
    hide Shl, Top, ShiftIn, Phase;
  }

  /** State 13 is idle; 14 and 15 let the data line go, then the clock, for another
      START condition. */
  lemma RepeatedStart(b: Bus, t: Target)
    ensures Phase(b) == 13 ==> Tick(b, t) == b
    ensures Phase(b) == 14 ==> Tick(b, t) == b.(sda := true, state := Tick(b, t).state) && Phase(Tick(b, t)) == 15
    ensures Phase(b) == 15 ==> Tick(b, t) == b.(scl := true, ready := true)
  {
    NextPhase(b, b.(sda := true));
    hide Shl, Top, ShiftIn, Phase;
  }

  /** Over every run of a write and of a read, whatever the target does: behind the
      START condition the host changes the data line only while the clock is low, or
      in the tick that makes it low. */
  lemma StableWhileHigh(b: Bus, data: bv8, ps: seq<Pulse>, low: bool, n: nat, p: nat, t: Target)
    requires Writes(b, data, ps, low, n, p) || Reads(b, ps, low, n, p)
    requires p > 0 && b.scl && Tick(b, t).scl
    ensures Tick(b, t).sda == b.sda
  {
    assert Phase(b) == p && b.scl by { PlaceIsPhase(b, data, ps, low, n, p); }
    hide Writes, Reads, Shl, Top, ShiftIn;
    assert p == 1 || p == 4 || p == 5 || p == 8 || p == 9 by { ClockStates(b, data, ps, low, n, p); }
    if p == 1 {} else if p == 4 {} else if p == 5 {} else if p == 8 {} else {}
  }

  lemma PlaceIsPhase(b: Bus, data: bv8, ps: seq<Pulse>, low: bool, n: nat, p: nat)
    requires Writes(b, data, ps, low, n, p) || Reads(b, ps, low, n, p)
    ensures Phase(b) == p
  {
    hide Bit, Byte, Lines;
  }

  lemma ClockStates(b: Bus, data: bv8, ps: seq<Pulse>, low: bool, n: nat, p: nat)
    requires (Writes(b, data, ps, low, n, p) || Reads(b, ps, low, n, p)) && b.scl
    ensures p <= 1 || p == 4 || p == 5 || p == 8 || p == 9
  {
    hide Bit, Byte, Lines;
  }

  // ----- The engine in place ------------------------------------------------------------

  class Host {
    /** The volatile variables of the engine and the direction bits. */
    var b: Bus

    constructor ()
      ensures b == Bus(0, 0, false, false, true, true)
    {
      b := Bus(0, 0, false, false, true, true);
    }

    /** `i2c_int_tmr0`. */
    method OnTimer(t: Target)
      modifies this
      ensures b == Tick(old(b), t)
    {
      hide Shl, Top, ShiftIn, Moved;
      var e := b;
      var reading := e.state / READING % 2 == 1;
      match e.state % 16 {
        case 0 => e := e.(sda := false);
        case 1 => e := e.(scl := false);
        case 2 =>
          if !reading {
            e := e.(sda := Top(e.data));
            e := e.(data := Shl(e.data));
          }
        case 3 => e := e.(scl := true);
        case 4 =>
          if !e.scl || t.holdsScl {
            return;
          }
          if reading {
            e := e.(data := ShiftIn(e.data, e.sda && !t.holdsSda));
          }
        case 5 =>
          e := e.(sda := true);
          e := e.(scl := false);
          if e.state % 128 != 0x75 {
            e := Moved(e, 12);
          }
        case 6 =>
          if reading {
            e := e.(sda := false);
          }
        case 7 => e := e.(scl := true);
        case 8 =>
          if !e.scl || t.holdsScl {
            return;
          }
          if !reading {
            e := e.(nack := e.sda && !t.holdsSda);
          }
        case 9 => e := e.(scl := false);
        case 10 =>
          e := e.(ready := true);
          if reading {
            e := e.(sda := true);
          }
          b := e;
          return;
        case 11 => e := e.(scl := true);
        case 12 =>
          if !e.scl || t.holdsScl {
            return;
          }
          e := e.(sda := true);
        case 13 => return;
        case 14 => e := e.(sda := true);
        case _ =>
          b := e.(scl := true, ready := true);
          return;
      }
      b := Moved(e, 1);
    }

    /** The wait for ACK_READY, over the target's moves of the ticks that pass. */
    method Wait(moves: seq<Target>)
      requires Run(b, moves).ready
      modifies this
      ensures b == Run(old(b), moves)
    {
      hide Tick;
      var i := 0;
      while !b.ready
        invariant i <= |moves| && Run(b, moves[i..]) == Run(old(b), moves)
        decreases |moves| - i
      {
        OnTimer(moves[i]);
        assert moves[i..][1..] == moves[i + 1..];
        i := i + 1;
      }
    }

    /** `i2c_write`. */
    method Write(byte: bv8, moves: seq<Target>) returns (acked: bool)
      requires Free(moves) >= 39
      modifies this
      ensures b == Run(BeginWrite(old(b), byte), moves) && b.sda && !b.scl
      ensures var ps := Pulses(BeginWrite(old(b), byte), moves, false);
        |ps| == 9 && Driven(ps) == Bits(byte, 8) + [true] && (acked <==> !ps[8].line)
    {
      hide Run, Tick, Pulses, Bits, Byte, Driven;
      ByteIsWritten(b, byte, moves);
      b := b.(data := byte, state := 0, nack := false, ready := false);
      Wait(moves);
      acked := !b.nack;
    }

    /** `i2c_read`. */
    method Read(moves: seq<Target>) returns (byte: bv8)
      requires b.sda && !b.scl && Free(moves) >= 37
      modifies this
      ensures b == Run(BeginRead(old(b)), moves) && b.sda && !b.scl
      ensures var ps := Pulses(BeginRead(old(b)), moves, false);
        |ps| == 9 && Driven(ps) == seq(8, _ => true) + [false] && byte == Byte(Lines(ps)[..8])
    {
      hide Run, Tick, Pulses, Bits, Byte, Driven, Lines;
      ByteIsRead(b, moves);
      b := b.(data := 0, state := 0x82, nack := false, ready := false);
      Wait(moves);
      byte := b.data;
    }
  }
}
