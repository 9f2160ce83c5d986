/** Whole runs of the flash store: boots, writes and power failures. */
module FlashDurability {
  import opened Flash

  /** A call of `flash_init` or `flash_write` made with `power` steps left.  A
      call that needs more steps than that is where the supply fails. */
  datatype Event =
    | Init(force: bool, power: nat)
    | Write(offset: uint16, bytes: Bytes, power: nat)

  /** `ready`: since power came back, some `flash_init` has returned true. */
  datatype Machine = Machine(store: Store, ready: bool)

  function Step(m: Machine, magic: Magic, e: Event): Machine {
    match e
    case Init(force, power) =>
      var o := AfterInit(m.store, magic, force, power);
      Machine(o.store, o.alive && o.result)
    case Write(offset, bytes, power) =>
      var o := AfterWrite(m.store, offset, bytes, power);
      Machine(o.store, o.alive)
  }

  function Run(m: Machine, magic: Magic, es: seq<Event>): Machine
    decreases |es|
  {
    if es == [] then m else Run(Step(m, magic, es[0]), magic, es[1..])
  }

  /** The application writes only to a store that is ready. */
  predicate Legal(m: Machine, magic: Magic, es: seq<Event>)
    decreases |es|
  {
    es == [] || ((es[0].Write? ==> m.ready) && Legal(Step(m, magic, es[0]), magic, es[1..]))
  }

  /** The image an uninterrupted `flash_init` would leave in the data block. */
  function View(s: Store, magic: Magic): Option<Block> {
    if MagicOk(s.data, magic) then Some(s.data)
    else if MagicOk(s.code, magic) then Some(s.code)
    else None
  }

  // ----- The specification: each call happens entirely or not at all -----

  function Effect(v: Option<Block>, magic: Magic, e: Event): Option<Block> {
    match e
    case Init(force, _) => if v.None? && force then Some(Formatted(magic)) else v
    case Write(offset, bytes, _) =>
      if v.Some? && offset >= MAGIC_LEN then Some(Overlay(v.value, offset, bytes)) else v
  }

  function Fold(v: Option<Block>, magic: Magic, es: seq<Event>, applied: seq<bool>): Option<Block>
    requires |applied| == |es|
    decreases |es|
  {
    if es == [] then v
    else Fold(if applied[0] then Effect(v, magic, es[0]) else v, magic, es[1..], applied[1..])
  }

  predicate ReturnsFrom(m: Machine, magic: Magic, e: Event) {
    match e
    case Init(force, power) => AfterInit(m.store, magic, force, power).alive
    case Write(offset, bytes, power) => AfterWrite(m.store, offset, bytes, power).alive
  }

  /** Every call of the run that returned is among the applied ones. */
  predicate ReturnedAreApplied(m: Machine, magic: Magic, es: seq<Event>, applied: seq<bool>)
    requires |applied| == |es|
    decreases |es|
  {
    es == [] ||
    ((ReturnsFrom(m, magic, es[0]) ==> applied[0])
     && ReturnedAreApplied(Step(m, magic, es[0]), magic, es[1..], applied[1..]))
  }

  ghost predicate Explains(s: Store, magic: Magic, es: seq<Event>, applied: seq<bool>) {
    && |applied| == |es|
    && ReturnedAreApplied(Machine(s, false), magic, es, applied)
    && View(Run(Machine(s, false), magic, es).store, magic) == Fold(View(s, magic), magic, es, applied)
  }

  ghost predicate Durable(s: Store, magic: Magic, es: seq<Event>) {
    exists applied :: Explains(s, magic, es, applied)
  }

  // ----- One step ---------------------------------------------------------

  lemma EarlyPartialHidesMagic(img: Block, magic: Magic, words: nat)
    requires magic != NO_MAGIC && SIZE - 2 * words >= MAGIC_LEN
    ensures !MagicOk(Partial(img, words), magic)
  {
    assert Partial(img, words)[..MAGIC_LEN] == NO_MAGIC;
  }

  /** Because the magic goes in last, a copy cut short shows it only when the
      missing words are blank anyway. */
  lemma PartialShowsMagic(img: Block, magic: Magic, words: nat)
    requires magic != NO_MAGIC && MagicOk(img, magic) && MagicOk(Partial(img, words), magic)
    ensures Partial(img, words) == img
  {
    var p := Partial(img, words);
    assert forall i :: 0 <= i < MAGIC_LEN ==> p[i] == p[..MAGIC_LEN][i] && img[i] == img[..MAGIC_LEN][i];
    if SIZE - 2 * words >= MAGIC_LEN {
      EarlyPartialHidesMagic(img, magic, words);
    }
  }

  lemma OverlayKeepsMagic(base: Block, magic: Magic, offset: uint16, bytes: Bytes)
    requires MagicOk(base, magic) && offset >= MAGIC_LEN
    ensures MagicOk(Overlay(base, offset, bytes), magic)
  {
    var o := Overlay(base, offset, bytes);
    assert o[..MAGIC_LEN] == base[..MAGIC_LEN];
  }

  lemma FormatIsAtomic(s: Store, magic: Magic, k: nat)
    requires magic != NO_MAGIC && View(s, magic) == None
    ensures View(FormatCut(s, magic, k), magic) in {None, Some(Formatted(magic))}
    ensures k >= FORMAT_STEPS ==> View(FormatCut(s, magic, k), magic) == Some(Formatted(magic))
  {
    var d := FormatCut(s, magic, k).data;
    assert d[..MAGIC_LEN] == [d[0], d[1], d[2], d[3]];
    assert magic == [magic[0], magic[1], magic[2], magic[3]];
    if k == 2 && MagicOk(d, magic) {
      assert d == Formatted(magic);
    }
  }

  lemma InitIsAtomic(s: Store, magic: Magic, force: bool, power: nat)
    requires magic != NO_MAGIC
    ensures var o := AfterInit(s, magic, force, power); var v := View(o.store, magic);
      && (v == View(s, magic) || v == Effect(View(s, magic), magic, Init(force, power)))
      && (o.alive ==> v == Effect(View(s, magic), magic, Init(force, power)))
      && (o.alive && o.result ==> MagicOk(o.store.data, magic))
  {
    if !MagicOk(s.data, magic) {
      if MagicOk(s.code, magic) {
        var words := Min(BLOCK_STEPS, power) - 1;
        if words >= 0 && MagicOk(Partial(s.code, words), magic) {
          PartialShowsMagic(s.code, magic, words);
        }
        assert Partial(s.code, BLOCK_STEPS - 1) == s.code;
      } else if force {
        FormatIsAtomic(s, magic, Min(FORMAT_STEPS, power));
      }
    }
  }

  lemma WriteIsAtomic(s: Store, magic: Magic, offset: uint16, bytes: Bytes, power: nat)
    requires magic != NO_MAGIC && MagicOk(s.data, magic)
    ensures var o := AfterWrite(s, offset, bytes, power); var v := View(o.store, magic);
      && v == (if power > BLOCK_STEPS then Effect(View(s, magic), magic, Write(offset, bytes, power)) else View(s, magic))
      && (o.alive ==> MagicOk(o.store.data, magic))
  {
    if offset >= MAGIC_LEN && power > BLOCK_STEPS {
      var img := Overlay(s.data, offset, bytes);
      OverlayKeepsMagic(s.data, magic, offset, bytes);
      var words := Min(WRITE_STEPS, power) - BLOCK_STEPS - 1;
      if MagicOk(Partial(img, words), magic) {
        PartialShowsMagic(img, magic, words);
      }
      assert Partial(img, BLOCK_STEPS - 1) == img;
    }
  }

  // ----- Whole runs -------------------------------------------------------

  lemma {:induction false} RunIsFold(m: Machine, magic: Magic, es: seq<Event>) returns (applied: seq<bool>)
    requires magic != NO_MAGIC && Legal(m, magic, es)
    requires m.ready ==> MagicOk(m.store.data, magic)
    ensures |applied| == |es| && ReturnedAreApplied(m, magic, es, applied)
    ensures var end := Run(m, magic, es);
      && View(end.store, magic) == Fold(View(m.store, magic), magic, es, applied)
      && (end.ready ==> MagicOk(end.store.data, magic))
    decreases |es|
  {
    if es == [] {
      applied := [];
    } else {
      var m', e := Step(m, magic, es[0]), es[0];
      match e {
        case Init(force, power) => InitIsAtomic(m.store, magic, force, power);
        case Write(offset, bytes, power) => WriteIsAtomic(m.store, magic, offset, bytes, power);
      }
      var first := View(m'.store, magic) == Effect(View(m.store, magic), magic, e);
      var rest := RunIsFold(m', magic, es[1..]);
      applied := [first] + rest;
      assert applied[1..] == rest;
    }
  }

  /** Crash atomicity: from any blocks whatever, however often and wherever the
      power fails, the store is the fold of calls applied entirely or not at
      all, with every call that returned among them. */
  lemma CrashAtomicity(s: Store, magic: Magic, es: seq<Event>)
    requires magic != NO_MAGIC && Legal(Machine(s, false), magic, es)
    ensures Durable(s, magic, es)
  {
    var applied := RunIsFold(Machine(s, false), magic, es);
    assert Explains(s, magic, es, applied);
  }

  /** ... and the next uninterrupted boot puts exactly that image in the data block. */
  lemma BootRecovers(s: Store, magic: Magic, force: bool)
    requires magic != NO_MAGIC
    ensures var o := AfterInit(s, magic, force, BLOCK_STEPS);
      && o.alive
      && (o.result <==> View(s, magic).Some? || force)
      && (View(s, magic).Some? ==> o.store.data == View(s, magic).value)
  {
    InitIsAtomic(s, magic, force, BLOCK_STEPS);
  }

  /** With the erased pattern as magic a cut write can lose everything. */
  lemma ErasedMagicLosesData(s: Store, es: seq<Event>)
    requires s.data == NO_MAGIC + seq(SIZE - MAGIC_LEN, _ => 0)
    requires es == [Init(false, 0), Write(MAGIC_LEN, [], BLOCK_STEPS + 1)]
    ensures Legal(Machine(s, false), NO_MAGIC, es)
    ensures !Durable(s, NO_MAGIC, es)
  {
    var m1 := Step(Machine(s, false), NO_MAGIC, es[0]);
    assert m1 == Machine(s, true);
    assert es[1..][0] == es[1] && es[1..][1..] == [];
    var m2 := Step(m1, NO_MAGIC, es[1]);
    assert Run(Machine(s, false), NO_MAGIC, es) == Run(m1, NO_MAGIC, es[1..]) == m2;
    var blank := Partial(Overlay(s.data, MAGIC_LEN, []), 0);
    assert m2.store.data == blank;
    assert blank[..MAGIC_LEN] == NO_MAGIC;
    assert Overlay(s.data, MAGIC_LEN, []) == s.data;
    forall applied ensures !Explains(s, NO_MAGIC, es, applied) {
      if |applied| == 2 {
        assert applied[1..][1..] == [];
        assert Effect(Some(s.data), NO_MAGIC, es[0]) == Effect(Some(s.data), NO_MAGIC, es[1]) == Some(s.data);
        assert Fold(Some(s.data), NO_MAGIC, es[1..], applied[1..]) == Some(s.data);
        assert Fold(Some(s.data), NO_MAGIC, es, applied) == Some(s.data);
        assert blank[MAGIC_LEN] != s.data[MAGIC_LEN];
      }
    }
  }

  /** The store is crash safe for exactly the magics other than 0xffffffff. */
  lemma CrashSafeMagics(magic: Magic)
    ensures (forall s, es :: Legal(Machine(s, false), magic, es) ==> Durable(s, magic, es)) <==> magic != NO_MAGIC
  {
    if magic != NO_MAGIC {
      forall s, es | Legal(Machine(s, false), magic, es) ensures Durable(s, magic, es) {
        CrashAtomicity(s, magic, es);
      }
    } else {
      var s := Store(NO_MAGIC + seq(SIZE - MAGIC_LEN, _ => 0), NO_MAGIC + seq(SIZE - MAGIC_LEN, _ => 0));
      ErasedMagicLosesData(s, [Init(false, 0), Write(MAGIC_LEN, [], BLOCK_STEPS + 1)]);
    }
  }

  /** Why a write must wait for a successful boot: on a recoverable store it
      does its job exactly when the data block already shows the magic; during
      an unfinished recovery it destroys both copies. */
  lemma WriteNeedsRecovery(s: Store, magic: Magic, offset: uint16, bytes: Bytes)
    requires magic != NO_MAGIC && View(s, magic).Some? && offset >= MAGIC_LEN
    ensures var v := View(AfterWrite(s, offset, bytes, WRITE_STEPS).store, magic);
      && (v == Effect(View(s, magic), magic, Write(offset, bytes, WRITE_STEPS)) <==> MagicOk(s.data, magic))
      && (v.None? <==> !MagicOk(s.data, magic))
  {
    if MagicOk(s.data, magic) {
      WriteIsAtomic(s, magic, offset, bytes, WRITE_STEPS);
    } else {
      var img := Overlay(s.data, offset, bytes);
      assert img[..MAGIC_LEN] == s.data[..MAGIC_LEN];
      assert Partial(img, BLOCK_STEPS - 1) == img;
    }
  }

  // ----- The store as a byte map ------------------------------------------

  predicate Covers(e: Event, j: nat) {
    e.Write? && MAGIC_LEN <= e.offset <= j < (e.offset + |e.bytes|) % 0x1_0000
  }

  /** Byte j after the applied writes: the latest one that covers it decides. */
  function LatestByte(initial: bv8, es: seq<Event>, applied: seq<bool>, j: nat): bv8
    requires |applied| == |es|
    decreases |es|
  {
    if es == [] then initial
    else
      var n := |es| - 1;
      if applied[n] && Covers(es[n], j) then es[n].bytes[j - es[n].offset]
      else LatestByte(initial, es[..n], applied[..n], j)
  }

  lemma {:induction false} FoldIsByteMap(v: Block, magic: Magic, es: seq<Event>, applied: seq<bool>, j: nat)
    requires |applied| == |es| && j < SIZE
    ensures var r := Fold(Some(v), magic, es, applied);
      r.Some? && r.value[j] == LatestByte(v[j], es, applied, j)
    decreases |es|
  {
    if es != [] {
      var n := |es| - 1;
      FoldLast(Some(v), magic, es, applied);
      FoldIsByteMap(v, magic, es[..n], applied[..n], j);
    }
  }

  lemma {:induction false} FoldLast(v: Option<Block>, magic: Magic, es: seq<Event>, applied: seq<bool>)
    requires |applied| == |es| > 0
    ensures var n := |es| - 1; var before := Fold(v, magic, es[..n], applied[..n]);
      Fold(v, magic, es, applied) == if applied[n] then Effect(before, magic, es[n]) else before
    decreases |es|
  {
    var n := |es| - 1;
    if n > 0 {
      FoldLast(if applied[0] then Effect(v, magic, es[0]) else v, magic, es[1..], applied[1..]);
      assert es[1..][..n - 1] == es[..n][1..] && applied[1..][..n - 1] == applied[..n][1..];
    }
  }

  /** Calls of `flash_write` that all return. */
  predicate CrashFree(es: seq<Event>) {
    forall k :: 0 <= k < |es| ==> es[k].Write? && es[k].power >= WRITE_STEPS
  }

  function All(n: nat): seq<bool> {
    seq(n, _ => true)
  }

  lemma WriteDone(s: Store, offset: uint16, bytes: Bytes, power: nat)
    requires power >= WRITE_STEPS
    ensures var after := AfterWrite(s, offset, bytes, power).store.data;
      after == if offset >= MAGIC_LEN then Overlay(s.data, offset, bytes) else s.data
  {
    var img := Overlay(s.data, offset, bytes);
    assert Partial(img, BLOCK_STEPS - 1) == img;
  }

  /** What the caller of a `flash_write` that returns may rely on: with true its
      bytes lie in the data block from the offset on and all others are as they
      were; false means that the magic was aimed at, and nothing has happened. */
  lemma WriteAnswer(s: Store, offset: uint16, bytes: Bytes, power: nat)
    requires power >= 1026 && offset + |bytes| <= 1024
    ensures var o := AfterWrite(s, offset, bytes, power);
      && o.alive && (o.result <==> offset >= 4)
      && (!o.result ==> o.store == s)
      && (o.result ==>
          && o.store.data[offset..offset + |bytes|] == bytes
          && o.store.data[..offset] == s.data[..offset] && o.store.data[offset + |bytes|..] == s.data[offset + |bytes|..])
  {
    hide AfterWrite, Overlay;
    WriteDone(s, offset, bytes, power);
    OverlayRead(s.data, offset, bytes);
    Refused(s, offset, bytes, power);
  }

  lemma OverlayRead(base: Block, offset: uint16, bytes: Bytes)
    requires offset + |bytes| <= 1024
    ensures var b := Overlay(base, offset, bytes); var end := offset + |bytes|;
      b[offset..end] == bytes && b[..offset] == base[..offset] && b[end..] == base[end..]
  {
    var b, end := Overlay(base, offset, bytes), offset + |bytes|;
    assert forall i :: 0 <= i < SIZE ==> b[i] == if offset <= i < end then bytes[i - offset] else base[i];
    hide Overlay;
  }

  lemma Refused(s: Store, offset: uint16, bytes: Bytes, power: nat)
    requires power >= 1026
    ensures var o := AfterWrite(s, offset, bytes, power);
      o.alive && (o.result <==> offset >= 4) && (!o.result ==> o.store == s)
  {
    hide RestoreCut;
  }

  lemma {:induction false} WritesFold(m: Machine, magic: Magic, es: seq<Event>)
    requires CrashFree(es)
    ensures Fold(Some(m.store.data), magic, es, All(|es|)) == Some(Run(m, magic, es).store.data)
    decreases |es|
  {
    hide Overlay, AfterWrite;
    if es != [] {
      WriteDone(m.store, es[0].offset, es[0].bytes, es[0].power);
      assert All(|es|)[1..] == All(|es| - 1);
      WritesFold(Step(m, magic, es[0]), magic, es[1..]);
    }
  }

  /** Over crash-free writes the data block is a plain map of bytes, for every
      magic: each byte is what the latest write that covers it put there. */
  lemma StoreIsByteMap(m: Machine, magic: Magic, es: seq<Event>, j: nat)
    requires CrashFree(es) && j < SIZE
    ensures Run(m, magic, es).store.data[j] == LatestByte(m.store.data[j], es, All(|es|), j)
  {
    WritesFold(m, magic, es);
    FoldIsByteMap(m.store.data, magic, es, All(|es|), j);
  }
}
