/** The HID report descriptor parser of src/usb/hid/hid.c up to its `quit` label:
    one cursor loop over the items of HID 1.11 section 6.2.2. */
module HidReport {

  type byte = n: nat | n < 0x100
  const UNSET := 0xffff
  const AXES := 6
  const BUTTONS := 13
  const USAGES := 12
  const HAT_BITS := 4

  const USAGE_X := 0x0001_0030
  const USAGE_Y := 0x0001_0031
  const USAGE_Z := 0x0001_0032
  const USAGE_RZ := 0x0001_0035
  const USAGE_HAT := 0x0001_0039
  const USAGE_PS4_COUNTER := 0xff00_0020

  type Axes = s: seq<nat> | |s| == AXES witness seq(AXES, _ => 0)
  type Buttons = s: seq<nat> | |s| == BUTTONS witness seq(BUTTONS, _ => 0)
  type Usages = s: seq<nat> | |s| == USAGES witness seq(USAGES, _ => 0)

  /** The part of `struct hid_info` the loop writes; `dpad` stays unset and the
      sign, shift and polarity of an axis stay plain. */
  datatype Info = Info(reportSize: nat, axis: Axes, axisSize: Axes, hat: nat, button: Buttons, reportId: byte, ps4: bool)

  /** The loop's variables: `hid_info`, the global items, and the indices. */
  datatype Parser = Parser(
    info: Info, size: byte, count: byte, page: nat, usages: Usages, usageIndex: nat,
    buttonIndex: nat, analogIndex: nat, quit: bool)

  function Cleared(i: Info): Info {
    i.(reportSize := 0, axis := seq(AXES, _ => UNSET), hat := UNSET, button := seq(BUTTONS, _ => UNSET))
  }

  const NO_USAGES: Usages := [0, 0, 0, 0, 0, 0, 0, 0, 0, 0, 0, 0]

  function Start(i: Info): Parser {
    Parser(Cleared(i).(reportId := 0), 0, 0, 0, NO_USAGES, 0, 0, 0, false)
  }

  // ----- Items --------------------------------------------------------------

  /** An item: its prefix byte and its one- or two-byte value (else 0). */
  datatype Item = Item(prefix: byte, value: nat)

  datatype Scan = End | Next(item: Item, at: nat)

  function Word(low: byte, high: byte): nat { low + 256 * high }

  /** The item at i and where the next one starts, or the end of what can be read. */
  function ScanAt(d: seq<byte>, i: nat): Scan
    requires i < |d|
  {
    if d[i] == 0xfe then
      if i + 1 < |d| then Next(Item(0xfe, 0), i + d[i + 1] + 3) else End
    else if d[i] % 4 == 0 then Next(Item(d[i], 0), i + 1)
    else if d[i] % 4 == 1 then
      if i + 1 < |d| then Next(Item(d[i], d[i + 1]), i + 2) else End
    else if d[i] % 4 == 2 then
      if i + 2 < |d| then Next(Item(d[i], Word(d[i + 1], d[i + 2])), i + 3) else End
    else Next(Item(d[i], 0), i + 5)
  }

  function Items(d: seq<byte>, i: nat): seq<Item>
    decreases |d| - i
  {
    if i >= |d| then []
    else
      match ScanAt(d, i)
      case End => []
      case Next(item, at) => [item] + Items(d, at)
  }

  // ----- One item --------------------------------------------------------------

  function AddUsage(p: Parser, value: nat): Parser {
    if p.usageIndex < USAGES then
      p.(usages := p.usages[p.usageIndex := p.page * 0x1_0000 + value], usageIndex := p.usageIndex + 1)
    else p
  }

  function ClearUsages(p: Parser): Parser {
    p.(usages := NO_USAGES, usageIndex := 0)
  }

  function PressButtons(p: Parser, i: nat): Parser
    decreases p.count - i
  {
    if i < p.count && p.buttonIndex < BUTTONS then
      PressButtons(p.(info := p.info.(button := p.info.button[p.buttonIndex := (p.info.reportSize + i) % 0x1_0000]),
                      buttonIndex := p.buttonIndex + 1), i + 1)
    else p
  }

  /** The slot for field i: the axis its usage names, or the current one.  The
      list of usages ends at twelve; what lies behind it is not in this model. */
  function SlotOf(p: Parser, i: nat): nat {
    var u := if i < USAGES then p.usages[i] else 0;
    if u == USAGE_X then 0 else if u == USAGE_Y then 1 else if u == USAGE_Z then 2
    else if u == USAGE_RZ then 3 else p.analogIndex
  }

  function NextFree(axis: Axes, k: nat): nat
    decreases AXES - k
  {
    if k < AXES && axis[k] != UNSET then NextFree(axis, k + 1) else k
  }

  function PlaceAxis(p: Parser, i: nat): Parser
    requires p.analogIndex < AXES
  {
    var k := SlotOf(p, i);
    var axis := p.info.axis[k := (p.info.reportSize + p.size * i) % 0x1_0000];
    p.(info := p.info.(axis := axis, axisSize := p.info.axisSize[k := p.size]), analogIndex := NextFree(axis, k + 1))
  }

  function PlaceAxes(p: Parser, i: nat): Parser
    decreases p.count - i
  {
    if i < p.count && p.analogIndex < AXES then PlaceAxes(PlaceAxis(p, i), i + 1) else p
  }

  predicate IsHat(p: Parser, flags: byte) {
    flags % 2 == 0 && p.usages[0] == USAGE_HAT && p.size == HAT_BITS
  }

  /** The controls an Input item records. */
  function Controls(p: Parser, flags: byte): Parser {
    if flags % 2 == 1 then p
    else if p.usages[0] == USAGE_HAT && p.size == HAT_BITS then p.(info := p.info.(hat := p.info.reportSize))
    else if p.usages[0] == USAGE_PS4_COUNTER && p.size == 6 then p.(info := p.info.(ps4 := true))
    else if p.size == 1 then PressButtons(p, 0)
    else PlaceAxes(p, 0)
  }

  function Input(p: Parser, flags: byte): Parser {
    var q := Controls(p, flags);
    q.(usageIndex := 0, info := q.info.(reportSize := (q.info.reportSize + q.size * q.count) % 0x1_0000))
  }

  /** The report read so far has enough controls to be taken as it is. */
  predicate Usable(i: Info) {
    i.reportSize != 0 && (i.hat != UNSET || i.axis[1] != UNSET) && i.button[1] != UNSET
  }

  function ReportId(p: Parser, id: byte): Parser {
    if Usable(p.info) then p.(quit := true)
    else ClearUsages(p.(info := Cleared(p.info).(reportId := id), buttonIndex := 0, analogIndex := 0))
  }

  function Step(p: Parser, it: Item): Parser {
    if p.quit then p
    else if it.prefix == 0xc0 then ClearUsages(p)
    else if it.prefix == 0x05 || it.prefix == 0x06 then p.(page := it.value)
    else if it.prefix == 0x09 || it.prefix == 0x0a then AddUsage(p, it.value)
    else if it.prefix == 0x75 then p.(size := it.value % 0x100)
    else if it.prefix == 0x81 then Input(p, it.value % 0x100)
    else if it.prefix == 0x85 then ReportId(p, it.value % 0x100)
    else if it.prefix == 0x95 then p.(count := it.value % 0x100)
    else if it.prefix == 0xa1 then ClearUsages(p)
    else p
  }

  function Fold(p: Parser, items: seq<Item>): Parser
    decreases |items|
  {
    if items == [] then p else Fold(Step(p, items[0]), items[1..])
  }

  // ----- What the fields of a report look like --------------------------------

  /** The bits of a control: where it starts, and how many. */
  datatype Field = Field(at: nat, width: nat)

  predicate Apart(a: Field, b: Field) {
    a.at + a.width <= b.at || b.at + b.width <= a.at
  }

  // Per kind of control: where it ends.

  ghost predicate AxesBelow(axis: Axes, size: Axes, limit: nat) {
    forall k :: 0 <= k < AXES && axis[k] != UNSET ==> axis[k] + size[k] <= limit
  }

  ghost predicate ButtonsBelow(button: Buttons, limit: nat) {
    forall k :: 0 <= k < BUTTONS && button[k] != UNSET ==> button[k] < limit
  }

  predicate HatBelow(hat: nat, limit: nat) {
    hat != UNSET ==> hat + HAT_BITS <= limit
  }

  /** Every control that was found ends at or before bit `limit`. */
  ghost predicate Below(i: Info, limit: nat) {
    AxesBelow(i.axis, i.axisSize, limit) && ButtonsBelow(i.button, limit) && HatBelow(i.hat, limit)
  }

  ghost predicate AxesApart(axis: Axes, size: Axes) {
    forall k, l :: 0 <= k < l < AXES && axis[k] != UNSET && axis[l] != UNSET ==>
      Apart(Field(axis[k], size[k]), Field(axis[l], size[l]))
  }

  ghost predicate AxesOffButtons(axis: Axes, size: Axes, button: Buttons) {
    forall k, l :: 0 <= k < AXES && 0 <= l < BUTTONS && axis[k] != UNSET && button[l] != UNSET ==>
      Apart(Field(axis[k], size[k]), Field(button[l], 1))
  }

  ghost predicate AxesOffHat(axis: Axes, size: Axes, hat: nat) {
    forall k :: 0 <= k < AXES && axis[k] != UNSET && hat != UNSET ==> Apart(Field(axis[k], size[k]), Field(hat, HAT_BITS))
  }

  ghost predicate ButtonsOffHat(button: Buttons, hat: nat) {
    forall l :: 0 <= l < BUTTONS && button[l] != UNSET && hat != UNSET ==> Apart(Field(button[l], 1), Field(hat, HAT_BITS))
  }

  /** No two controls share a bit; the buttons differ by their order below. */
  ghost predicate Disjoint(i: Info) {
    && AxesApart(i.axis, i.axisSize) && AxesOffButtons(i.axis, i.axisSize, i.button)
    && AxesOffHat(i.axis, i.axisSize, i.hat) && ButtonsOffHat(i.button, i.hat)
  }

  /** The first `n` buttons are set, in increasing order, and no others. */
  ghost predicate Ordered(button: Buttons, n: nat) {
    && n <= BUTTONS
    && (forall k :: 0 <= k < BUTTONS ==> (button[k] != UNSET <==> k < n))
    && (forall k, l :: 0 <= k < l < n ==> button[k] < button[l])
  }

  ghost predicate Sound(i: Info, limit: nat, n: nat) {
    Below(i, limit) && Disjoint(i) && Ordered(i.button, n)
  }

  lemma AxisJoins(axis: Axes, size: Axes, button: Buttons, hat: nat, limit: nat, k: nat, at: nat, w: nat)
    requires AxesBelow(axis, size, limit) && ButtonsBelow(button, limit) && HatBelow(hat, limit) && k < AXES && limit <= at
    requires AxesApart(axis, size) && AxesOffButtons(axis, size, button) && AxesOffHat(axis, size, hat)
    ensures var axis', size' := axis[k := at], size[k := w];
      && AxesBelow(axis', size', at + w) && AxesApart(axis', size')
      && AxesOffButtons(axis', size', button) && AxesOffHat(axis', size', hat)
  {
  }

  lemma PlaceAxisSound(i: Info, limit: nat, n: nat, k: nat, at: nat, w: nat)
    requires Sound(i, limit, n) && k < AXES && limit <= at
    ensures Sound(i.(axis := i.axis[k := at], axisSize := i.axisSize[k := w]), at + w, n)
  {
    AxisJoins(i.axis, i.axisSize, i.button, i.hat, limit, k, at, w);
    hide AxesBelow, AxesApart, AxesOffButtons, AxesOffHat, ButtonsOffHat, Ordered;
  }

  lemma ButtonJoins(axis: Axes, size: Axes, button: Buttons, hat: nat, limit: nat, n: nat, at: nat)
    requires AxesBelow(axis, size, limit) && ButtonsBelow(button, limit) && HatBelow(hat, limit)
    requires AxesOffButtons(axis, size, button) && ButtonsOffHat(button, hat) && Ordered(button, n)
    requires n < BUTTONS && limit <= at < UNSET
    ensures var button' := button[n := at];
      && ButtonsBelow(button', at + 1) && AxesOffButtons(axis, size, button')
      && ButtonsOffHat(button', hat) && Ordered(button', n + 1)
  {
  }

  lemma PressButtonSound(i: Info, limit: nat, n: nat, at: nat)
    requires Sound(i, limit, n) && n < BUTTONS && limit <= at < UNSET
    ensures Sound(i.(button := i.button[n := at]), at + 1, n + 1)
  {
    ButtonJoins(i.axis, i.axisSize, i.button, i.hat, limit, n, at);
    hide ButtonsBelow, AxesApart, AxesOffButtons, AxesOffHat, ButtonsOffHat, Ordered;
  }

  lemma HatSound(i: Info, limit: nat, n: nat, at: nat)
    requires Sound(i, limit, n) && limit <= at
    ensures Sound(i.(hat := at), at + HAT_BITS, n)
  {
    hide AxesApart, AxesOffButtons, Ordered;
  }

  lemma BelowMore(i: Info, a: nat, b: nat, n: nat)
    requires Sound(i, a, n) && a <= b
    ensures Sound(i, b, n)
  {
  }

  lemma FieldEnd(size: nat, i: nat, count: nat)
    requires i < count
    ensures size * i + size == size * (i + 1) <= size * count
  {
    Distributes(size, i, 1);
    Distributes(size, i + 1, count - (i + 1));
  }

  lemma Distributes(size: nat, a: nat, b: nat)
    ensures size * (a + b) == size * a + size * b >= size * a
  {
  }

  lemma PlaceOneSound(p: Parser, i: nat, limit: nat, at: nat)
    requires p.analogIndex < AXES && at == p.info.reportSize + p.size * i && limit <= at < UNSET
    requires Sound(p.info, limit, p.buttonIndex)
    ensures var q := PlaceAxis(p, i);
      && Sound(q.info, at + p.size, p.buttonIndex)
      && q.(info := p.info, analogIndex := p.analogIndex) == p && q.info.reportSize == p.info.reportSize
  {
    hide Sound;
    PlaceAxisSound(p.info, limit, p.buttonIndex, SlotOf(p, i), at, p.size);
  }

  lemma {:induction false} PlaceAxesSound(p: Parser, i: nat, limit: nat, end: nat)
    requires end == p.info.reportSize + p.size * p.count < UNSET && i <= p.count
    requires Sound(p.info, limit, p.buttonIndex) && limit <= p.info.reportSize + p.size * i
    ensures var q := PlaceAxes(p, i);
      && Sound(q.info, end, p.buttonIndex)
      && q.(info := p.info, analogIndex := p.analogIndex) == p && q.info.reportSize == p.info.reportSize
    decreases p.count - i
  {
    hide Sound, PlaceAxis;
    if i < p.count && p.analogIndex < AXES {
      FieldEnd(p.size, i, p.count);
      var at := p.info.reportSize + p.size * i;
      PlaceOneSound(p, i, limit, at);
      PlaceAxesSound(PlaceAxis(p, i), i + 1, at + p.size, end);
    } else {
      if i < p.count { FieldEnd(p.size, i, p.count); }
      BelowMore(p.info, limit, end, p.buttonIndex);
    }
  }

  lemma {:induction false} PressButtonsSound(p: Parser, i: nat, limit: nat)
    requires p.size == 1 && p.info.reportSize + p.count < UNSET && i <= p.count
    requires Sound(p.info, limit, p.buttonIndex) && limit <= p.info.reportSize + i
    ensures var q := PressButtons(p, i);
      && Sound(q.info, p.info.reportSize + p.count, q.buttonIndex)
      && q.(info := p.info, buttonIndex := p.buttonIndex) == p && q.info.reportSize == p.info.reportSize
    decreases p.count - i
  {
    if i < p.count && p.buttonIndex < BUTTONS {
      var at := p.info.reportSize + i;
      PressButtonSound(p.info, limit, p.buttonIndex, at);
      PressButtonsSound(p.(info := p.info.(button := p.info.button[p.buttonIndex := at]), buttonIndex := p.buttonIndex + 1), i + 1, at + 1);
    } else {
      BelowMore(p.info, limit, p.info.reportSize + p.count, p.buttonIndex);
    }
  }

  // ----- Where the axes go --------------------------------------------------------

  /** The slot that X, Y, Z and Rz of the Generic Desktop page have in `axis`. */
  predicate Names(usage: nat, slot: nat) {
    (usage == 0x1_0030 && slot == 0) || (usage == 0x1_0031 && slot == 1)
    || (usage == 0x1_0032 && slot == 2) || (usage == 0x1_0035 && slot == 3)
  }

  /** The usage of field i; twelve are kept. */
  function UsageOf(p: Parser, i: nat): nat {
    if i < USAGES then p.usages[i] else 0
  }

  predicate Named(usage: nat) {
    usage == 0x1_0030 || usage == 0x1_0031 || usage == 0x1_0032 || usage == 0x1_0035
  }

  /** No named usage: the first free slot from `from` on. */
  predicate FirstFree(axis: Axes, from: nat, slot: nat) {
    from <= slot < AXES && axis[slot] == UNSET && forall k :: from <= k < slot ==> axis[k] != UNSET
  }

  /** The next slot to use is free, or there is none. */
  predicate SlotReady(p: Parser) {
    p.analogIndex >= AXES || p.info.axis[p.analogIndex] == UNSET
  }

  /** Where field i starts. */
  function FieldAt(p: Parser, i: nat): nat {
    p.info.reportSize + p.size * i
  }

  /** The last field that went into a slot, or -1. */
  function LastOf(slots: seq<nat>, slot: nat): (j: int)
    ensures -1 <= j < |slots| && (j < 0 ==> slot !in slots)
    ensures j >= 0 ==> slots[j] == slot && forall k :: j < k < |slots| ==> slots[k] != slot
  {
    if slots == [] then -1
    else
      var k := LastOf(slots[1..], slot);
      if k >= 0 then k + 1 else if slots[0] == slot then 0 else -1
  }

  /** Each slot holds the last of the fields i, i + 1, ... that it got, if any. */
  ghost predicate Filled(p: Parser, i: nat, slots: seq<nat>, q: Parser) {
    forall s :: 0 <= s < AXES ==> Holds(p, q, s, i, LastOf(slots, s))
  }

  predicate Holds(p: Parser, q: Parser, s: nat, i: nat, j: int)
    requires s < AXES && j >= -1
  {
    if j >= 0 then q.info.axis[s] == FieldAt(p, i + j) && q.info.axisSize[s] == p.size
    else q.info.axis[s] == p.info.axis[s] && q.info.axisSize[s] == p.info.axisSize[s]
  }

  /** A field with one of the four usages has the slot of that usage; any other one
      has the next slot behind the field before it that is free. */
  ghost predicate SlotsChosen(p: Parser, i: nat, slots: seq<nat>) {
    forall j :: 0 <= j < |slots| ==> SlotChosen(p, i, slots, j)
  }

  ghost predicate SlotChosen(p: Parser, i: nat, slots: seq<nat>, j: nat)
    requires j < |slots|
  {
    slots[j] < AXES && if Named(UsageOf(p, i + j)) then Names(UsageOf(p, i + j), slots[j]) else NextSlot(p, slots, j)
  }

  /** Nothing was recorded in the slot of field j, no field before has it, and the
      slots between the two have been taken. */
  ghost predicate NextSlot(p: Parser, slots: seq<nat>, j: nat)
    requires j < |slots| && slots[j] < AXES
  {
    && Untaken(p, slots, j, slots[j])
    && (j == 0 ==> slots[0] == p.analogIndex)
    && (j > 0 ==> slots[j - 1] < slots[j] && forall k :: slots[j - 1] < k < slots[j] ==> !Untaken(p, slots, j, k))
  }

  predicate Untaken(p: Parser, slots: seq<nat>, j: nat, k: nat)
    requires j <= |slots| && k < AXES
  {
    p.info.axis[k] == UNSET && k !in slots[..j]
  }

  lemma NextFreeIsFirst(axis: Axes, k: nat)
    requires k <= AXES
    ensures var n := NextFree(axis, k);
      k <= n <= AXES && (n < AXES ==> FirstFree(axis, k, n)) && (n == AXES ==> forall j :: k <= j < AXES ==> axis[j] != UNSET)
    decreases AXES - k
  {
    if k < AXES && axis[k] != UNSET {
      NextFreeIsFirst(axis, k + 1);
    }
  }

  /** One field: its slot, and what becomes of the list of axes. */
  lemma PlaceOne(p: Parser, i: nat) returns (slot: nat)
    requires p.analogIndex < AXES && SlotReady(p) && FieldAt(p, i) < UNSET
    ensures slot < AXES && if Named(UsageOf(p, i)) then Names(UsageOf(p, i), slot) else slot == p.analogIndex && p.info.axis[slot] == UNSET
    ensures var q := PlaceAxis(p, i);
      && SlotReady(q) && q.usages == p.usages && q.size == p.size && q.count == p.count && q.info.reportSize == p.info.reportSize
      && q.info.axis == p.info.axis[slot := FieldAt(p, i)] && q.info.axisSize == p.info.axisSize[slot := p.size]
      && (q.analogIndex < AXES ==> FirstFree(q.info.axis, slot + 1, q.analogIndex))
      && (q.analogIndex >= AXES ==> forall k :: slot < k < AXES ==> q.info.axis[k] != UNSET)
  {
    var q := PlaceAxis(p, i);
    slot := SlotOf(p, i);
    NextFreeIsFirst(q.info.axis, slot + 1);
  }

  lemma FilledMore(p: Parser, i: nat, slot: nat, mid: Parser, rest: seq<nat>, q: Parser)
    requires slot < AXES && mid.size == p.size && mid.info.reportSize == p.info.reportSize
    requires mid.info.axis == p.info.axis[slot := FieldAt(p, i)] && mid.info.axisSize == p.info.axisSize[slot := p.size]
    requires Filled(mid, i + 1, rest, q)
    ensures Filled(p, i, [slot] + rest, q)
  {
    var slots := [slot] + rest;
    assert slots[1..] == rest;
    forall s | 0 <= s < AXES ensures Holds(p, q, s, i, LastOf(slots, s)) {
      assert Holds(mid, q, s, i + 1, LastOf(rest, s));
    }
  }

  lemma ChosenMore(p: Parser, i: nat, slot: nat, mid: Parser, rest: seq<nat>)
    requires slot < AXES && mid.usages == p.usages && FieldAt(p, i) < UNSET
    requires mid.info.axis == p.info.axis[slot := FieldAt(p, i)]
    requires if Named(UsageOf(p, i)) then Names(UsageOf(p, i), slot) else slot == p.analogIndex && p.info.axis[slot] == UNSET
    requires mid.analogIndex < AXES ==> FirstFree(mid.info.axis, slot + 1, mid.analogIndex)
    requires SlotsChosen(mid, i + 1, rest)
    ensures SlotsChosen(p, i, [slot] + rest)
  {
    hide SlotChosen, Untaken, FirstFree, Names, Named, UsageOf, FieldAt;
    var slots := [slot] + rest;
    forall j | 0 <= j < |slots| ensures SlotChosen(p, i, slots, j) {
      if j > 0 {
        assert SlotChosen(mid, i + 1, rest, j - 1);
        ChosenLater(p, i, slot, mid, rest, j - 1);
      } else {
        ChosenFirst(p, i, slot, rest);
      }
    }
  }

  lemma ChosenFirst(p: Parser, i: nat, slot: nat, rest: seq<nat>)
    requires slot < AXES
    requires if Named(UsageOf(p, i)) then Names(UsageOf(p, i), slot) else slot == p.analogIndex && p.info.axis[slot] == UNSET
    ensures SlotChosen(p, i, [slot] + rest, 0)
  {
    hide Names, Named, UsageOf;
    assert ([slot] + rest)[..0] == [];
  }

  lemma ChosenLater(p: Parser, i: nat, slot: nat, mid: Parser, rest: seq<nat>, j: nat)
    requires slot < AXES && mid.usages == p.usages && FieldAt(p, i) < UNSET && j < |rest|
    requires mid.info.axis == p.info.axis[slot := FieldAt(p, i)]
    requires mid.analogIndex < AXES ==> FirstFree(mid.info.axis, slot + 1, mid.analogIndex)
    requires SlotChosen(mid, i + 1, rest, j)
    ensures SlotChosen(p, i, [slot] + rest, j + 1)
  {
    hide Names, Named, Untaken, FirstFree, NextSlot, FieldAt;
    assert UsageOf(p, i + (j + 1)) == UsageOf(mid, i + 1 + j);
    UntakenMore(p, i, slot, mid, rest, j);
    if !Named(UsageOf(p, i + (j + 1))) {
      NextBehind(p, slot, mid, rest, j);
    }
  }

  lemma NextBehind(p: Parser, slot: nat, mid: Parser, rest: seq<nat>, j: nat)
    requires slot < AXES && j < |rest| && rest[j] < AXES && NextSlot(mid, rest, j)
    requires mid.analogIndex < AXES ==> FirstFree(mid.info.axis, slot + 1, mid.analogIndex)
    requires forall k :: 0 <= k < AXES ==> (Untaken(mid, rest, j, k) <==> Untaken(p, [slot] + rest, j + 1, k))
    ensures NextSlot(p, [slot] + rest, j + 1)
  {
    var slots, n := [slot] + rest, j + 1;
    forall k | slots[j] < k < slots[n] ensures !Untaken(p, slots, n, k) {
      assert !Untaken(mid, rest, j, k);
    }
  }

  lemma UntakenMore(p: Parser, i: nat, slot: nat, mid: Parser, rest: seq<nat>, j: nat)
    requires slot < AXES && j < |rest| && FieldAt(p, i) < UNSET
    requires mid.info.axis == p.info.axis[slot := FieldAt(p, i)]
    ensures forall k :: 0 <= k < AXES ==> (Untaken(mid, rest, j, k) <==> Untaken(p, [slot] + rest, j + 1, k))
  {
    assert ([slot] + rest)[..j + 1] == [slot] + rest[..j];
  }

  /** The axis loop: `slots` tells where each field has gone.  The fields with the
      usages X, Y, Z and Rz are in slots 0 to 3, the others in turn in free ones,
      each slot holds the last field it got, and fields are left over only when no
      slot behind the last one is free. */
  lemma {:induction false} AxesPlaced(p: Parser, i: nat) returns (slots: seq<nat>)
    requires SlotReady(p) && i <= p.count && FieldAt(p, p.count) < UNSET
    ensures var q := PlaceAxes(p, i);
      && SlotReady(q) && i + |slots| <= p.count && (i + |slots| < p.count ==> q.analogIndex >= AXES)
      && SlotsChosen(p, i, slots) && Filled(p, i, slots, q)
    decreases p.count - i
  {
    slots := [];
    if i < p.count && p.analogIndex < AXES {
      hide PlaceAxis, SlotReady, Names, Named, Filled, SlotsChosen;
      FieldEnd(p.size, i, p.count);
      var slot := PlaceOne(p, i);
      var mid := PlaceAxis(p, i);
      var rest := AxesPlaced(mid, i + 1);
      slots := [slot] + rest;
      FilledMore(p, i, slot, mid, rest, PlaceAxes(p, i));
      ChosenMore(p, i, slot, mid, rest);
    }
  }

  lemma ControlsReady(p: Parser, flags: byte)
    requires SlotReady(p) && p.info.reportSize + p.size * p.count < UNSET
    ensures SlotReady(Controls(p, flags))
  {
    hide PlaceAxes, PressButtons;
    ButtonsLeaveAxes(p, 0);
    var slots := AxesPlaced(p, 0);
  }

  lemma {:induction false} ButtonsLeaveAxes(p: Parser, i: nat)
    ensures var q := PressButtons(p, i); q.info.axis == p.info.axis && q.analogIndex == p.analogIndex
    decreases p.count - i
  {
    if i < p.count && p.buttonIndex < BUTTONS {
      ButtonsLeaveAxes(p.(info := p.info.(button := p.info.button[p.buttonIndex := (p.info.reportSize + i) % 0x1_0000]),
                          buttonIndex := p.buttonIndex + 1), i + 1);
    }
  }

  /** So it is for every Input item of a descriptor. */
  lemma {:induction false} SlotsStayReady(p: Parser, items: seq<Item>)
    requires SlotReady(p) && p.info.reportSize + InputBits(items, p.size, p.count) < UNSET
    ensures SlotReady(Fold(p, items))
    decreases |items|
  {
    if items != [] {
      var it := items[0];
      if p.quit {
        FoldQuit(p, items);
      } else {
        InputSize(p, it);
        StepReady(p, it);
        hide Step, SlotReady;
        if Step(p, it).quit {
          FoldQuit(Step(p, it), items[1..]);
        } else {
          SlotsStayReady(Step(p, it), items[1..]);
        }
      }
    }
  }

  lemma StepReady(p: Parser, it: Item)
    requires SlotReady(p) && (it.prefix == 0x81 ==> p.info.reportSize + p.size * p.count < UNSET)
    ensures SlotReady(Step(p, it))
  {
    hide Controls;
    if it.prefix == 0x81 {
      ControlsReady(p, it.value % 0x100);
    }
  }

  // ----- Whole descriptors ------------------------------------------------------

  /** The bits of all Input items, under the Report Size and Count in force. */
  function InputBits(items: seq<Item>, size: byte, count: byte): nat
    decreases |items|
  {
    if items == [] then 0
    else if items[0].prefix == 0x75 then InputBits(items[1..], items[0].value % 0x100, count)
    else if items[0].prefix == 0x95 then InputBits(items[1..], size, items[0].value % 0x100)
    else (if items[0].prefix == 0x81 then size * count else 0) + InputBits(items[1..], size, count)
  }

  /** The bits since the last Report ID item. */
  function BitsSinceId(items: seq<Item>, size: byte, count: byte, bits: nat): nat
    decreases |items|
  {
    if items == [] then bits
    else if items[0].prefix == 0x75 then BitsSinceId(items[1..], items[0].value % 0x100, count, bits)
    else if items[0].prefix == 0x95 then BitsSinceId(items[1..], size, items[0].value % 0x100, bits)
    else if items[0].prefix == 0x81 then BitsSinceId(items[1..], size, count, bits + size * count)
    else BitsSinceId(items[1..], size, count, if items[0].prefix == 0x85 then 0 else bits)
  }

  ghost predicate Healthy(p: Parser) {
    Sound(p.info, p.info.reportSize, p.buttonIndex)
  }

  /** If the item records a hat switch, the Report Count is not zero. */
  predicate HatCounted(p: Parser, it: Item) {
    it.prefix == 0x81 && IsHat(p, it.value % 0x100) ==> p.count > 0
  }

  predicate HatsCounted(p: Parser, items: seq<Item>)
    decreases |items|
  {
    items == [] || p.quit || (HatCounted(p, items[0]) && HatsCounted(Step(p, items[0]), items[1..]))
  }

  /** The parser is healthy now and behind every item. */
  ghost predicate StaysHealthy(p: Parser, items: seq<Item>)
    decreases |items|
  {
    Healthy(p) && (items == [] || StaysHealthy(Step(p, items[0]), items[1..]))
  }

  lemma ControlsSound(p: Parser, flags: byte)
    requires Healthy(p) && p.info.reportSize + p.size * p.count < UNSET
    requires IsHat(p, flags) ==> p.count > 0
    ensures var q := Controls(p, flags);
      && Sound(q.info, p.info.reportSize + p.size * p.count, q.buttonIndex) && q.info.reportSize == p.info.reportSize
      && q.size == p.size && q.count == p.count && q.quit == p.quit
  {
    hide Sound;
    var rs := p.info.reportSize;
    var end := rs + p.size * p.count;
    if flags % 2 == 1 {
      BelowMore(p.info, rs, end, p.buttonIndex);
    } else if p.usages[0] == USAGE_HAT && p.size == HAT_BITS {
      HatSound(p.info, rs, p.buttonIndex, rs);
      BelowMore(p.info.(hat := rs), rs + HAT_BITS, end, p.buttonIndex);
    } else if p.usages[0] == USAGE_PS4_COUNTER && p.size == 6 {
      SizeIsFree(p.info, rs, true, rs, p.buttonIndex);
      BelowMore(p.info.(ps4 := true), rs, end, p.buttonIndex);
    } else if p.size == 1 {
      PressButtonsSound(p, 0, rs);
    } else {
      PlaceAxesSound(p, 0, rs, end);
    }
  }

  /** An Input item keeps the report sound, with all its bits inside. */
  lemma InputSound(p: Parser, flags: byte)
    requires Healthy(p) && p.info.reportSize + p.size * p.count < UNSET
    requires IsHat(p, flags) ==> p.count > 0
    ensures Healthy(Input(p, flags)) && Input(p, flags).info.reportSize == p.info.reportSize + p.size * p.count
    ensures var q := Input(p, flags); q.size == p.size && q.count == p.count && q.quit == p.quit
  {
    hide Sound, Controls;
    var end := p.info.reportSize + p.size * p.count;
    ControlsSound(p, flags);
    var q := Controls(p, flags);
    SizeIsFree(q.info, end, q.info.ps4, end, q.buttonIndex);
  }

  /** Soundness speaks of the controls only, not of the size recorded so far. */
  lemma SizeIsFree(i: Info, size: nat, ps4: bool, limit: nat, n: nat)
    requires Sound(i, limit, n)
    ensures Sound(i.(reportSize := size, ps4 := ps4), limit, n)
  {
  }

  lemma StepSound(p: Parser, it: Item)
    requires Healthy(p) && !p.quit
    requires it.prefix == 0x81 ==> p.info.reportSize + p.size * p.count < UNSET
    ensures Healthy(Step(p, it)) <==> HatCounted(p, it)
  {
    if it.prefix == 0x81 {
      if HatCounted(p, it) {
        InputSound(p, it.value % 0x100);
      } else {
        EmptyHat(p, it.value % 0x100);
      }
    }
  }

  /** A hat switch of count zero is recorded past the end of the report. */
  lemma EmptyHat(p: Parser, flags: byte)
    requires Healthy(p) && IsHat(p, flags) && p.count == 0 && p.info.reportSize < UNSET
    ensures !Healthy(Input(p, flags))
  {
    assert p.size * 0 == 0;
    assert Input(p, flags).info.hat == p.info.reportSize == Input(p, flags).info.reportSize;
  }

  /** Throughout a descriptor every control recorded lies inside the bits read so
      far, no two share a bit, and the buttons are numbered in the order of their
      bits: exactly when no hat switch with a Report Count of zero is recorded. */
  lemma {:induction false} SoundIffHatsCounted(p: Parser, items: seq<Item>)
    requires Healthy(p) && p.info.reportSize + InputBits(items, p.size, p.count) < UNSET
    ensures StaysHealthy(p, items) <==> HatsCounted(p, items)
    decreases |items|
  {
    if items != [] {
      hide Healthy, Step, HatCounted;
      var it := items[0];
      if p.quit {
        QuitStaysHealthy(p, items);
      } else {
        InputSize(p, it);
        StepSound(p, it);
        if HatCounted(p, it) {
          SoundIffHatsCounted(Step(p, it), items[1..]);
        }
      }
    }
  }

  lemma {:induction false} QuitStaysHealthy(p: Parser, items: seq<Item>)
    requires Healthy(p) && p.quit
    ensures StaysHealthy(p, items)
    decreases |items|
  {
    if items != [] {
      QuitStaysHealthy(p, items[1..]);
    }
  }

  lemma {:induction false} HealthyAtTheEnd(p: Parser, items: seq<Item>)
    requires StaysHealthy(p, items)
    ensures Healthy(Fold(p, items))
    decreases |items|
  {
    hide Healthy, Step;
    if items != [] {
      HealthyAtTheEnd(Step(p, items[0]), items[1..]);
    }
  }

  /** So the report the parser ends with is sound for every such descriptor. */
  lemma FieldsAreSound(i: Info, d: seq<byte>)
    requires InputBits(Items(d, 0), 0, 0) < UNSET && HatsCounted(Start(i), Items(d, 0))
    ensures var end := Fold(Start(i), Items(d, 0)); Sound(end.info, end.info.reportSize, end.buttonIndex)
  {
    hide Step;
    StartHealthy(i);
    SoundIffHatsCounted(Start(i), Items(d, 0));
    HealthyAtTheEnd(Start(i), Items(d, 0));
  }

  lemma {:induction false} FoldQuit(p: Parser, items: seq<Item>)
    requires p.quit
    ensures Fold(p, items) == p
    decreases |items|
  {
    if items != [] {
      FoldQuit(p, items[1..]);
    }
  }

  lemma StartHealthy(i: Info)
    ensures Healthy(Start(i))
  {
  }

  /** The parser stops at the first Report ID that follows a usable report, and
      the size it reports is that of the Input items since the ID before it. */
  lemma {:induction false} ReportSizeIsSum(p: Parser, items: seq<Item>) returns (n: nat)
    requires !p.quit && p.info.reportSize + InputBits(items, p.size, p.count) < UNSET
    ensures n <= |items| && !Fold(p, items[..n]).quit && Fold(p, items).info == Fold(p, items[..n]).info
    ensures Fold(p, items).info.reportSize == BitsSinceId(items[..n], p.size, p.count, p.info.reportSize)
    ensures n < |items| <==> Fold(p, items).quit
    ensures n < |items| ==> items[n].prefix == 0x85 && Usable(Fold(p, items).info)
    decreases |items|
  {
    if items == [] {
      n := 0;
    } else {
      var it := items[0];
      var q := Step(p, it);
      InputSize(p, it);
      hide Step;
      if q.quit {
        n := 0;
        FoldQuit(q, items[1..]);
      } else {
        var k := ReportSizeIsSum(q, items[1..]);
        n := k + 1;
        assert items[..n][1..] == items[1..][..k];
      }
    }
  }

  lemma InputSize(p: Parser, it: Item)
    requires !p.quit && (it.prefix == 0x81 ==> p.info.reportSize + p.size * p.count < UNSET)
    ensures var q := Step(p, it);
      && q.size == (if it.prefix == 0x75 then it.value % 0x100 else p.size)
      && q.count == (if it.prefix == 0x95 then it.value % 0x100 else p.count)
      && (q.quit ==> it.prefix == 0x85 && Usable(p.info) && q.info == p.info)
      && (!q.quit ==> q.info.reportSize == if it.prefix == 0x81 then p.info.reportSize + p.size * p.count
                                           else if it.prefix == 0x85 then 0 else p.info.reportSize)
  {
    hide Input;
    if it.prefix == 0x81 {
      InputFrame(p, it.value % 0x100);
    }
  }

  lemma InputFrame(p: Parser, flags: byte)
    ensures var q := Input(p, flags);
      && q.size == p.size && q.count == p.count && q.quit == p.quit
      && q.info.reportSize == (p.info.reportSize + p.size * p.count) % 0x1_0000
  {
    hide PlaceAxes, PressButtons;
    PlaceAxesFrame(p, 0);
    PressButtonsFrame(p, 0);
  }

  lemma {:induction false} PlaceAxesFrame(p: Parser, i: nat)
    ensures var q := PlaceAxes(p, i);
      q.size == p.size && q.count == p.count && q.info.reportSize == p.info.reportSize && q.quit == p.quit
    decreases p.count - i
  {
    if i < p.count && p.analogIndex < AXES {
      PlaceAxesFrame(PlaceAxis(p, i), i + 1);
    }
  }

  lemma {:induction false} PressButtonsFrame(p: Parser, i: nat)
    ensures var q := PressButtons(p, i);
      q.size == p.size && q.count == p.count && q.info.reportSize == p.info.reportSize && q.quit == p.quit
    decreases p.count - i
  {
    if i < p.count && p.buttonIndex < BUTTONS {
      PressButtonsFrame(p.(info := p.info.(button := p.info.button[p.buttonIndex := (p.info.reportSize + i) % 0x1_0000]),
                           buttonIndex := p.buttonIndex + 1), i + 1);
    }
  }

  /** A hat switch of count zero is recorded outside the report. */
  lemma ZeroCountHat(i: Info, items: seq<Item>)
    requires items == [Item(0x05, 0x01), Item(0x09, 0x39), Item(0x75, 4), Item(0x95, 0), Item(0x81, 0x02)]
    ensures var r := Fold(Start(i), items).info; r.hat == 0 && r.reportSize == 0 && !Below(r, r.reportSize)
  {
    var p := Start(i);
    var p1 := Step(p, items[0]);
    var p2 := Step(p1, items[1]);
    var p3 := Step(p2, items[2]);
    var p4 := Step(p3, items[3]);
    var p5 := Step(p4, items[4]);
    assert p2.usages[0] == USAGE_HAT;
    assert p5.info.hat == 0 && p5.info.reportSize == 0;
    assert items[1..] == [items[1], items[2], items[3], items[4]];
    assert items[1..][1..] == [items[2], items[3], items[4]];
    assert items[1..][1..][1..] == [items[3], items[4]];
    assert items[1..][1..][1..][1..] == [items[4]];
    assert Fold(p4, [items[4]]) == p5;
    assert Fold(p3, [items[3], items[4]]) == p5;
    assert Fold(p2, [items[2], items[3], items[4]]) == p5;
  }

  // ----- The loop ---------------------------------------------------------------

  method RecordButtons(p0: Parser) returns (p: Parser)
    ensures p == PressButtons(p0, 0)
  {
    p := p0;
    var i := 0;
    while i < p.count && p.buttonIndex < BUTTONS
      invariant p.count == p0.count && PressButtons(p, i) == PressButtons(p0, 0)
      decreases p0.count - i
    {
      p := p.(info := p.info.(button := p.info.button[p.buttonIndex := (p.info.reportSize + i) % 0x1_0000]),
              buttonIndex := p.buttonIndex + 1);
      i := i + 1;
    }
  }

  method RecordAxes(p0: Parser) returns (p: Parser)
    ensures p == PlaceAxes(p0, 0)
  {
    p := p0;
    var i := 0;
    while i < p.count && p.analogIndex < AXES
      invariant p.count == p0.count && PlaceAxes(p, i) == PlaceAxes(p0, 0)
      decreases p0.count - i
    {
      ghost var before := p;
      var k := p.analogIndex;
      var usage := if i < USAGES then p.usages[i] else 0;
      if usage == USAGE_X {
        k := 0;
      } else if usage == USAGE_Y {
        k := 1;
      } else if usage == USAGE_Z {
        k := 2;
      } else if usage == USAGE_RZ {
        k := 3;
      }
      var info := p.info.(axisSize := p.info.axisSize[k := p.size],
                          axis := p.info.axis[k := (p.info.reportSize + p.size * i) % 0x1_0000]);
      k := k + 1;
      ghost var first := k;
      while k < AXES && info.axis[k] != UNSET
        invariant first <= k <= AXES && NextFree(info.axis, k) == NextFree(info.axis, first)
      {
        k := k + 1;
      }
      p := p.(info := info, analogIndex := k);
      assert p == PlaceAxis(before, i);
      i := i + 1;
    }
  }

  method HandleInput(p0: Parser, flags: byte) returns (p: Parser)
    ensures p == Input(p0, flags)
  {
    p := p0;
    if flags % 2 == 1 {
    } else if p.usages[0] == USAGE_HAT && p.size == HAT_BITS {
      p := p.(info := p.info.(hat := p.info.reportSize));
    } else if p.usages[0] == USAGE_PS4_COUNTER && p.size == 6 {
      p := p.(info := p.info.(ps4 := true));
    } else if p.size == 1 {
      p := RecordButtons(p);
    } else {
      p := RecordAxes(p);
    }
    p := p.(usageIndex := 0, info := p.info.(reportSize := (p.info.reportSize + p.size * p.count) % 0x1_0000));
  }

  /** The items with a one-byte value; `goto quit` is told by `p.quit`. */
  method HandleOneByte(p0: Parser, prefix: byte, v: byte) returns (p: Parser)
    requires !p0.quit && prefix % 4 == 1
    ensures p == Step(p0, Item(prefix, v))
  {
    hide Input;
    p := p0;
    if prefix == 0x05 {
      p := p.(page := v);
    } else if prefix == 0x09 {
      p := AddUsage(p, v);
    } else if prefix == 0x75 {
      p := p.(size := v);
    } else if prefix == 0x81 {
      p := HandleInput(p, v);
    } else if prefix == 0x85 {
      if Usable(p.info) {
        p := p.(quit := true);
      } else {
        p := ClearUsages(p.(info := Cleared(p.info).(reportId := v), buttonIndex := 0, analogIndex := 0));
      }
    } else if prefix == 0x95 {
      p := p.(count := v);
    } else if prefix == 0xa1 {
      p := ClearUsages(p);
    }
  }

  method HandleTwoBytes(p0: Parser, prefix: byte, v: nat) returns (p: Parser)
    requires !p0.quit && prefix % 4 == 2
    ensures p == Step(p0, Item(prefix, v))
  {
    p := p0;
    if prefix == 0x06 {
      p := p.(page := v);
    } else if prefix == 0x0a {
      p := AddUsage(p, v);
    }
  }

  lemma FoldItem(p: Parser, d: seq<byte>, i: nat)
    requires i < |d| && ScanAt(d, i).Next?
    ensures var s := ScanAt(d, i); Fold(p, Items(d, i)) == Fold(Step(p, s.item), Items(d, s.at))
  {
    hide Step;
    var s := ScanAt(d, i);
    assert Items(d, i)[1..] == Items(d, s.at);
  }

  /** The cursor loop of `check_hid_report_desc` is the fold over the items. */
  method CheckHidReportDesc(info0: Info, d: seq<byte>) returns (info: Info)
    ensures info == Fold(Start(info0), Items(d, 0)).info
  {
    hide Step, Fold;
    var p := Start(info0);
    var i := 0;
    while i < |d|
      invariant !p.quit && Fold(p, Items(d, i)).info == Fold(Start(info0), Items(d, 0)).info
      decreases |d| - i
    {
      if ScanAt(d, i).Next? { FoldItem(p, d, i); }
      if d[i] == 0xfe {
        if i + 1 >= |d| { break; }
        Ignored(p, Item(0xfe, 0));
        i := i + d[i + 1] + 3;
      } else if d[i] % 4 == 0 {
        Ignored(p, Item(d[i], 0));
        if d[i] == 0xc0 {
          p := ClearUsages(p);
        }
        i := i + 1;
      } else if d[i] % 4 == 1 {
        if i + 1 >= |d| { break; }
        p := HandleOneByte(p, d[i], d[i + 1]);
        i := i + 2;
      } else if d[i] % 4 == 2 {
        if i + 2 >= |d| { break; }
        p := HandleTwoBytes(p, d[i], Word(d[i + 1], d[i + 2]));
        i := i + 3;
      } else {
        Ignored(p, Item(d[i], 0));
        i := i + 5;
      }
      if p.quit {
        FoldQuit(p, Items(d, i));
        break;
      }
    }
    info := p.info;
    if !p.quit {
      FoldEnd(p, d, i);
    }
  }

  lemma FoldEnd(p: Parser, d: seq<byte>, i: nat)
    requires i >= |d| || ScanAt(d, i).End?
    ensures Fold(p, Items(d, i)) == p
  {
  }

  lemma Ignored(p: Parser, it: Item)
    requires !p.quit && (it.prefix == 0xfe || it.prefix % 4 == 0 || it.prefix % 4 == 3)
    ensures Step(p, it) == if it.prefix == 0xc0 then ClearUsages(p) else p
  {
  }

  // ----- A game pad ---------------------------------------------------------------

  /** The stick of a game pad: Usage Page (Generic Desktop), Usage (X), Usage (Y),
      Report Size (8), Report Count (2), Input. */
  const STICK: seq<byte> := [0x05, 0x01, 0x09, 0x30, 0x09, 0x31, 0x75, 0x08, 0x95, 0x02, 0x81, 0x02]

  lemma StickScans()
    ensures ScanAt(STICK, 0) == Next(Item(0x05, 1), 2) && ScanAt(STICK, 2) == Next(Item(0x09, 0x30), 4)
    ensures ScanAt(STICK, 4) == Next(Item(0x09, 0x31), 6) && ScanAt(STICK, 6) == Next(Item(0x75, 8), 8)
    ensures ScanAt(STICK, 8) == Next(Item(0x95, 2), 10) && ScanAt(STICK, 10) == Next(Item(0x81, 2), 12)
  {
  }

  /** The parser behind each item of the stick. */
  function StickParser(i: Info, n: nat): Parser
    requires n <= 5
  {
    var p := Start(i);
    if n == 0 then p
    else if n == 1 then p.(page := 1)
    else if n == 2 then p.(page := 1, usages := NO_USAGES[0 := 0x1_0030], usageIndex := 1)
    else
      var q := p.(page := 1, usages := NO_USAGES[0 := 0x1_0030][1 := 0x1_0031], usageIndex := 2);
      if n == 3 then q else if n == 4 then q.(size := 8) else q.(size := 8, count := 2)
  }

  lemma StickSteps(i: Info)
    ensures Step(StickParser(i, 0), Item(0x05, 1)) == StickParser(i, 1)
    ensures Step(StickParser(i, 1), Item(0x09, 0x30)) == StickParser(i, 2)
    ensures Step(StickParser(i, 2), Item(0x09, 0x31)) == StickParser(i, 3)
    ensures Step(StickParser(i, 3), Item(0x75, 8)) == StickParser(i, 4)
    ensures Step(StickParser(i, 4), Item(0x95, 2)) == StickParser(i, 5)
    ensures Step(StickParser(i, 5), Item(0x81, 2)) == Input(StickParser(i, 5), 2)
  {
    hide Input;
  }

  lemma FoldAt(p: Parser, d: seq<byte>, k: nat, it: Item, at: nat)
    requires k < |d| && ScanAt(d, k) == Next(it, at)
    ensures Fold(p, Items(d, k)) == Fold(Step(p, it), Items(d, at))
  {
    FoldItem(p, d, k);
  }

  lemma StickFold(i: Info)
    ensures Fold(Start(i), Items(STICK, 0)) == Input(StickParser(i, 5), 2)
  {
    StickScans();
    StickSteps(i);
    assert StickParser(i, 0) == Start(i);
    assert Items(STICK, 12) == [] && Fold(Input(StickParser(i, 5), 2), []) == Input(StickParser(i, 5), 2);
    hide *;
    FoldAt(StickParser(i, 0), STICK, 0, Item(0x05, 1), 2);
    FoldAt(StickParser(i, 1), STICK, 2, Item(0x09, 0x30), 4);
    FoldAt(StickParser(i, 2), STICK, 4, Item(0x09, 0x31), 6);
    FoldAt(StickParser(i, 3), STICK, 6, Item(0x75, 8), 8);
    FoldAt(StickParser(i, 4), STICK, 8, Item(0x95, 2), 10);
    FoldAt(StickParser(i, 5), STICK, 10, Item(0x81, 2), 12);
  }

  lemma StickAxes(i: Info)
    ensures var r := Input(StickParser(i, 5), 2).info;
      && r.axis == [0, 8, UNSET, UNSET, UNSET, UNSET] && r.axisSize[0] == r.axisSize[1] == 8 && r.reportSize == 16
  {
    var p := StickParser(i, 5);
    var p1 := PlaceAxis(p, 0);
    assert p1.info.axis == [0, UNSET, UNSET, UNSET, UNSET, UNSET] && p1.analogIndex == 1;
    var p2 := PlaceAxis(p1, 1);
    assert p2.info.axis == [0, 8, UNSET, UNSET, UNSET, UNSET];
    assert PlaceAxes(p2, 2) == p2;
    assert PlaceAxes(p1, 1) == p2;
    assert PlaceAxes(p, 0) == p2;
    hide PlaceAxes, PlaceAxis;
  }

  /** X is read from bits 0 to 7 and Y from bits 8 to 15. */
  lemma StickIsRead(i: Info)
    ensures var r := Fold(Start(i), Items(STICK, 0)).info;
      && r.axis == [0, 8, UNSET, UNSET, UNSET, UNSET] && r.axisSize[0] == r.axisSize[1] == 8 && r.reportSize == 16
  {
    hide *;
    StickFold(i);
    StickAxes(i);
  }

  /** Usages are kept behind an Input item, where section 6.2.2.8 of HID 1.11 ends
      them: two more bytes that have no usage are taken for X and Y. */
  lemma UsagesCarryOver(i: Info)
    ensures Input(Input(StickParser(i, 5), 2), 2).info.axis == [16, 24, UNSET, UNSET, UNSET, UNSET]
  {
    StickBehind(i);
    var p := Input(StickParser(i, 5), 2);
    hide Input;
    SecondInput(p);
  }

  lemma StickBehind(i: Info)
    ensures var p := Input(StickParser(i, 5), 2);
      && p.info.axis == [0, 8, UNSET, UNSET, UNSET, UNSET] && p.info.reportSize == 16 && p.analogIndex == 2
      && p.usages[0] == USAGE_X && p.usages[1] == USAGE_Y && p.size == 8 && p.count == 2
  {
    var p := StickParser(i, 5);
    var p1 := PlaceAxis(p, 0);
    assert p1.info.axis == [0, UNSET, UNSET, UNSET, UNSET, UNSET] && p1.analogIndex == 1;
    var p2 := PlaceAxis(p1, 1);
    assert p2.info.axis == [0, 8, UNSET, UNSET, UNSET, UNSET] && p2.analogIndex == 2;
    assert PlaceAxes(p2, 2) == p2;
    assert PlaceAxes(p1, 1) == p2;
    assert PlaceAxes(p, 0) == p2;
    hide PlaceAxes, PlaceAxis;
  }

  lemma SecondInput(p: Parser)
    requires p.info.axis == [0, 8, UNSET, UNSET, UNSET, UNSET] && p.info.reportSize == 16 && p.analogIndex == 2
    requires p.usages[0] == USAGE_X && p.usages[1] == USAGE_Y && p.size == 8 && p.count == 2
    ensures Input(p, 2).info.axis == [16, 24, UNSET, UNSET, UNSET, UNSET]
  {
    var p1 := PlaceAxis(p, 0);
    assert p1.info.axis == [16, 8, UNSET, UNSET, UNSET, UNSET];
    NextFreeIsFirst(p1.info.axis, 1);
    var p2 := PlaceAxis(p1, 1);
    assert p2.info.axis == [16, 24, UNSET, UNSET, UNSET, UNSET];
    assert PlaceAxes(p2, 2) == p2;
    assert PlaceAxes(p1, 1) == p2;
    assert PlaceAxes(p, 0) == p2;
    hide PlaceAxes, PlaceAxis;
  }
}
