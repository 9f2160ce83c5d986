/** What the parser of src/usb/hid/hid.c makes of each item, in the tags, types and
    sizes of HID 1.11 section 6.2.2. */
module HidMeaning {
  import opened HidReport

  // ----- The items in the bytes -------------------------------------------------

  /** A short item with no, one, two or four bytes of data, or a long item with its
      tag and its data. */
  datatype Raw =
    | None(prefix: byte)
    | One(prefix: byte, data: byte)
    | Two(prefix: byte, low: byte, high: byte)
    | Four(prefix: byte, a: byte, b: byte, c: byte, d: byte)
    | Long(tag: byte, bytes: seq<byte>)

  /** The two low bits of a prefix are its size; 0xfe is kept for long items. */
  predicate WellFormed(r: Raw) {
    match r
    case None(prefix) => prefix % 4 == 0
    case One(prefix, _) => prefix % 4 == 1
    case Two(prefix, _, _) => prefix % 4 == 2 && prefix != 0xfe
    case Four(prefix, _, _, _, _) => prefix % 4 == 3
    case Long(_, bytes) => |bytes| < 0x100
  }

  function Encoded(r: Raw): seq<byte>
    requires WellFormed(r)
  {
    match r
    case None(prefix) => [prefix]
    case One(prefix, data) => [prefix, data]
    case Two(prefix, low, high) => [prefix, low, high]
    case Four(prefix, a, b, c, d) => [prefix, a, b, c, d]
    case Long(tag, bytes) => [0xfe, |bytes|, tag] + bytes
  }

  /** The values of items of four bytes and of long items are not looked at. */
  function Meant(r: Raw): Item {
    match r
    case None(prefix) => Item(prefix, 0)
    case One(prefix, data) => Item(prefix, data)
    case Two(prefix, low, high) => Item(prefix, low as nat + 256 * high as nat)
    case Four(prefix, _, _, _, _) => Item(prefix, 0)
    case Long(_, _) => Item(0xfe, 0)
  }

  predicate AllWellFormed(rs: seq<Raw>) {
    forall i :: 0 <= i < |rs| ==> WellFormed(rs[i])
  }

  function AllEncoded(rs: seq<Raw>): seq<byte>
    requires AllWellFormed(rs)
  {
    if rs == [] then [] else Encoded(rs[0]) + AllEncoded(rs[1..])
  }

  function AllMeant(rs: seq<Raw>): seq<Item> {
    seq(|rs|, i requires 0 <= i < |rs| => Meant(rs[i]))
  }

  lemma ScansOne(d: seq<byte>, i: nat, r: Raw)
    requires WellFormed(r) && i + |Encoded(r)| <= |d| && d[i..i + |Encoded(r)|] == Encoded(r)
    ensures ScanAt(d, i) == Next(Meant(r), i + |Encoded(r)|)
  {
    var e := Encoded(r);
    assert d[i..i + |e|][0] == d[i] && (|e| > 1 ==> d[i..i + |e|][1] == d[i + 1]) && (|e| > 2 ==> d[i..i + |e|][2] == d[i + 2]);
  }

  /** The items of a descriptor are read back, in order, whatever lies before. */
  lemma {:induction false} ItemsRead(front: seq<byte>, rs: seq<Raw>)
    requires AllWellFormed(rs)
    ensures Items(front + AllEncoded(rs), |front|) == AllMeant(rs)
    decreases |rs|
  {
    hide ScanAt, Meant, Encoded;
    var d := front + AllEncoded(rs);
    if rs != [] {
      var e := Encoded(rs[0]);
      assert d == (front + e) + AllEncoded(rs[1..]);
      assert d[|front|..|front| + |e|] == e;
      assert |e| > 0 by { SomeBytes(rs[0]); }
      ScansOne(d, |front|, rs[0]);
      ItemsRead(front + e, rs[1..]);
      assert AllMeant(rs) == [Meant(rs[0])] + AllMeant(rs[1..]);
    }
  }

  lemma SomeBytes(r: Raw)
    requires WellFormed(r)
    ensures |Encoded(r)| > 0
  {
  }

  /** A descriptor that ends within an item ends the parsing there. */
  lemma CutShort(d: seq<byte>, i: nat)
    requires i < |d|
    ensures ScanAt(d, i).End? <==>
      (i + 1 == |d| && (d[i] == 0xfe || d[i] % 4 == 1)) || (i + 2 >= |d| && d[i] % 4 == 2 && d[i] != 0xfe)
  {
  }

  // ----- Tags and types ------------------------------------------------------------

  /** Main items have type 0, global ones 1, local ones 2. */
  function Prefix(tag: nat, kind: nat, size: nat): byte
    requires tag < 16 && kind < 3 && size < 3
  {
    16 * tag + 4 * kind + size
  }

  /** Usage Page, Report Size, Report Count, Usage, Collection and End Collection. */
  lemma ItemMeaning(p: Parser, size: nat, value: byte, word: nat)
    requires !p.quit && 1 <= size <= 2
    ensures Step(p, Item(Prefix(0, 1, size), word)) == p.(page := word)
    ensures Step(p, Item(Prefix(7, 1, 1), value)) == p.(size := value)
    ensures Step(p, Item(Prefix(9, 1, 1), value)) == p.(count := value)
    ensures var q := Step(p, Item(Prefix(0, 2, size), word));
      if p.usageIndex < 12 then
        q == p.(usages := q.usages, usageIndex := p.usageIndex + 1)
        && q.usages[p.usageIndex] == 0x1_0000 * p.page + word
        && forall k :: 0 <= k < 12 && k != p.usageIndex ==> q.usages[k] == p.usages[k]
      else q == p
    ensures var q := Step(p, Item(Prefix(10, 0, 1), value));
      q == p.(usages := q.usages, usageIndex := 0) && forall k :: 0 <= k < 12 ==> q.usages[k] == 0
    ensures Step(p, Item(Prefix(12, 0, 0), 0)) == Step(p, Item(Prefix(10, 0, 1), value))
  {
  }

  /** Nothing else but Input and Report ID changes anything. */
  lemma OthersIgnored(p: Parser, it: Item)
    requires !p.quit && it.prefix !in
      {Prefix(0, 1, 1), Prefix(0, 1, 2), Prefix(7, 1, 1), Prefix(9, 1, 1), Prefix(8, 1, 1), Prefix(0, 2, 1), Prefix(0, 2, 2),
       Prefix(8, 0, 1), Prefix(10, 0, 1), Prefix(12, 0, 0)}
    ensures Step(p, it) == p
  {
  }

  /** A new report starts, unless the one so far can be used: it has bits, a second
      button, and a hat or a vertical axis. */
  lemma ReportIdMeaning(p: Parser, id: byte)
    requires !p.quit
    ensures var q := Step(p, Item(Prefix(8, 1, 1), id)); var i := p.info;
      if i.reportSize != 0 && i.button[1] != 0xffff && (i.hat != 0xffff || i.axis[1] != 0xffff) then q == p.(quit := true)
      else
        && !q.quit && q.info.reportId == id && q.info.reportSize == 0 && Blank(q.info)
        && q.buttonIndex == q.analogIndex == q.usageIndex == 0 && forall k :: 0 <= k < 12 ==> q.usages[k] == 0
  {
  }

  /** No control has been found. */
  predicate Blank(i: Info) {
    && i.hat == 0xffff && |i.axis| == 6 && |i.button| == 13
    && (forall k :: 0 <= k < 6 ==> i.axis[k] == 0xffff) && (forall k :: 0 <= k < 13 ==> i.button[k] == 0xffff)
  }

  lemma StartMeaning(i: Info)
    ensures var p := Start(i);
      && Blank(p.info) && p.info.reportSize == 0 && p.info.reportId == 0 && !p.quit
      && p.size == p.count == p.page == 0 && p.buttonIndex == p.analogIndex == p.usageIndex == 0
      && forall k :: 0 <= k < 12 ==> p.usages[k] == 0
  {
  }

  // ----- Input ------------------------------------------------------------------------

  /** The buttons of a report, one bit each, fill `button` from where the last ones
      ended, up to thirteen. */
  lemma {:induction false} ButtonsPlaced(p: Parser, i: nat)
    requires i <= p.count && p.buttonIndex <= 13
    ensures var q := PressButtons(p, i); var n := p.buttonIndex + p.count - i;
      && q.buttonIndex == (if n < 13 then n else 13)
      && (forall k :: 0 <= k < 13 ==>
            q.info.button[k] ==
              if p.buttonIndex <= k < q.buttonIndex then (p.info.reportSize + i + k - p.buttonIndex) % 0x1_0000 else p.info.button[k])
      && q == p.(info := p.info.(button := q.info.button), buttonIndex := q.buttonIndex)
    decreases p.count - i
  {
    if i < p.count && p.buttonIndex < 13 {
      var at := (p.info.reportSize + i) % 0x1_0000;
      ButtonsPlaced(p.(info := p.info.(button := p.info.button[p.buttonIndex := at]), buttonIndex := p.buttonIndex + 1), i + 1);
    }
  }

  /** An Input item: its bits are counted, and its usages are used up. */
  predicate Counted(p: Parser, q: Parser) {
    && q.info.reportSize == (p.info.reportSize + p.size * p.count) % 0x1_0000 && q.info.reportId == p.info.reportId
    && q.usageIndex == 0 && q.usages == p.usages && q.page == p.page && q.size == p.size && q.count == p.count && q.quit == p.quit
  }

  predicate SameAxes(p: Parser, q: Parser) {
    q.info.axis == p.info.axis && q.info.axisSize == p.info.axisSize && q.analogIndex == p.analogIndex
  }

  predicate SameButtons(p: Parser, q: Parser) {
    q.info.button == p.info.button && q.buttonIndex == p.buttonIndex
  }

  /** Constants are not recorded. */
  lemma ConstantMeaning(p: Parser, flags: byte)
    requires !p.quit && flags % 2 == 1
    ensures var q := Step(p, Item(Prefix(8, 0, 1), flags));
      Counted(p, q) && SameAxes(p, q) && SameButtons(p, q) && q.info.hat == p.info.hat && q.info.ps4 == p.info.ps4
  {
    hide PressButtons, PlaceAxes;
  }

  /** A hat switch of four bits, by its usage 0x39 of the Generic Desktop page. */
  lemma HatMeaning(p: Parser, flags: byte)
    requires !p.quit && flags % 2 == 0 && p.usages[0] == 0x1_0039 && p.size == 4
    ensures var q := Step(p, Item(Prefix(8, 0, 1), flags));
      Counted(p, q) && SameAxes(p, q) && SameButtons(p, q) && q.info.hat == p.info.reportSize && q.info.ps4 == p.info.ps4
  {
    hide PressButtons, PlaceAxes;
  }

  /** The six bits of a vendor usage that a PS4 pad is known by. */
  lemma CounterMeaning(p: Parser, flags: byte)
    requires !p.quit && flags % 2 == 0 && p.usages[0] == 0xff00_0020 && p.size == 6
    ensures var q := Step(p, Item(Prefix(8, 0, 1), flags));
      Counted(p, q) && SameAxes(p, q) && SameButtons(p, q) && q.info.hat == p.info.hat && q.info.ps4
  {
    hide PressButtons, PlaceAxes;
  }

  /** Other single bits are buttons. */
  lemma ButtonsMeaning(p: Parser, flags: byte)
    requires !p.quit && flags % 2 == 0 && p.size == 1 && p.buttonIndex <= 13
    ensures var q := Step(p, Item(Prefix(8, 0, 1), flags));
      && Counted(p, q) && SameAxes(p, q) && q.info.hat == p.info.hat && q.info.ps4 == p.info.ps4
      && q.buttonIndex == (if p.buttonIndex + p.count < 13 then p.buttonIndex + p.count else 13)
      && forall k :: 0 <= k < 13 ==>
           q.info.button[k] ==
             if p.buttonIndex <= k < q.buttonIndex then (p.info.reportSize + k - p.buttonIndex) % 0x1_0000 else p.info.button[k]
  {
    hide PressButtons, PlaceAxes;
    ButtonsPlaced(p, 0);
  }

  /** All else are axes, which go where `AxesPlaced` says. */
  lemma AxesMeaning(p: Parser, flags: byte)
    requires !p.quit && flags % 2 == 0 && p.size != 1
    requires !(p.usages[0] == 0x1_0039 && p.size == 4) && !(p.usages[0] == 0xff00_0020 && p.size == 6)
    ensures var q := Step(p, Item(Prefix(8, 0, 1), flags));
      && Counted(p, q) && SameAxes(PlaceAxes(p, 0), q) && SameButtons(p, q) && q.info.hat == p.info.hat && q.info.ps4 == p.info.ps4
  {
    hide PressButtons, PlaceAxes;
    PlaceAxesKeeps(p, 0);
  }

  lemma {:induction false} PlaceAxesKeeps(p: Parser, i: nat)
    ensures var q := PlaceAxes(p, i);
      q == p.(info := p.info.(axis := q.info.axis, axisSize := q.info.axisSize), analogIndex := q.analogIndex)
    decreases p.count - i
  {
    hide SlotOf, NextFree;
    if i < p.count && p.analogIndex < AXES {
      PlaceAxesKeeps(PlaceAxis(p, i), i + 1);
    }
  }
}
