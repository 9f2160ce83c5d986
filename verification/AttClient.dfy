/** What a client sees of the ATT server over many requests. */
module AttClient {
  import opened Att

  /** Handles are assigned in increasing order, from 1 on. */
  ghost predicate Sorted(db: Db) {
    && (forall i :: 0 <= i < |db| ==> db[i].handle > 0)
    && (forall i, j :: 0 <= i < j < |db| ==> db[i].handle < db[j].handle)
  }

  // ----- Reading a response -------------------------------------------------------

  /** An entry of a list response; `end` is its group end, or its own handle. */
  datatype Found = Found(handle: uint16, end: uint16, data: seq<byte>)

  function FoundAt(kind: Kind, db: Db, i: nat): Found
    requires i < |db|
  {
    match kind
    case Groups => Found(db[i].handle, GroupEnd(db, i + 1), db[i].value)
    case Types => Found(db[i].handle, db[i].handle, db[i].value)
    case Infos => Found(db[i].handle, db[i].handle, Wire(db[i].uuid))
    case Values => Found(db[i].handle, if IsService(db[i]) then GroupEnd(db, i + 1) else db[i].handle, [])
  }

  function AllFound(kind: Kind, db: Db, idx: seq<nat>): seq<Found>
    requires Indices(db, idx)
  {
    seq(|idx|, k requires 0 <= k < |idx| => FoundAt(kind, db, idx[k]))
  }

  function Decode(kind: Kind, r: seq<byte>): Found
    requires |r| >= 4 || (kind == Types && |r| >= 2)
  {
    var h := Word(r[0], r[1]);
    match kind
    case Groups => Found(h, Word(r[2], r[3]), r[4..])
    case Types => Found(h, h, r[2..])
    case Infos => Found(h, h, r[2..])
    case Values => Found(h, Word(r[2], r[3]), [])
  }

  function Split(kind: Kind, body: seq<byte>, recLen: nat): seq<Found>
    decreases |body|
  {
    if recLen < (if kind == Types then 2 else 4) || |body| < recLen then []
    else [Decode(kind, body[..recLen])] + Split(kind, body[recLen..], recLen)
  }

  function Parse(kind: Kind, pdu: seq<byte>): seq<Found> {
    if |pdu| < 2 || pdu[0] == OP_ERROR_RSP then []
    else Split(kind, pdu[HeaderLen(kind)..], if kind == Groups || kind == Types then pdu[1] else 4)
  }

  lemma DecodeRecord(kind: Kind, db: Db, i: nat)
    requires i < |db|
    ensures |Record(kind, db, i)| >= (if kind == Types then 2 else 4)
    ensures Decode(kind, Record(kind, db, i)) == FoundAt(kind, db, i)
  {
    var r := Record(kind, db, i);
    match kind
    case Groups => assert r[4..] == db[i].value;
    case Types => assert r[2..] == db[i].value;
    case Infos => assert r[2..] == Wire(db[i].uuid);
    case Values =>
  }

  lemma {:induction false} RecordsFront(kind: Kind, db: Db, idx: seq<nat>)
    requires Indices(db, idx) && idx != []
    ensures Records(kind, db, idx) == Record(kind, db, idx[0]) + Records(kind, db, idx[1..])
    decreases |idx|
  {
    hide Record;
    var n := |idx| - 1;
    if n > 0 {
      RecordsFront(kind, db, idx[..n]);
      assert idx[..n][1..] == idx[1..][..n - 1];
    } else {
      assert idx[1..] == [] && idx[..0] == [];
    }
  }

  /** Records of one length come out of the response as they went in. */
  lemma {:induction false} SplitRecords(kind: Kind, db: Db, idx: seq<nat>, recLen: nat)
    requires Indices(db, idx) && forall k :: 0 <= k < |idx| ==> |Record(kind, db, idx[k])| == recLen
    ensures Split(kind, Records(kind, db, idx), recLen) == AllFound(kind, db, idx)
    decreases |idx|
  {
    hide Record, Decode, FoundAt;
    if idx != [] {
      RecordsFront(kind, db, idx);
      DecodeRecord(kind, db, idx[0]);
      var body := Records(kind, db, idx);
      assert body[..recLen] == Record(kind, db, idx[0]) && body[recLen..] == Records(kind, db, idx[1..]);
      SplitRecords(kind, db, idx[1..], recLen);
      assert AllFound(kind, db, idx) == [FoundAt(kind, db, idx[0])] + AllFound(kind, db, idx[1..]);
    }
  }

  lemma {:induction false} TakenAlike(kind: Kind, db: Db, idx: seq<nat>, recLen: nat, room: int)
    requires Indices(db, idx)
    ensures var n := Taken(kind, db, idx, recLen, room);
      n <= |idx| && forall k :: 0 <= k < n ==> |Record(kind, db, idx[k])| == recLen
    decreases |idx|
  {
    hide Record;
    if idx != [] && |Record(kind, db, idx[0])| == recLen && recLen <= room {
      TakenAlike(kind, db, idx[1..], recLen, room - recLen);
    }
  }

  /** The records taken fit the room. */
  lemma {:induction false} TakenFits(kind: Kind, db: Db, idx: seq<nat>, recLen: nat, room: int)
    requires Indices(db, idx)
    ensures var n := Taken(kind, db, idx, recLen, room);
      n <= |idx| && (n > 0 ==> |Records(kind, db, idx[..n])| <= room)
    decreases |idx|
  {
    hide Record;
    TakenBound(kind, db, idx, recLen, room);
    var n := Taken(kind, db, idx, recLen, room);
    if n > 0 {
      TakenFits(kind, db, idx[1..], recLen, room - recLen);
      RecordsFront(kind, db, idx[..n]);
      assert idx[..n][1..] == idx[1..][..n - 1];
    }
  }

  // ----- Which responses fit ----------------------------------------------------------

  function Max(a: nat, b: nat): nat {
    if a <= b then b else a
  }

  lemma ListRspBound(kind: Kind, op: byte, db: Db, q: Query, limit: nat)
    ensures |ListRsp(kind, op, db, q, limit)| <= Max(limit, 5)
  {
    hide Record, Records;
    SelectIndices(db, q, 0);
    var idx := Select(db, q, 0);
    if idx != [] {
      TakenFits(kind, db, idx, |Record(kind, db, idx[0])|, limit - HeaderLen(kind));
    }
  }

  /** A reply that is no part of a value is an error or fits the MTU. */
  lemma OtherResponseBound(ctx: Ctx, req: seq<byte>, outMax: byte)
    requires outMax >= 5 && (req == [] || (req[0] != OP_READ_REQ && req[0] != OP_READ_BLOB_REQ))
    ensures |Dispatch(ctx, req, outMax).pdu| <= Max(Min(outMax, ctx.mtu), 5)
  {
    hide ListRsp, Read, ReadBlob;
    var limit := Min(outMax, ctx.mtu);
    if |req| >= 5 {
      var s, e := At16(req, 1), At16(req, 3);
      ListRspBound(Infos, req[0], ctx.db, Query(s, e, None, None), limit);
      if |req| >= 7 {
        var t := Some(At16(req, 5));
        ListRspBound(Groups, req[0], ctx.db, Query(s, e, t, None), limit);
        ListRspBound(Types, req[0], ctx.db, Query(s, e, t, None), limit);
        ListRspBound(Values, req[0], ctx.db, Query(s, e, t, Some(req[7..])), limit);
      }
    }
  }

  /** A reply to a read is an error, or the opcode and what is left of a value, up
      to the bound. */
  lemma ReadResponseBound(ctx: Ctx, req: seq<byte>, outMax: byte)
    requires outMax >= 5 && req != [] && (req[0] == OP_READ_REQ || req[0] == OP_READ_BLOB_REQ)
    ensures var n := |Dispatch(ctx, req, outMax).pdu|;
      n <= 5 || (n <= 1 + Cap(ctx, outMax) && exists i :: 0 <= i < |ctx.db| && Readable(ctx, ctx.db[i].handle, i) && n <= 1 + |ctx.db[i].value|)
  {
    hide At16, Cap, Find, ReadByGroupType, ReadByType, FindInfo, FindByTypeValue, WriteError, Written;
    if |req| >= 3 {
      FindFound(ctx.db, At16(req, 1), 0);
      var f := Find(ctx.db, At16(req, 1), 0);
      if f.Some? && !Locked(ctx, ctx.db[f.value]) {
        assert Readable(ctx, ctx.db[f.value].handle, f.value);
      }
    }
  }

  /** Every reply to every request stays within the buffer and the MTU, if and only
      if the MTU has room for an error response. */
  lemma ResponseBoundIff(ctx: Ctx, outMax: byte)
    requires outMax >= 5
    ensures (forall req: seq<byte> :: |Dispatch(ctx, req, outMax).pdu| <= Min(outMax, ctx.mtu)) <==> ctx.mtu >= 5
  {
    assert |Dispatch(ctx, [0xff], outMax).pdu| == 5;
    hide Dispatch, Cap, Readable;
    if ctx.mtu >= 5 {
      forall req: seq<byte> ensures |Dispatch(ctx, req, outMax).pdu| <= Min(outMax, ctx.mtu) {
        ResponseBound(ctx, req, outMax);
      }
    }
  }

  lemma ResponseBound(ctx: Ctx, req: seq<byte>, outMax: byte)
    requires ctx.mtu >= 5
    ensures |Dispatch(ctx, req, outMax).pdu| <= Min(outMax, ctx.mtu)
  {
    hide Readable, ReadByGroupType, ReadByType, FindInfo, FindByTypeValue, Read, ReadBlob, WriteError, Written;
    if outMax < 5 {
      assert Dispatch(ctx, req, outMax).pdu == [];
    } else if req != [] && (req[0] == OP_READ_REQ || req[0] == OP_READ_BLOB_REQ) {
      ReadResponseBound(ctx, req, outMax);
    } else {
      OtherResponseBound(ctx, req, outMax);
    }
  }

  /** Every readable value fits the buffer behind an opcode. */
  predicate ValuesFit(ctx: Ctx, outMax: byte) {
    forall i :: 0 <= i < |ctx.db| && Readable(ctx, ctx.db[i].handle, i) ==> |ctx.db[i].value| < outMax
  }

  /** Every reply stays within the buffer, if and only if the MTU is not zero or
      every readable value fits. */
  lemma ReplyInBufferIff(ctx: Ctx, outMax: byte)
    requires outMax >= 5
    ensures (forall req: seq<byte> :: |Dispatch(ctx, req, outMax).pdu| <= outMax) <==> ctx.mtu > 0 || ValuesFit(ctx, outMax)
  {
    hide Dispatch, Readable;
    if ctx.mtu > 0 || ValuesFit(ctx, outMax) {
      forall req: seq<byte> ensures |Dispatch(ctx, req, outMax).pdu| <= outMax {
        if req != [] && (req[0] == OP_READ_REQ || req[0] == OP_READ_BLOB_REQ) {
          ReadResponseBound(ctx, req, outMax);
        } else {
          OtherResponseBound(ctx, req, outMax);
        }
      }
    } else {
      var i :| 0 <= i < |ctx.db| && Readable(ctx, ctx.db[i].handle, i) && |ctx.db[i].value| >= outMax;
      WholeValueRead(ctx, ctx.db[i].handle, outMax, i);
      assert |Dispatch(ctx, [OP_READ_REQ] + Wire(ctx.db[i].handle), outMax).pdu| > outMax;
    }
  }

  /** With an MTU of zero a read brings the whole value, whatever the buffer. */
  lemma WholeValueRead(ctx: Ctx, handle: uint16, outMax: byte, i: nat)
    requires ctx.mtu == 0 && outMax >= 5 && Readable(ctx, handle, i)
    ensures Dispatch(ctx, [OP_READ_REQ] + Wire(handle), outMax).pdu == [OP_READ_RSP] + ctx.db[i].value
  {
    hide Low, High, Word, At16, ReadByGroupType, ReadByType, FindInfo, FindByTypeValue, ReadBlob, WriteError, Written, Find;
    OffsetFields(OP_READ_REQ, handle, 0);
    FindFound(ctx.db, handle, 0);
    assert ctx.db[i].value[..|ctx.db[i].value|] == ctx.db[i].value;
  }

  /** Once a client has set an MTU of zero, a value of 20 bytes goes into a buffer
      of ten. */
  lemma MtuZeroOverruns()
    ensures var v := seq(20, i => i);
      Dispatch(Ctx([Attr(1, 0x2a00, v, false, false)], 0, false), [OP_READ_REQ] + Wire(1), 10).pdu == [OP_READ_RSP] + v
  {
    var v: seq<byte> := seq(20, i => i);
    WholeValueRead(Ctx([Attr(1, 0x2a00, v, false, false)], 0, false), 1, 10, 0);
  }

  // ----- Paged discovery -----------------------------------------------------------------

  /** A record small enough to be alone in a response. */
  predicate Fits(kind: Kind, db: Db, limit: nat, i: nat)
    requires i < |db|
  {
    HeaderLen(kind) + |Record(kind, db, i)| <= limit
  }

  /** How many indices come before the first record that never fits. */
  function Fitting(kind: Kind, db: Db, limit: nat, idx: seq<nat>): (n: nat)
    requires Indices(db, idx)
    ensures n <= |idx|
    decreases |idx|
  {
    if idx == [] || !Fits(kind, db, limit, idx[0]) then 0 else 1 + Fitting(kind, db, limit, idx[1..])
  }

  /** What the client looks for: a type, and for one procedure a value. */
  datatype Want = Want(uuid: Option<uint16>, value: Option<seq<byte>>)

  /** A query to the end of the handle space. */
  function From(start: uint16, want: Want): Query {
    Query(start, 0xffff, want.uuid, want.value)
  }

  function Opcode(kind: Kind): byte {
    match kind
    case Groups => OP_READ_BY_GROUP_REQ
    case Types => OP_READ_BY_TYPE_REQ
    case Infos => OP_FIND_INFO_REQ
    case Values => OP_FIND_BY_TYPE_REQ
  }

  function Request(kind: Kind, start: uint16, want: Want): seq<byte> {
    [Opcode(kind)] + Wire(start) + Wire(0xffff) + (if want.uuid.Some? then Wire(want.uuid.value) else [])
    + (if want.value.Some? then want.value.value else [])
  }

  /** The four procedures: services by group type, attributes by type, descriptors,
      and services, or any attributes, by type and value. */
  predicate Procedure(kind: Kind, want: Want) {
    match kind
    case Groups => want.value.None? && (want.uuid == Some(PRIMARY_SERVICE) || want.uuid == Some(SECONDARY_SERVICE))
    case Types => want.value.None? && want.uuid.Some?
    case Infos => want.value.None? && want.uuid.None?
    case Values => want.value.Some? && want.uuid.Some?
  }

  /** The client: asks from `start` on, and again behind the last entry it got,
      until it gets none. */
  function Discover(ctx: Ctx, outMax: byte, kind: Kind, want: Want, start: nat): seq<Found>
    decreases 0x1_0000 - start
  {
    if start > 0xffff then []
    else
      var found := Parse(kind, Dispatch(ctx, Request(kind, start, want), outMax).pdu);
      if found == [] || found[|found| - 1].end < start then found
      else found + Discover(ctx, outMax, kind, want, found[|found| - 1].end + 1)
  }

  // ----- One page ------------------------------------------------------------------------

  lemma WireWord(n: uint16)
    ensures Word(Low(n), High(n)) == n
  {
  }

  lemma RequestFields(kind: Kind, want: Want, start: uint16)
    requires Procedure(kind, want)
    ensures var req := Request(kind, start, want);
      && (if kind == Infos then |req| == 5 else if kind == Values then |req| >= 7 && req[7..] == want.value.value else |req| == 7)
      && At16(req, 1) == start && At16(req, 3) == 0xffff
      && (want.uuid.Some? ==> At16(req, 5) == want.uuid.value)
  {
    hide Low, High, Word;
    var req := Request(kind, start, want);
    WireWord(start);
    WireWord(0xffff);
    if want.uuid.Some? {
      WireWord(want.uuid.value);
    }
  }

  /** A well-formed request of the client is answered from the database. */
  lemma RequestServed(ctx: Ctx, outMax: byte, kind: Kind, want: Want, start: uint16)
    requires outMax >= 5 && start > 0 && Procedure(kind, want)
    ensures var req := Request(kind, start, want);
      Dispatch(ctx, req, outMax).pdu == ListRsp(kind, req[0], ctx.db, From(start, want), Min(outMax, ctx.mtu))
  {
    hide ListRsp, Read, ReadBlob, WriteError, Written, At16, Low, High, Word;
    RequestFields(kind, want, start);
    var req := Request(kind, start, want);
    assert At16(req, 1) == start;
    match kind
    case Groups => hide ReadByType, FindInfo, FindByTypeValue;
    case Types => hide ReadByGroupType, FindInfo, FindByTypeValue;
    case Infos => hide ReadByType, ReadByGroupType, FindByTypeValue;
    case Values => hide ReadByType, ReadByGroupType, FindInfo;
  }

  lemma ParseError(kind: Kind, op: byte, handle: uint16, code: byte)
    ensures Parse(kind, ErrorRsp(op, handle, code)) == []
  {
  }

  /** A page of records behind its header comes out as it went in. */
  lemma ParsePage(kind: Kind, db: Db, idx: seq<nat>, recLen: byte)
    requires Indices(db, idx) && idx != []
    requires forall k :: 0 <= k < |idx| ==> |Record(kind, db, idx[k])| == recLen
    ensures Parse(kind, Header(kind, recLen) + Records(kind, db, idx)) == AllFound(kind, db, idx)
  {
    hide Record, Records, Split, AllFound;
    SplitRecords(kind, db, idx, recLen);
    RecordLen(kind, db, idx[0]);
    RecordsFront(kind, db, idx);
    var pdu := Header(kind, recLen) + Records(kind, db, idx);
    assert pdu[HeaderLen(kind)..] == Records(kind, db, idx);
  }

  lemma ParseListRsp(kind: Kind, op: byte, db: Db, q: Query, limit: nat)
    ensures var idx := Select(db, q, 0);
      && Indices(db, idx)
      && Parse(kind, ListRsp(kind, op, db, q, limit)) == AllFound(kind, db, idx[..Page(kind, db, idx, limit)])
  {
    hide Record, Records, Header, Parse, ErrorRsp, Select, Taken;
    SelectIndices(db, q, 0);
    var idx := Select(db, q, 0);
    var n := Page(kind, db, idx, limit);
    if n > 0 {
      var recLen := |Record(kind, db, idx[0])|;
      TakenAlike(kind, db, idx, recLen, limit - HeaderLen(kind));
      RecordLen(kind, db, idx[0]);
      ParsePage(kind, db, idx[..n], recLen);
    } else {
      ParseError(kind, op, q.start, ERR_ATTRIBUTE_NOT_FOUND);
    }
  }

  // ----- From one page to the next -----------------------------------------------------

  /** Selected indices are in order, and cutting the list behind one of them is
      selecting from behind it. */
  lemma {:induction false} SelectSplit(db: Db, q: Query, i: nat, m: nat)
    requires m < |Select(db, q, i)|
    ensures var idx := Select(db, q, i);
      i <= idx[m] < |db| && Matches(db[idx[m]], q) && Select(db, q, idx[m] + 1) == idx[m + 1..]
    decreases |db| - i
  {
    var idx := Select(db, q, i);
    if i < |db| {
      if Matches(db[i], q) {
        assert idx == [i] + Select(db, q, i + 1);
        if m > 0 {
          SelectSplit(db, q, i + 1, m - 1);
        }
      } else {
        assert idx == Select(db, q, i + 1);
        SelectSplit(db, q, i + 1, m);
      }
    }
  }

  lemma {:induction false} SelectSkip(db: Db, q: Query, i: nat, j: nat)
    requires i <= j <= |db| && forall k :: i <= k < j ==> !Matches(db[k], q)
    ensures Select(db, q, i) == Select(db, q, j)
    decreases j - i
  {
    if i < j {
      SelectSkip(db, q, i + 1, j);
    }
  }

  lemma {:induction false} SelectAlike(db: Db, q: Query, q': Query, i: nat)
    requires forall k :: i <= k < |db| ==> Matches(db[k], q) == Matches(db[k], q')
    ensures Select(db, q, i) == Select(db, q', i)
    decreases |db| - i
  {
    if i < |db| {
      SelectAlike(db, q, q', i + 1);
    }
  }

  lemma {:induction false} SelectAll(db: Db, q: Query, i: nat, k: nat)
    requires i <= k < |db| && Matches(db[k], q)
    ensures k in Select(db, q, i)
    decreases k - i
  {
    if i < k {
      SelectAll(db, q, i + 1, k);
    }
  }

  /** Where a group ends: before the first service from j on, if there is one. */
  lemma {:induction false} GroupEndAt(db: Db, j: nat) returns (e: nat)
    requires 0 < j <= |db|
    ensures j <= e <= |db| && GroupEnd(db, j) == db[e - 1].handle
    ensures forall k :: j <= k < e ==> !IsService(db[k])
    ensures e < |db| ==> IsService(db[e])
    decreases |db| - j
  {
    if j < |db| && !IsService(db[j]) {
      e := GroupEndAt(db, j + 1);
    } else {
      e := j;
    }
  }

  /** Some service lies behind index i, up to index k. */
  ghost predicate ServiceBetween(db: Db, i: nat, k: nat)
    requires k < |db|
  {
    exists s :: i < s <= k && IsService(db[s])
  }

  /** A group reaches from its service to the attribute before the next one:
      the ranges of services are disjoint and cover what lies between. */
  lemma GroupEndIsLast(db: Db, i: nat)
    requires Sorted(db) && i < |db|
    ensures db[i].handle <= GroupEnd(db, i + 1)
    ensures forall k :: i <= k < |db| ==> (db[k].handle <= GroupEnd(db, i + 1) <==> !ServiceBetween(db, i, k))
  {
    var e := GroupEndAt(db, i + 1);
    hide IsService, GroupEnd;
    assert db[i].handle <= db[e - 1].handle;
    forall k | i <= k < |db| ensures db[k].handle <= GroupEnd(db, i + 1) <==> !ServiceBetween(db, i, k) {
      if k < e {
        assert k == e - 1 || db[k].handle < db[e - 1].handle;
        assert !ServiceBetween(db, i, k);
      } else {
        assert db[e - 1].handle < db[k].handle;
        assert IsService(db[e]);
      }
    }
  }

  /** What is left to find behind a handle. */
  function Behind(db: Db, want: Want, end: uint16): seq<nat> {
    if end < 0xffff then Select(db, From(end + 1, want), 0) else []
  }

  /** No match lies between an entry and its end. */
  lemma MatchesBehind(db: Db, kind: Kind, want: Want, i: nat)
    requires Sorted(db) && Procedure(kind, want) && i < |db| && (want.uuid.Some? ==> db[i].uuid == want.uuid.value)
    ensures var end := FoundAt(kind, db, i).end;
      && db[i].handle <= end
      && forall k :: i < k < |db| && (want.uuid.Some? ==> db[k].uuid == want.uuid.value) ==> db[k].handle > end
  {
    hide GroupEnd;
    if kind == Groups || (kind == Values && IsService(db[i])) {
      GroupEndIsLast(db, i);
      forall k | i < k < |db| && db[k].uuid == want.uuid.value ensures db[k].handle > FoundAt(kind, db, i).end {
        assert IsService(db[k]) && ServiceBetween(db, i, k);
      }
    }
  }

  /** The next request picks up exactly behind the last entry of the page. */
  lemma NextPage(db: Db, kind: Kind, want: Want, start: uint16, n: nat)
    requires Sorted(db) && Procedure(kind, want)
    requires 0 < n <= |Select(db, From(start, want), 0)|
    ensures var idx := Select(db, From(start, want), 0);
      && Indices(db, idx)
      && start <= FoundAt(kind, db, idx[n - 1]).end
      && idx[n..] == Behind(db, want, FoundAt(kind, db, idx[n - 1]).end)
  {
    hide FoundAt, Procedure, Select;
    SelectIndices(db, From(start, want), 0);
    var q := From(start, want);
    var idx := Select(db, q, 0);
    SelectSplit(db, q, 0, n - 1);
    var last := idx[n - 1];
    var end := FoundAt(kind, db, last).end;
    MatchesBehind(db, kind, want, last);
    if end < 0xffff {
      var q' := From(end + 1, want);
      SelectSkip(db, q', 0, last + 1);
      SelectAlike(db, q, q', last + 1);
    } else {
      if idx[n..] != [] {
        SelectSplit(db, q, last + 1, 0);
      }
    }
  }

  lemma {:induction false} FittingSplit(kind: Kind, db: Db, limit: nat, idx: seq<nat>, n: nat)
    requires Indices(db, idx) && n <= |idx| && forall k :: 0 <= k < n ==> Fits(kind, db, limit, idx[k])
    ensures Fitting(kind, db, limit, idx) == n + Fitting(kind, db, limit, idx[n..])
    decreases n
  {
    hide Fits;
    if n > 0 {
      FittingSplit(kind, db, limit, idx[1..], n - 1);
      assert idx[1..][n - 1..] == idx[n..];
    } else {
      assert idx[0..] == idx;
    }
  }

  /** A page is empty only when its first record never fits. */
  lemma PageFits(kind: Kind, db: Db, idx: seq<nat>, limit: nat)
    requires Indices(db, idx)
    ensures var n := Page(kind, db, idx, limit);
      && (forall k :: 0 <= k < n ==> Fits(kind, db, limit, idx[k]))
      && (n == 0 <==> Fitting(kind, db, limit, idx) == 0)
  {
    hide Record;
    if idx != [] {
      TakenAlike(kind, db, idx, |Record(kind, db, idx[0])|, limit - HeaderLen(kind));
    }
  }

  // ----- All pages -------------------------------------------------------------------------

  /** What the client should see from a start: the matching attributes in
      order, up to the first one whose record fits no response. */
  function Expected(ctx: Ctx, outMax: byte, kind: Kind, want: Want, start: uint16): seq<Found> {
    var idx := Select(ctx.db, From(start, want), 0);
    SelectIndices(ctx.db, From(start, want), 0);
    AllFound(kind, ctx.db, idx[..Fitting(kind, ctx.db, Min(outMax, ctx.mtu), idx)])
  }

  /** What one request of the client brings. */
  lemma OnePage(ctx: Ctx, outMax: byte, kind: Kind, want: Want, start: uint16) returns (idx: seq<nat>, n: nat)
    requires outMax >= 5 && Procedure(kind, want) && 0 < start
    ensures idx == Select(ctx.db, From(start, want), 0) && Indices(ctx.db, idx) && n <= |idx|
    ensures Parse(kind, Dispatch(ctx, Request(kind, start, want), outMax).pdu) == AllFound(kind, ctx.db, idx[..n])
    ensures forall k :: 0 <= k < n ==> Fits(kind, ctx.db, Min(outMax, ctx.mtu), idx[k])
    ensures n == 0 <==> Fitting(kind, ctx.db, Min(outMax, ctx.mtu), idx) == 0
  {
    hide Dispatch, Parse, Page, ListRsp, Select, Fits, Fitting, AllFound, From, Low, High, Wire;
    var limit := Min(outMax, ctx.mtu);
    idx := Select(ctx.db, From(start, want), 0);
    SelectIndices(ctx.db, From(start, want), 0);
    n := Page(kind, ctx.db, idx, limit);
    RequestServed(ctx, outMax, kind, want, start);
    ParseListRsp(kind, Request(kind, start, want)[0], ctx.db, From(start, want), limit);
    PageFits(kind, ctx.db, idx, limit);
  }

  /** One page more, and the rest from behind it. */
  lemma ExpectedPage(ctx: Ctx, outMax: byte, kind: Kind, want: Want, start: uint16, idx: seq<nat>, n: nat)
    requires Sorted(ctx.db) && Procedure(kind, want) && 0 < n <= |idx|
    requires idx == Select(ctx.db, From(start, want), 0) && Indices(ctx.db, idx)
    requires forall k :: 0 <= k < n ==> Fits(kind, ctx.db, Min(outMax, ctx.mtu), idx[k])
    ensures var end := FoundAt(kind, ctx.db, idx[n - 1]).end;
      && start <= end
      && Expected(ctx, outMax, kind, want, start)
          == AllFound(kind, ctx.db, idx[..n]) + (if end < 0xffff then Expected(ctx, outMax, kind, want, end + 1) else [])
  {
    hide Fits, FoundAt, Select, Procedure;
    var db, limit := ctx.db, Min(outMax, ctx.mtu);
    NextPage(db, kind, want, start, n);
    FittingSplit(kind, db, limit, idx, n);
    var rest := idx[n..];
    var f := Fitting(kind, db, limit, rest);
    assert AllFound(kind, db, idx[..n + f]) == AllFound(kind, db, idx[..n]) + AllFound(kind, db, rest[..f]);
  }

  lemma {:induction false} DiscoverFrom(ctx: Ctx, outMax: byte, kind: Kind, want: Want, start: uint16)
    requires Sorted(ctx.db) && outMax >= 5 && Procedure(kind, want) && 0 < start
    ensures Discover(ctx, outMax, kind, want, start) == Expected(ctx, outMax, kind, want, start)
    decreases 0x1_0000 - start
  {
    hide Dispatch, Parse, Procedure, FoundAt, Fits, Select, Request;
    var idx, n := OnePage(ctx, outMax, kind, want, start);
    if n > 0 {
      hide Expected;
      ExpectedPage(ctx, outMax, kind, want, start, idx, n);
      var end := FoundAt(kind, ctx.db, idx[n - 1]).end;
      var found := AllFound(kind, ctx.db, idx[..n]);
      assert found[|found| - 1].end == end;
      if end < 0xffff {
        DiscoverFrom(ctx, outMax, kind, want, end + 1);
      } else {
        assert Discover(ctx, outMax, kind, want, 0x1_0000) == [];
      }
    }
  }

  /** Everything the database holds for the procedure. */
  function Everything(db: Db, want: Want): seq<nat> {
    Select(db, From(1, want), 0)
  }

  /** Discovery from handle 1 sees every matching attribute exactly once and in
      order, for exactly the databases in which each fits a response alone. */
  lemma DiscoveryCompleteIff(ctx: Ctx, outMax: byte, kind: Kind, want: Want)
    requires Sorted(ctx.db) && outMax >= 5 && Procedure(kind, want)
    ensures var idx := Everything(ctx.db, want);
      && Indices(ctx.db, idx)
      && (Discover(ctx, outMax, kind, want, 1) == AllFound(kind, ctx.db, idx)
          <==> forall k :: 0 <= k < |idx| ==> Fits(kind, ctx.db, Min(outMax, ctx.mtu), idx[k]))
  {
    hide Fits, FoundAt, Discover;
    var db, limit := ctx.db, Min(outMax, ctx.mtu);
    var idx := Everything(db, want);
    SelectIndices(db, From(1, want), 0);
    DiscoverFrom(ctx, outMax, kind, want, 1);
    var n := Fitting(kind, db, limit, idx);
    assert |AllFound(kind, db, idx[..n])| == n && |AllFound(kind, db, idx)| == |idx|;
    FittingAll(kind, db, limit, idx);
    if n == |idx| {
      assert idx[..n] == idx;
    }
  }

  lemma {:induction false} FittingAll(kind: Kind, db: Db, limit: nat, idx: seq<nat>)
    requires Indices(db, idx)
    ensures Fitting(kind, db, limit, idx) == |idx| <==> forall k :: 0 <= k < |idx| ==> Fits(kind, db, limit, idx[k])
    decreases |idx|
  {
    hide Fits;
    if idx != [] {
      FittingAll(kind, db, limit, idx[1..]);
      assert forall k :: 0 <= k < |idx| - 1 ==> idx[1..][k] == idx[k + 1];
      assert forall k :: 0 < k < |idx| ==> idx[k] == idx[1..][k - 1];
    }
  }

  /** Discovery by type and value is complete over every sorted database: its
      records have four bytes, so one always fits. */
  lemma ByValueIsComplete(ctx: Ctx, outMax: byte, uuid: uint16, value: seq<byte>)
    requires Sorted(ctx.db) && ctx.mtu >= 5 && outMax >= 5
    ensures var want := Want(Some(uuid), Some(value));
      && Indices(ctx.db, Everything(ctx.db, want))
      && Discover(ctx, outMax, Values, want, 1) == AllFound(Values, ctx.db, Everything(ctx.db, want))
  {
    hide Discover, Everything, FoundAt;
    var want := Want(Some(uuid), Some(value));
    DiscoveryCompleteIff(ctx, outMax, Values, want);
    var idx := Everything(ctx.db, want);
    forall k | 0 <= k < |idx| ensures Fits(Values, ctx.db, Min(outMax, ctx.mtu), idx[k]) {
      RecordLen(Values, ctx.db, idx[k]);
    }
  }

  predicate Wanted(a: Attr, want: Want) {
    (want.uuid.Some? ==> a.uuid == want.uuid.value) && (want.value.Some? ==> a.value == want.value.value)
  }

  /** What "everything" is: the indices of the matching attributes, ascending. */
  lemma EverythingIsAll(db: Db, want: Want)
    requires Sorted(db)
    ensures var idx := Everything(db, want);
      && (forall i :: i in idx <==> 0 <= i < |db| && Wanted(db[i], want))
      && (forall a, b :: 0 <= a < b < |idx| ==> idx[a] < idx[b])
  {
    hide Select;
    var q := From(1, want);
    var idx := Everything(db, want);
    forall i | 0 <= i < |db| && Wanted(db[i], want) ensures i in idx {
      SelectAll(db, q, 0, i);
    }
    forall m | 0 <= m < |idx| ensures idx[m] < |db| && Matches(db[idx[m]], q) {
      SelectSplit(db, q, 0, m);
    }
    forall a, b | 0 <= a < b < |idx| ensures idx[a] < idx[b] {
      SelectAscends(db, q, a, b);
    }
  }

  lemma SelectAscends(db: Db, q: Query, a: nat, b: nat)
    requires a < b < |Select(db, q, 0)|
    ensures Select(db, q, 0)[a] < Select(db, q, 0)[b]
  {
    hide Select, Matches;
    SelectSplit(db, q, 0, a);
    SelectSplit(db, q, Select(db, q, 0)[a] + 1, b - a - 1);
  }

  // ----- Long reads ------------------------------------------------------------------------

  /** The client reads on at the offset it has reached, until a reply is short. */
  function ReadOn(ctx: Ctx, handle: uint16, outMax: byte, full: nat, got: seq<byte>): seq<byte>
    requires |got| <= 0xffff
    decreases 0x1_0000 - |got|
  {
    var pdu := Dispatch(ctx, [OP_READ_BLOB_REQ] + Wire(handle) + Wire(|got|), outMax).pdu;
    if pdu == [] || pdu[0] != OP_READ_BLOB_RSP then got
    else if |pdu| - 1 < full || full == 0 || |got| + |pdu| - 1 > 0xffff then got + pdu[1..]
    else ReadOn(ctx, handle, outMax, full, got + pdu[1..])
  }

  /** A client that takes replies of fewer than `full` bytes for the last. */
  function LongRead(ctx: Ctx, handle: uint16, outMax: byte, full: nat): seq<byte>
  {
    var pdu := Dispatch(ctx, [OP_READ_REQ] + Wire(handle), outMax).pdu;
    if pdu == [] || pdu[0] != OP_READ_RSP then []
    else if |pdu| - 1 < full || |pdu| - 1 > 0xffff then pdu[1..]
    else ReadOn(ctx, handle, outMax, full, pdu[1..])
  }

  predicate Readable(ctx: Ctx, handle: uint16, i: nat) {
    Find(ctx.db, handle, 0) == Some(i) && i < |ctx.db| && !Locked(ctx, ctx.db[i])
  }

  lemma BlobReply(ctx: Ctx, handle: uint16, outMax: byte, i: nat, offset: uint16)
    requires ctx.mtu > 1 && outMax >= 5 && Readable(ctx, handle, i) && offset <= |ctx.db[i].value|
    ensures var v := ctx.db[i].value; var cap := Min(outMax, ctx.mtu) - 1;
      Dispatch(ctx, [OP_READ_BLOB_REQ] + Wire(handle) + Wire(offset), outMax).pdu
        == [OP_READ_BLOB_RSP] + v[offset..offset + Min(|v| - offset, cap)]
  {
    hide Low, High, Word, At16, ReadByGroupType, ReadByType, FindInfo, FindByTypeValue, Read, WriteError, Written, Find;
    OffsetFields(OP_READ_BLOB_REQ, handle, offset);
    FindFound(ctx.db, handle, 0);
  }

  lemma OffsetFields(op: byte, handle: uint16, offset: uint16)
    ensures var req := [op] + Wire(handle) + Wire(offset);
      |req| == 5 && At16(req, 1) == handle && At16(req, 3) == offset
    ensures var req := [op] + Wire(handle); |req| == 3 && At16(req, 1) == handle
  {
    hide Low, High, Word;
    WireWord(handle);
    WireWord(offset);
  }

  lemma ReadReply(ctx: Ctx, handle: uint16, outMax: byte, i: nat)
    requires ctx.mtu > 1 && outMax >= 5 && Readable(ctx, handle, i)
    ensures var v := ctx.db[i].value; var cap := Min(outMax, ctx.mtu) - 1;
      Dispatch(ctx, [OP_READ_REQ] + Wire(handle), outMax).pdu == [OP_READ_RSP] + v[..Min(|v|, cap)]
  {
    hide Low, High, Word, At16, ReadByGroupType, ReadByType, FindInfo, FindByTypeValue, ReadBlob, WriteError, Written, Find;
    OffsetFields(OP_READ_REQ, handle, 0);
    FindFound(ctx.db, handle, 0);
  }

  lemma {:induction false} ReadOnRebuilds(ctx: Ctx, handle: uint16, outMax: byte, i: nat, n: nat)
    requires ctx.mtu > 1 && outMax >= 5 && Readable(ctx, handle, i) && n <= |ctx.db[i].value|
    ensures ReadOn(ctx, handle, outMax, Min(outMax, ctx.mtu) - 1, ctx.db[i].value[..n]) == ctx.db[i].value
    decreases |ctx.db[i].value| - n
  {
    hide Dispatch;
    var v, cap := ctx.db[i].value, Min(outMax, ctx.mtu) - 1;
    BlobReply(ctx, handle, outMax, i, n);
    var k := Min(|v| - n, cap);
    var pdu := [OP_READ_BLOB_RSP] + v[n..n + k];
    assert pdu[1..] == v[n..n + k];
    assert v[..n] + v[n..n + k] == v[..n + k];
    if k < cap {
      assert v[..n + k] == v;
    } else {
      ReadOnRebuilds(ctx, handle, outMax, i, n + k);
    }
  }

  /** Read, then Read Blob at the accumulated offset until a reply shorter than
      a full one, rebuilds every value exactly, for every MTU and buffer size. */
  lemma LongReadRebuilds(ctx: Ctx, handle: uint16, outMax: byte, i: nat)
    requires ctx.mtu > 1 && outMax >= 5 && Readable(ctx, handle, i)
    ensures LongRead(ctx, handle, outMax, Min(outMax, ctx.mtu) - 1) == ctx.db[i].value
  {
    hide Dispatch;
    var v, cap := ctx.db[i].value, Min(outMax, ctx.mtu) - 1;
    ReadReply(ctx, handle, outMax, i);
    var pdu := [OP_READ_RSP] + v[..Min(|v|, cap)];
    assert pdu[1..] == v[..Min(|v|, cap)];
    if |v| < cap {
      assert v[..|v|] == v;
    } else {
      ReadOnRebuilds(ctx, handle, outMax, i, cap);
    }
  }

  /** A client that knows only the MTU gets the whole value exactly when the
      server's buffer is no smaller, or the value fits its first reply. */
  lemma LongReadByMtuIff(ctx: Ctx, handle: uint16, outMax: byte, i: nat)
    requires ctx.mtu > 1 && outMax >= 5 && Readable(ctx, handle, i)
    ensures LongRead(ctx, handle, outMax, ctx.mtu - 1) == ctx.db[i].value
       <==> outMax >= ctx.mtu || |ctx.db[i].value| <= outMax - 1
  {
    hide Dispatch, ReadOn;
    if outMax >= ctx.mtu {
      LongReadRebuilds(ctx, handle, outMax, i);
    } else {
      ReadReply(ctx, handle, outMax, i);
      var v := ctx.db[i].value;
      var pdu := [OP_READ_RSP] + v[..Min(|v|, outMax - 1)];
      assert pdu[1..] == v[..Min(|v|, outMax - 1)];
      if |v| <= outMax - 1 {
        assert v[..|v|] == v;
      }
    }
  }

  /** With an MTU of 23 and a buffer of ten bytes the first reply looks like the last. */
  lemma LongReadCutShort()
    ensures var v := seq(20, i => i);
      var ctx := Ctx([Attr(1, 0x2a00, v, false, false)], 23, false);
      && LongRead(ctx, 1, 10, ctx.mtu - 1) != v && LongRead(ctx, 1, 10, Min(10, ctx.mtu) - 1) == v
  {
    var v: seq<byte> := seq(20, i => i);
    var ctx := Ctx([Attr(1, 0x2a00, v, false, false)], 23, false);
    assert Readable(ctx, 1, 0);
    hide LongRead, Readable;
    LongReadByMtuIff(ctx, 1, 10, 0);
    LongReadRebuilds(ctx, 1, 10, 0);
  }

  // ----- Writing -----------------------------------------------------------------------------

  /** Putting another value in an attribute moves no handle. */
  lemma {:induction false} FindKeeps(db: Db, i: nat, v: Value, handle: uint16, from: nat)
    requires i < |db|
    ensures Find(db[i := db[i].(value := v)], handle, from) == Find(db, handle, from)
    decreases |db| - from
  {
    if from < |db| {
      FindKeeps(db, i, v, handle, from + 1);
    }
  }

  /** An accepted write is what a long read of the attribute then gives, with
      the rest of the old value behind it, and no other attribute reads otherwise. */
  lemma WriteReadsBack(ctx: Ctx, handle: uint16, data: seq<byte>, outMax: byte, other: uint16, j: nat)
    requires ctx.mtu > 1 && outMax >= 5 && WriteError(ctx, handle, data) == 0 && Readable(ctx, other, j)
    ensures var after := ctx.(db := Written(ctx, handle, data)); var full := Min(outMax, ctx.mtu) - 1;
      LongRead(after, other, outMax, full)
        == if other == handle then data + ctx.db[j].value[|data|..] else LongRead(ctx, other, outMax, full)
  {
    hide LongRead;
    var after := ctx.(db := Written(ctx, handle, data));
    FindFound(ctx.db, handle, 0);
    FindFound(ctx.db, other, 0);
    var i := Find(ctx.db, handle, 0).value;
    FindKeeps(ctx.db, i, data + ctx.db[i].value[|data|..], other, 0);
    LongReadRebuilds(ctx, other, outMax, j);
    LongReadRebuilds(after, other, outMax, j);
  }

  /** A context with another value in attribute i. */
  function With(ctx: Ctx, i: nat, v: Value): Ctx
    requires i < |ctx.db|
  {
    ctx.(db := ctx.db[i := ctx.db[i].(value := v)])
  }

  /** On a link that is not encrypted, no read, blob read or write shows or
      changes anything of the value of an attribute that asks for encryption. */
  lemma LockedIsSealed(ctx: Ctx, req: seq<byte>, outMax: byte, i: nat, v: Value)
    requires i < |ctx.db| && Locked(ctx, ctx.db[i])
    requires req != [] && req[0] in {OP_READ_REQ, OP_READ_BLOB_REQ, OP_WRITE_REQ, OP_WRITE_CMD}
    ensures Dispatch(With(ctx, i, v), req, outMax).pdu == Dispatch(ctx, req, outMax).pdu
    ensures |Dispatch(ctx, req, outMax).db| == |ctx.db| && Dispatch(ctx, req, outMax).db[i] == ctx.db[i]
    ensures Dispatch(With(ctx, i, v), req, outMax).db == Dispatch(ctx, req, outMax).db[i := ctx.db[i].(value := v)]
  {
    hide Find, ReadByGroupType, ReadByType, FindInfo, FindByTypeValue, At16, ErrorRsp;
    if |req| >= 3 {
      var h := At16(req, 1);
      FindKeeps(ctx.db, i, v, h, 0);
      FindFound(ctx.db, h, 0);
      FindFound(With(ctx, i, v).db, h, 0);
    }
  }
}
