/** What a peer reads in each answer of the ATT server and what a write changes,
    in the numbers of the Bluetooth Core specification, Vol 3 Part F. */
module AttPeer {
  import opened Att

  /** i is the place of the first attribute of a handle, or the end of the database. */
  ghost predicate Foremost(db: Db, handle: nat, i: nat) {
    && i <= |db|
    && (forall k :: 0 <= k < i ==> db[k].handle != handle)
    && (i < |db| ==> db[i].handle == handle)
  }

  lemma FoundIsForemost(db: Db, handle: uint16, i: nat)
    requires Foremost(db, handle, i)
    ensures Find(db, handle, 0) == if i < |db| then Some(i) else None
  {
    FindFound(db, handle, 0);
  }

  /** The two bytes from k on, the low one first. */
  function Pair(req: seq<byte>, k: nat): nat
    requires k + 2 <= |req|
  {
    req[k] as nat + 256 * req[k + 1] as nat
  }

  lemma PairOnWire(req: seq<byte>, k: nat)
    requires k + 2 <= |req|
    ensures At16(req, k) == Pair(req, k) && Wire(At16(req, k)) == [req[k], req[k + 1]]
  {
  }

  // ----- Writing --------------------------------------------------------------

  /** Why a write of n bytes fails, section 3.4.5 and table 3.4: the first of
      no such handle, not writable, not encrypted, too long. */
  predicate Refused(ctx: Ctx, i: nat, n: nat, code: byte)
    requires i <= |ctx.db|
  {
    && (code == 0x01 <==> i == |ctx.db|)
    && (code == 0x03 <==> i < |ctx.db| && !ctx.db[i].writable)
    && (code == 0x0f <==> i < |ctx.db| && ctx.db[i].writable && ctx.db[i].encrypted && !ctx.encrypted)
    && (code == 0x04 <==> i < |ctx.db| && ctx.db[i].writable && (ctx.db[i].encrypted ==> ctx.encrypted) && n > |ctx.db[i].value|)
  }

  /** The attribute at i exists, is writable, not locked, and as long as the data. */
  predicate MayWrite(ctx: Ctx, i: nat, n: nat) {
    && i < |ctx.db| && ctx.db[i].writable
    && (ctx.db[i].encrypted ==> ctx.encrypted)
    && n <= |ctx.db[i].value|
  }

  /** The attribute at i holds the data over the front of its value; nothing else
      has changed. */
  ghost predicate Overwritten(before: Db, after: Db, i: nat, data: seq<byte>)
    requires i < |before| && |data| <= |before[i].value|
  {
    && |after| == |before|
    && (forall k :: 0 <= k < |before| && k != i ==> after[k] == before[k])
    && after[i].handle == before[i].handle && after[i].uuid == before[i].uuid
    && after[i].writable == before[i].writable && after[i].encrypted == before[i].encrypted
    && |after[i].value| == |before[i].value|
    && after[i].value[..|data|] == data
    && after[i].value[|data|..] == before[i].value[|data|..]
  }

  lemma WriteCode(ctx: Ctx, handle: uint16, data: seq<byte>, i: nat)
    requires Foremost(ctx.db, handle, i)
    ensures WriteError(ctx, handle, data) == 0 <==> MayWrite(ctx, i, |data|)
    ensures WriteError(ctx, handle, data) != 0 ==> Refused(ctx, i, |data|, WriteError(ctx, handle, data))
    ensures if MayWrite(ctx, i, |data|) then Overwritten(ctx.db, Written(ctx, handle, data), i, data) else Written(ctx, handle, data) == ctx.db
  {
    FoundIsForemost(ctx.db, handle, i);
  }

  /** A Write Request is answered with a Write Response if and only if the first
      attribute of its handle takes it; else with the error of the first failing
      test, and the database is the same. */
  lemma WriteAnswer(ctx: Ctx, req: seq<byte>, outMax: byte, i: nat) returns (code: byte)
    requires |req| >= 3 && req[0] == 0x12 && outMax >= 5
    requires Foremost(ctx.db, Pair(req, 1), i)
    ensures var r := Dispatch(ctx, req, outMax);
      && (r.pdu == [0x13] <==> MayWrite(ctx, i, |req| - 3))
      && (if MayWrite(ctx, i, |req| - 3) then Overwritten(ctx.db, r.db, i, req[3..])
          else Refused(ctx, i, |req| - 3, code) && r.pdu == [0x01, 0x12, req[1], req[2], code] && r.db == ctx.db)
  {
    hide WriteError, Written;
    PairOnWire(req, 1);
    WriteCode(ctx, At16(req, 1), req[3..], i);
    code := WriteError(ctx, At16(req, 1), req[3..]);
  }

  /** A Write Command does the same and is never answered. */
  lemma CommandAnswer(ctx: Ctx, req: seq<byte>, outMax: byte, i: nat)
    requires |req| >= 3 && req[0] == 0x52 && outMax >= 5
    requires Foremost(ctx.db, Pair(req, 1), i)
    ensures var r := Dispatch(ctx, req, outMax);
      && r.pdu == []
      && (if MayWrite(ctx, i, |req| - 3) then Overwritten(ctx.db, r.db, i, req[3..]) else r.db == ctx.db)
  {
    hide WriteError, Written;
    PairOnWire(req, 1);
    WriteCode(ctx, At16(req, 1), req[3..], i);
  }

  lemma WrittenElsewhere(ctx: Ctx, handle: uint16, data: seq<byte>, k: nat)
    requires k < |ctx.db|
    ensures |Written(ctx, handle, data)| == |ctx.db|
    ensures Written(ctx, handle, data)[k] != ctx.db[k] ==>
      ctx.db[k].writable && ctx.db[k].handle == handle && (ctx.db[k].encrypted ==> ctx.encrypted)
  {
    FindFound(ctx.db, handle, 0);
  }

  /** Only a write changes an attribute, only one of its handle that is writable,
      and an encrypted one only on an encrypted link. */
  lemma OnlyWritableChanges(ctx: Ctx, req: seq<byte>, outMax: byte, k: nat)
    requires k < |ctx.db|
    ensures var db := Dispatch(ctx, req, outMax).db;
      && |db| == |ctx.db|
      && (db[k] != ctx.db[k] ==>
          && |req| >= 3 && (req[0] == 0x12 || req[0] == 0x52) && ctx.db[k].handle == Pair(req, 1)
          && ctx.db[k].writable && (ctx.db[k].encrypted ==> ctx.encrypted))
  {
    hide Written, WriteError, ReadByGroupType, ReadByType, FindInfo, FindByTypeValue, Read, ReadBlob;
    if |req| >= 3 {
      WrittenElsewhere(ctx, At16(req, 1), req[3..], k);
    }
  }

  // ----- Answers to the other requests ------------------------------------------

  /** Requests the server knows, and the lengths it takes. */
  predicate Known(op: byte) {
    op == 0x02 || op == 0x04 || op == 0x06 || op == 0x08 || op == 0x0a || op == 0x0c || op == 0x10 || op == 0x12 || op == 0x52
  }

  predicate WellFormed(req: seq<byte>)
    requires req != []
  {
    && (req[0] == 0x02 || req[0] == 0x0a ==> |req| == 3)
    && (req[0] == 0x04 || req[0] == 0x0c ==> |req| == 5)
    && (req[0] == 0x06 ==> |req| >= 7)
    && (req[0] == 0x08 || req[0] == 0x10 ==> |req| == 7 || |req| == 21)
    && (req[0] == 0x12 || req[0] == 0x52 ==> |req| >= 3)
  }

  /** Invalid PDU for a wrong length, Request Not Supported for an unknown opcode;
      both name handle zero.  A command is never answered. */
  lemma BadRequestAnswer(ctx: Ctx, req: seq<byte>, outMax: byte)
    requires req != [] && outMax >= 5
    requires !Known(req[0]) || !WellFormed(req)
    ensures Dispatch(ctx, req, outMax).db == ctx.db
    ensures Dispatch(ctx, req, outMax).pdu
         == if req[0] == 0x52 then [] else [0x01, req[0], 0, 0, if Known(req[0]) then 0x04 else 0x06]
  {
  }

  /** The MTU of the link, the low byte first. */
  lemma MtuAnswer(ctx: Ctx, req: seq<byte>, outMax: byte)
    requires |req| == 3 && req[0] == 0x02 && outMax >= 5
    ensures Dispatch(ctx, req, outMax).pdu == [0x03, ctx.mtu, 0]
  {
  }

  /** The answer to a read of the value of the attribute at i from an offset on: the
      first of no such handle, not encrypted, offset behind the end; else as many
      bytes as the buffer and the MTU hold. */
  ghost predicate AnswersRead(ctx: Ctx, req: seq<byte>, pdu: seq<byte>, i: nat, offset: nat, room: nat)
    requires |req| >= 3 && i <= |ctx.db| && room > 0
  {
    if i == |ctx.db| then pdu == [0x01, req[0], req[1], req[2], 0x01]
    else if ctx.db[i].encrypted && !ctx.encrypted then pdu == [0x01, req[0], req[1], req[2], 0x0f]
    else if offset > |ctx.db[i].value| then pdu == [0x01, req[0], req[1], req[2], 0x07]
    else
      var rest := ctx.db[i].value[offset..];
      |pdu| > 0 && pdu[0] as nat == req[0] as nat + 1 && pdu[1..] == if |rest| < room then rest else rest[..room - 1]
  }

  /** What the client asks for is served by one of the two functions. */
  lemma ReadServed(ctx: Ctx, req: seq<byte>, outMax: byte)
    requires outMax >= 5
    ensures |req| == 3 && req[0] == 0x0a ==> Dispatch(ctx, req, outMax).pdu == Read(ctx, req, outMax)
    ensures |req| == 5 && req[0] == 0x0c ==> Dispatch(ctx, req, outMax).pdu == ReadBlob(ctx, req, outMax)
  {
    hide Read, ReadBlob;
  }

  lemma FromOffset(v: seq<byte>, offset: nat, cap: nat)
    requires offset <= |v|
    ensures var rest := v[offset..];
      v[offset..offset + Min(|v| - offset, cap)] == if |rest| < cap + 1 then rest else rest[..cap]
  {
  }

  lemma ReadAnswer(ctx: Ctx, req: seq<byte>, outMax: byte, i: nat)
    requires |req| == 3 && req[0] == 0x0a && outMax >= 5 && ctx.mtu > 0
    requires Foremost(ctx.db, Pair(req, 1), i)
    ensures AnswersRead(ctx, req, Dispatch(ctx, req, outMax).pdu, i, 0, if outMax < ctx.mtu then outMax else ctx.mtu)
  {
    hide Cap, Find, Wire, At16, Dispatch;
    ReadServed(ctx, req, outMax);
    PairOnWire(req, 1);
    FoundIsForemost(ctx.db, At16(req, 1), i);
    if i < |ctx.db| {
      FromOffset(ctx.db[i].value, 0, Cap(ctx, outMax));
      assert ctx.db[i].value[0..] == ctx.db[i].value;
    }
  }

  lemma BlobAnswer(ctx: Ctx, req: seq<byte>, outMax: byte, i: nat)
    requires |req| == 5 && req[0] == 0x0c && outMax >= 5 && ctx.mtu > 0
    requires Foremost(ctx.db, Pair(req, 1), i)
    ensures AnswersRead(ctx, req, Dispatch(ctx, req, outMax).pdu, i, Pair(req, 3), if outMax < ctx.mtu then outMax else ctx.mtu)
  {
    hide Cap, Find, Wire, At16, Dispatch;
    ReadServed(ctx, req, outMax);
    PairOnWire(req, 1);
    PairOnWire(req, 3);
    FoundIsForemost(ctx.db, At16(req, 1), i);
    if i < |ctx.db| && Pair(req, 3) <= |ctx.db[i].value| {
      FromOffset(ctx.db[i].value, Pair(req, 3), Cap(ctx, outMax));
    }
  }

  lemma {:induction false} NothingSelected(db: Db, q: Query, k: nat)
    requires forall i :: 0 <= i < |db| ==> !(q.start <= db[i].handle <= q.end)
    ensures Select(db, q, k) == []
    decreases |db| - k
  {
    if k < |db| {
      NothingSelected(db, q, k + 1);
    }
  }

  /** An answer to a range request names the request and its first handle, with a
      code, or is the response of the request's own kind. */
  predicate Listed(req: seq<byte>, pdu: seq<byte>, code: byte)
    requires |req| >= 3
  {
    pdu == [0x01, req[0], req[1], req[2], code]
  }

  lemma ListAnswer(kind: Kind, req: seq<byte>, db: Db, q: Query, limit: nat)
    requires |req| >= 3 && q.start == At16(req, 1)
    ensures var pdu := ListRsp(kind, req[0], db, q, limit);
      && |pdu| > 0
      && (Listed(req, pdu, 0x0a) || pdu[0] == match kind { case Groups => 0x11 case Types => 0x09 case Infos => 0x05 case Values => 0x07 })
      && (kind == Infos && pdu[0] != 0x01 ==> |pdu| > 1 && pdu[1] == 0x01)
      && ((forall i :: 0 <= i < |db| ==> !(q.start <= db[i].handle <= q.end)) ==> Listed(req, pdu, 0x0a))
  {
    hide Record, Records, Page;
    PairOnWire(req, 1);
    if forall i :: 0 <= i < |db| ==> !(q.start <= db[i].handle <= q.end) {
      NothingSelected(db, q, 0);
      PageOfNone(kind, db, limit);
    }
    SelectIndices(db, q, 0);
  }

  lemma PageOfNone(kind: Kind, db: Db, limit: nat)
    ensures Page(kind, db, [], limit) == 0
  {
  }

  /** A range that starts at zero or ends before it starts is an invalid handle;
      a 128-bit type, a group that is no service, or a range with no attribute finds
      nothing; any other answer is a list of the request's kind, which for handles
      and types says that the types are of 16 bits. */
  ghost predicate AnswersRange(ctx: Ctx, req: seq<byte>, pdu: seq<byte>)
    requires |req| >= 5
  {
    var start, end := Pair(req, 1), Pair(req, 3);
    && |pdu| > 0
    && (start == 0 || start > end ==> Listed(req, pdu, 0x01))
    && (0 < start <= end ==> Listed(req, pdu, 0x0a) || pdu[0] as nat == req[0] as nat + 1)
    && (0 < start <= end && NothingAsked(ctx, req) ==> Listed(req, pdu, 0x0a))
    && (pdu[0] == 0x05 ==> |pdu| > 1 && pdu[1] == 0x01)
  }

  ghost predicate NothingAsked(ctx: Ctx, req: seq<byte>)
    requires |req| >= 5
  {
    || (|req| == 21 && req[0] != 0x06)
    || (req[0] == 0x10 && req[5..] != [0x00, 0x28] && req[5..] != [0x01, 0x28])
    || forall i :: 0 <= i < |ctx.db| ==> !(Pair(req, 1) <= ctx.db[i].handle <= Pair(req, 3))
  }

  lemma InfosAnswer(ctx: Ctx, req: seq<byte>, outMax: byte)
    requires |req| == 5 && req[0] == 0x04
    ensures AnswersRange(ctx, req, FindInfo(ctx, req, outMax))
  {
    hide ListRsp, Wire;
    PairOnWire(req, 1);
    PairOnWire(req, 3);
    ListAnswer(Infos, req, ctx.db, Query(At16(req, 1), At16(req, 3), None, None), Min(outMax, ctx.mtu));
  }

  lemma ValuesAnswer(ctx: Ctx, req: seq<byte>, outMax: byte)
    requires |req| >= 7 && req[0] == 0x06
    ensures AnswersRange(ctx, req, FindByTypeValue(ctx, req, outMax))
  {
    hide ListRsp, Wire;
    PairOnWire(req, 1);
    PairOnWire(req, 3);
    ListAnswer(Values, req, ctx.db, Query(At16(req, 1), At16(req, 3), Some(At16(req, 5)), Some(req[7..])), Min(outMax, ctx.mtu));
  }

  lemma TypesAnswer(ctx: Ctx, req: seq<byte>, outMax: byte)
    requires (|req| == 7 || |req| == 21) && req[0] == 0x08
    ensures AnswersRange(ctx, req, ReadByType(ctx, req, outMax))
  {
    hide ListRsp, Wire;
    PairOnWire(req, 1);
    PairOnWire(req, 3);
    ListAnswer(Types, req, ctx.db, Query(At16(req, 1), At16(req, 3), Some(At16(req, 5)), None), Min(outMax, ctx.mtu));
  }

  lemma GroupsAnswer(ctx: Ctx, req: seq<byte>, outMax: byte)
    requires (|req| == 7 || |req| == 21) && req[0] == 0x10
    ensures AnswersRange(ctx, req, ReadByGroupType(ctx, req, outMax))
  {
    hide ListRsp, Wire;
    PairOnWire(req, 1);
    PairOnWire(req, 3);
    ListAnswer(Groups, req, ctx.db, Query(At16(req, 1), At16(req, 3), Some(At16(req, 5)), None), Min(outMax, ctx.mtu));
  }

  lemma RangeAnswer(ctx: Ctx, req: seq<byte>, outMax: byte)
    requires req != [] && req[0] in {0x04, 0x06, 0x08, 0x10} && WellFormed(req) && outMax >= 5
    ensures AnswersRange(ctx, req, Dispatch(ctx, req, outMax).pdu)
  {
    hide AnswersRange, FindInfo, FindByTypeValue, ReadByType, ReadByGroupType;
    if req[0] == 0x04 {
      InfosAnswer(ctx, req, outMax);
    } else if req[0] == 0x06 {
      ValuesAnswer(ctx, req, outMax);
    } else if req[0] == 0x08 {
      TypesAnswer(ctx, req, outMax);
    } else {
      GroupsAnswer(ctx, req, outMax);
    }
  }
}
