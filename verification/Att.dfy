/** The ATT server of src/ble/att.c over a static attribute database. */
module Att {

  type byte = n: nat | n < 0x100
  type uint16 = n: nat | n < 0x1_0000

  const OP_ERROR_RSP := 0x01
  const OP_EXCHANGE_MTU_REQ := 0x02
  const OP_EXCHANGE_MTU_RSP := 0x03
  const OP_FIND_INFO_REQ := 0x04
  const OP_FIND_INFO_RSP := 0x05
  const OP_FIND_BY_TYPE_REQ := 0x06
  const OP_FIND_BY_TYPE_RSP := 0x07
  const OP_READ_BY_TYPE_REQ := 0x08
  const OP_READ_BY_TYPE_RSP := 0x09
  const OP_READ_REQ := 0x0a
  const OP_READ_RSP := 0x0b
  const OP_READ_BLOB_REQ := 0x0c
  const OP_READ_BLOB_RSP := 0x0d
  const OP_READ_BY_GROUP_REQ := 0x10
  const OP_READ_BY_GROUP_RSP := 0x11
  const OP_WRITE_REQ := 0x12
  const OP_WRITE_RSP := 0x13
  const OP_WRITE_CMD := 0x52

  const ERR_INVALID_HANDLE := 0x01
  const ERR_WRITE_NOT_PERMITTED := 0x03
  const ERR_INVALID_PDU := 0x04
  const ERR_REQUEST_NOT_SUPPORTED := 0x06
  const ERR_INVALID_OFFSET := 0x07
  const ERR_ATTRIBUTE_NOT_FOUND := 0x0a
  const ERR_INSUFFICIENT_ENCRYPTION := 0x0f

  const PRIMARY_SERVICE := 0x2800
  const SECONDARY_SERVICE := 0x2801
  const FORMAT_UUID16 := 0x01
  const MAX_VALUE := 251

  datatype Option<+T> = None | Some(value: T)

  /** A value of at most 251 bytes, so that a record length fits its byte. */
  type Value = v: seq<byte> | |v| <= MAX_VALUE
  datatype Attr = Attr(handle: uint16, uuid: uint16, value: Value, writable: bool, encrypted: bool)

  /** `struct att_ctx`; `db_count` is a byte. */
  type Db = d: seq<Attr> | |d| < 0x100
  datatype Ctx = Ctx(db: Db, mtu: byte, encrypted: bool)

  function Low(n: uint16): byte { n % 256 }
  function High(n: uint16): byte { n / 256 }
  function Word(low: byte, high: byte): uint16 { low + 256 * high }
  function Wire(n: uint16): seq<byte> { [Low(n), High(n)] }

  function Min(a: nat, b: nat): nat {
    if a <= b then a else b
  }

  // ----- Searching the database -----------------------------------------------

  predicate IsService(a: Attr) {
    a.uuid == PRIMARY_SERVICE || a.uuid == SECONDARY_SERVICE
  }

  /** `group_end`: the last handle before the next service from index j on. */
  function GroupEnd(db: Db, j: nat): uint16
    requires 0 < j <= |db|
    decreases |db| - j
  {
    if j == |db| || IsService(db[j]) then db[j - 1].handle else GroupEnd(db, j + 1)
  }

  function Find(db: Db, handle: uint16, i: nat): Option<nat>
    decreases |db| - i
  {
    if i >= |db| then None else if db[i].handle == handle then Some(i) else Find(db, handle, i + 1)
  }

  /** What a range request asks for: a handle range and, where given, a type and a value. */
  datatype Query = Query(start: uint16, end: uint16, uuid: Option<uint16>, value: Option<seq<byte>>)

  predicate Matches(a: Attr, q: Query) {
    && (q.uuid.Some? ==> a.uuid == q.uuid.value)
    && q.start <= a.handle <= q.end
    && (q.value.Some? ==> a.value == q.value.value)
  }

  /** The indices from i on that match, in database order. */
  function Select(db: Db, q: Query, i: nat): seq<nat>
    decreases |db| - i
  {
    if i >= |db| then []
    else (if Matches(db[i], q) then [i] else []) + Select(db, q, i + 1)
  }

  // ----- The four list responses ------------------------------------------------

  datatype Kind = Groups | Types | Infos | Values

  function Record(kind: Kind, db: Db, i: nat): seq<byte>
    requires i < |db|
  {
    match kind
    case Groups => Wire(db[i].handle) + Wire(GroupEnd(db, i + 1)) + db[i].value
    case Types => Wire(db[i].handle) + db[i].value
    case Infos => Wire(db[i].handle) + Wire(db[i].uuid)
    case Values => Wire(db[i].handle) + Wire(if IsService(db[i]) then GroupEnd(db, i + 1) else db[i].handle)
  }

  /** The length of a record fits the length byte of a response. */
  lemma RecordLen(kind: Kind, db: Db, i: nat)
    requires i < |db|
    ensures 2 <= |Record(kind, db, i)| < 0x100
    ensures kind == Infos || kind == Values ==> |Record(kind, db, i)| == 4
  {
  }

  /** Bytes before the records. */
  function HeaderLen(kind: Kind): nat {
    if kind == Values then 1 else 2
  }

  predicate Indices(db: Db, idx: seq<nat>) {
    forall k :: 0 <= k < |idx| ==> idx[k] < |db|
  }

  /** How many of the indices a response takes: records of one length, as many
      in a row as fit the room that is left. */
  function Taken(kind: Kind, db: Db, idx: seq<nat>, recLen: nat, room: int): nat
    requires Indices(db, idx)
    decreases |idx|
  {
    if idx == [] || |Record(kind, db, idx[0])| != recLen || recLen > room then 0
    else 1 + Taken(kind, db, idx[1..], recLen, room - recLen)
  }

  function Page(kind: Kind, db: Db, idx: seq<nat>, limit: nat): (n: nat)
    requires Indices(db, idx)
    ensures n <= |idx|
  {
    if idx == [] then 0
    else
      TakenBound(kind, db, idx, |Record(kind, db, idx[0])|, limit - HeaderLen(kind));
      Taken(kind, db, idx, |Record(kind, db, idx[0])|, limit - HeaderLen(kind))
  }

  lemma {:induction false} TakenBound(kind: Kind, db: Db, idx: seq<nat>, recLen: nat, room: int)
    requires Indices(db, idx)
    ensures Taken(kind, db, idx, recLen, room) <= |idx|
    decreases |idx|
  {
    if idx != [] {
      TakenBound(kind, db, idx[1..], recLen, room - recLen);
    }
  }

  function Records(kind: Kind, db: Db, idx: seq<nat>): seq<byte>
    requires Indices(db, idx)
    decreases |idx|
  {
    if idx == [] then [] else Records(kind, db, idx[..|idx| - 1]) + Record(kind, db, idx[|idx| - 1])
  }

  function Header(kind: Kind, recLen: byte): seq<byte> {
    match kind
    case Groups => [OP_READ_BY_GROUP_RSP, recLen]
    case Types => [OP_READ_BY_TYPE_RSP, recLen]
    case Infos => [OP_FIND_INFO_RSP, FORMAT_UUID16]
    case Values => [OP_FIND_BY_TYPE_RSP]
  }

  function ErrorRsp(op: byte, handle: uint16, code: byte): seq<byte> {
    [OP_ERROR_RSP, op] + Wire(handle) + [code]
  }

  /** The response to a well-formed range request. */
  function ListRsp(kind: Kind, op: byte, db: Db, q: Query, limit: nat): seq<byte> {
    var idx := Select(db, q, 0);
    SelectIndices(db, q, 0);
    var n := Page(kind, db, idx, limit);
    if n == 0 then ErrorRsp(op, q.start, ERR_ATTRIBUTE_NOT_FOUND)
    else Header(kind, |Record(kind, db, idx[0])|) + Records(kind, db, idx[..n])
  }

  lemma {:induction false} SelectIndices(db: Db, q: Query, i: nat)
    ensures Indices(db, Select(db, q, i))
    decreases |db| - i
  {
    if i < |db| {
      SelectIndices(db, q, i + 1);
    }
  }

  // ----- Requests -----------------------------------------------------------------

  function At16(req: seq<byte>, i: nat): uint16
    requires i + 2 <= |req|
  {
    Word(req[i], req[i + 1])
  }

  /** The checks the three typed range requests share: their lengths, then the range. */
  function RangeError(req: seq<byte>): Option<seq<byte>>
    requires |req| >= 5
  {
    if At16(req, 1) == 0 || At16(req, 1) > At16(req, 3) then Some(ErrorRsp(req[0], At16(req, 1), ERR_INVALID_HANDLE)) else None
  }

  function ReadByGroupType(ctx: Ctx, req: seq<byte>, outMax: byte): seq<byte>
    requires |req| > 0
  {
    if |req| != 7 && |req| != 21 then ErrorRsp(req[0], 0, ERR_INVALID_PDU)
    else if RangeError(req).Some? then RangeError(req).value
    else if |req| != 7 || (At16(req, 5) != PRIMARY_SERVICE && At16(req, 5) != SECONDARY_SERVICE) then
      ErrorRsp(req[0], At16(req, 1), ERR_ATTRIBUTE_NOT_FOUND)
    else
      ListRsp(Groups, req[0], ctx.db, Query(At16(req, 1), At16(req, 3), Some(At16(req, 5)), None), Min(outMax, ctx.mtu))
  }

  function ReadByType(ctx: Ctx, req: seq<byte>, outMax: byte): seq<byte>
    requires |req| > 0
  {
    if |req| != 7 && |req| != 21 then ErrorRsp(req[0], 0, ERR_INVALID_PDU)
    else if RangeError(req).Some? then RangeError(req).value
    else if |req| != 7 then ErrorRsp(req[0], At16(req, 1), ERR_ATTRIBUTE_NOT_FOUND)
    else
      ListRsp(Types, req[0], ctx.db, Query(At16(req, 1), At16(req, 3), Some(At16(req, 5)), None), Min(outMax, ctx.mtu))
  }

  function FindInfo(ctx: Ctx, req: seq<byte>, outMax: byte): seq<byte>
    requires |req| > 0
  {
    if |req| != 5 then ErrorRsp(req[0], 0, ERR_INVALID_PDU)
    else if RangeError(req).Some? then RangeError(req).value
    else ListRsp(Infos, req[0], ctx.db, Query(At16(req, 1), At16(req, 3), None, None), Min(outMax, ctx.mtu))
  }

  function FindByTypeValue(ctx: Ctx, req: seq<byte>, outMax: byte): seq<byte>
    requires |req| > 0
  {
    if |req| < 7 then ErrorRsp(req[0], 0, ERR_INVALID_PDU)
    else if RangeError(req).Some? then RangeError(req).value
    else
      ListRsp(Values, req[0], ctx.db, Query(At16(req, 1), At16(req, 3), Some(At16(req, 5)), Some(req[7..])), Min(outMax, ctx.mtu))
  }

  /** Bytes of a value that one read response takes.  The bound is stored in a
      byte: an MTU of zero makes it 255. */
  function Cap(ctx: Ctx, outMax: byte): (cap: byte)
    requires outMax > 0
    ensures ctx.mtu > 0 ==> cap == Min(outMax, ctx.mtu) - 1
  {
    if ctx.mtu - 1 < outMax - 1 then (ctx.mtu + 255) % 256 else outMax - 1
  }

  predicate Locked(ctx: Ctx, a: Attr) {
    a.encrypted && !ctx.encrypted
  }

  function Read(ctx: Ctx, req: seq<byte>, outMax: byte): seq<byte>
    requires |req| > 0 && outMax > 0
  {
    if |req| != 3 then ErrorRsp(req[0], 0, ERR_INVALID_PDU)
    else
      var h := At16(req, 1);
      var f := Find(ctx.db, h, 0);
      if f.None? then ErrorRsp(req[0], h, ERR_INVALID_HANDLE)
      else
        FindFound(ctx.db, h, 0);
        var a := ctx.db[f.value];
        if Locked(ctx, a) then ErrorRsp(req[0], h, ERR_INSUFFICIENT_ENCRYPTION)
        else [OP_READ_RSP] + a.value[..Min(|a.value|, Cap(ctx, outMax))]
  }

  function ReadBlob(ctx: Ctx, req: seq<byte>, outMax: byte): seq<byte>
    requires |req| > 0 && outMax > 0
  {
    if |req| != 5 then ErrorRsp(req[0], 0, ERR_INVALID_PDU)
    else
      var h, offset := At16(req, 1), At16(req, 3);
      var f := Find(ctx.db, h, 0);
      if f.None? then ErrorRsp(req[0], h, ERR_INVALID_HANDLE)
      else
        FindFound(ctx.db, h, 0);
        var a := ctx.db[f.value];
        if Locked(ctx, a) then ErrorRsp(req[0], h, ERR_INSUFFICIENT_ENCRYPTION)
        else if offset > |a.value| then ErrorRsp(req[0], h, ERR_INVALID_OFFSET)
        else [OP_READ_BLOB_RSP] + a.value[offset..offset + Min(|a.value| - offset, Cap(ctx, outMax))]
  }

  lemma {:induction false} FindFound(db: Db, handle: uint16, i: nat)
    ensures var f := Find(db, handle, i);
      && (f.Some? ==> i <= f.value < |db| && db[f.value].handle == handle
                      && forall k :: i <= k < f.value ==> db[k].handle != handle)
      && (f.None? ==> forall k :: i <= k < |db| ==> db[k].handle != handle)
    decreases |db| - i
  {
    if i < |db| && db[i].handle != handle {
      FindFound(db, handle, i + 1);
    }
  }

  /** `do_write`: the error code, 0 when the write was done. */
  function WriteError(ctx: Ctx, handle: uint16, data: seq<byte>): byte {
    var f := Find(ctx.db, handle, 0);
    if f.None? then ERR_INVALID_HANDLE
    else
      FindFound(ctx.db, handle, 0);
      var a := ctx.db[f.value];
      if !a.writable then ERR_WRITE_NOT_PERMITTED
      else if Locked(ctx, a) then ERR_INSUFFICIENT_ENCRYPTION
      else if |data| > |a.value| then ERR_INVALID_PDU
      else 0
  }

  /** The database after a write: the data over the front of the value. */
  function Written(ctx: Ctx, handle: uint16, data: seq<byte>): Db {
    if WriteError(ctx, handle, data) != 0 then ctx.db
    else
      FindFound(ctx.db, handle, 0);
      var i := Find(ctx.db, handle, 0).value;
      ctx.db[i := ctx.db[i].(value := data + ctx.db[i].value[|data|..])]
  }

  datatype Reply = Reply(db: Db, pdu: seq<byte>)

  function Dispatch(ctx: Ctx, req: seq<byte>, outMax: byte): Reply
  {
    if |req| == 0 || outMax < 5 then Reply(ctx.db, [])
    else if req[0] == OP_EXCHANGE_MTU_REQ then
      Reply(ctx.db, if |req| != 3 then ErrorRsp(req[0], 0, ERR_INVALID_PDU) else [OP_EXCHANGE_MTU_RSP] + Wire(ctx.mtu))
    else if req[0] == OP_READ_BY_GROUP_REQ then Reply(ctx.db, ReadByGroupType(ctx, req, outMax))
    else if req[0] == OP_READ_BY_TYPE_REQ then Reply(ctx.db, ReadByType(ctx, req, outMax))
    else if req[0] == OP_FIND_INFO_REQ then Reply(ctx.db, FindInfo(ctx, req, outMax))
    else if req[0] == OP_FIND_BY_TYPE_REQ then Reply(ctx.db, FindByTypeValue(ctx, req, outMax))
    else if req[0] == OP_READ_REQ then Reply(ctx.db, Read(ctx, req, outMax))
    else if req[0] == OP_READ_BLOB_REQ then Reply(ctx.db, ReadBlob(ctx, req, outMax))
    else if req[0] == OP_WRITE_REQ then
      if |req| < 3 then Reply(ctx.db, ErrorRsp(req[0], 0, ERR_INVALID_PDU))
      else
        var h := At16(req, 1);
        var err := WriteError(ctx, h, req[3..]);
        Reply(Written(ctx, h, req[3..]), if err != 0 then ErrorRsp(req[0], h, err) else [OP_WRITE_RSP])
    else if req[0] == OP_WRITE_CMD then
      Reply(if |req| < 3 then ctx.db else Written(ctx, At16(req, 1), req[3..]), [])
    else Reply(ctx.db, ErrorRsp(req[0], 0, ERR_REQUEST_NOT_SUPPORTED))
  }
}
