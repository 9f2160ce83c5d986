/** The loops of src/ble/att.c, working on the database and the output buffer in
    place, proved against the functions of module Att. */
module AttServer {
  import opened Att

  /** A page behind the first record is what is taken plus what the rest gives. */
  ghost predicate PageSoFar(kind: Kind, db: Db, idx: seq<nat>, m: nat, recLen: nat, limit: nat, pos: nat)
    requires Indices(db, idx)
  {
    && m <= |idx|
    && (m == 0 <==> recLen == 0)
    && (m == 0 ==> pos == HeaderLen(kind))
    && (m > 0 ==> recLen == |Record(kind, db, idx[0])|
                  && Page(kind, db, idx, limit) == m + Taken(kind, db, idx[m..], recLen, limit - pos))
  }

  /** Taking one more record. */
  lemma TakeOne(kind: Kind, db: Db, idx: seq<nat>, m: nat, recLen: nat, limit: nat, pos: nat)
    requires Indices(db, idx) && PageSoFar(kind, db, idx, m, recLen, limit, pos) && m < |idx|
    requires var len := |Record(kind, db, idx[m])|; pos + len <= limit && (m > 0 ==> len == recLen)
    ensures var len := |Record(kind, db, idx[m])|; PageSoFar(kind, db, idx, m + 1, len, limit, pos + len)
  {
    hide Record;
    RecordLen(kind, db, idx[m]);
    assert idx[m..][1..] == idx[m + 1..];
    assert idx[0..] == idx;
  }

  /** Stopping: the rest is empty, or its first record differs or does not fit. */
  lemma StopHere(kind: Kind, db: Db, idx: seq<nat>, m: nat, recLen: nat, limit: nat, pos: nat)
    requires Indices(db, idx) && PageSoFar(kind, db, idx, m, recLen, limit, pos)
    requires m < |idx| ==>
               var len := |Record(kind, db, idx[m])|; pos + len > limit || (m > 0 && len != recLen)
    ensures Page(kind, db, idx, limit) == m && (m > 0 ==> recLen == |Record(kind, db, idx[0])|)
  {
    hide Record;
  }

  lemma NoRecords(kind: Kind, db: Db, idx: seq<nat>, limit: nat)
    requires Indices(db, idx)
    ensures Records(kind, db, idx[..0]) == [] && idx[0..] == idx
    ensures PageSoFar(kind, db, idx, 0, 0, limit, HeaderLen(kind))
  {
  }

  /** The next attribute is the next selected one, or none. */
  lemma SelectNext(db: Db, q: Query, i: nat, idx: seq<nat>, m: nat)
    requires i < |db| && m <= |idx| && idx[m..] == Select(db, q, i)
    ensures Matches(db[i], q) ==> m < |idx| && idx[m] == i && idx[m + 1..] == Select(db, q, i + 1)
    ensures !Matches(db[i], q) ==> idx[m..] == Select(db, q, i + 1)
  {
    hide Matches;
    if Matches(db[i], q) {
      assert idx[m..][0] == i && idx[m..][1..] == Select(db, q, i + 1);
    }
  }

  lemma SelectEnd(db: Db, q: Query)
    ensures Select(db, q, |db|) == []
  {
  }

  lemma RecordsStep(kind: Kind, db: Db, idx: seq<nat>, m: nat)
    requires Indices(db, idx) && m < |idx|
    ensures Records(kind, db, idx[..m + 1]) == Records(kind, db, idx[..m]) + Record(kind, db, idx[m])
  {
    hide Record;
    assert idx[..m + 1][..m] == idx[..m];
  }

  /** Stores bytes behind the first `at`. */
  method Copy(out: array<byte>, at: nat, bytes: seq<byte>)
    requires at + |bytes| <= out.Length
    modifies out
    ensures out[..at + |bytes|] == old(out[..at]) + bytes
  {
    for k := 0 to |bytes|
      invariant forall j :: 0 <= j < at + k ==> out[j] == if j < at then old(out[j]) else bytes[j - at]
    {
      out[at + k] := bytes[k];
    }
  }

  method PutWord(out: array<byte>, at: nat, word: uint16)
    requires at + 2 <= out.Length
    modifies out
    ensures out[..at + 2] == old(out[..at]) + Wire(word)
  {
    out[at], out[at + 1] := Low(word), High(word);
  }

  lemma Append3(a: seq<byte>, b: seq<byte>, c: seq<byte>, d: seq<byte>)
    ensures a + b + c + d == a + (b + c + d) && a + b + c == a + (b + c)
  {
  }

  method SameBytes(a: seq<byte>, b: seq<byte>) returns (same: bool)
    requires |a| == |b|
    ensures same <==> a == b
  {
    for k := 0 to |b|
      invariant forall j :: 0 <= j < k ==> a[j] == b[j]
    {
      if a[k] != b[k] {
        return false;
      }
    }
    same := true;
  }

  method PutError(out: array<byte>, op: byte, handle: uint16, code: byte) returns (n: nat)
    requires out.Length >= 5
    modifies out
    ensures n == 5 && out[..n] == ErrorRsp(op, handle, code)
  {
    out[0], out[1], out[2], out[3], out[4] := OP_ERROR_RSP, op, Low(handle), High(handle), code;
    n := 5;
  }

  class Server {
    var db: Db
    const mtu: byte
    var encrypted: bool

    constructor (db: Db, mtu: byte)
      ensures this.db == db && this.mtu == mtu && !encrypted
    {
      this.db, this.mtu, this.encrypted := db, mtu, false;
    }

    function Context(): Ctx
      reads this
    {
      Ctx(db, mtu, encrypted)
    }

    method FindAttr(handle: uint16) returns (f: Option<nat>)
      ensures f == Find(db, handle, 0)
    {
      var i := 0;
      while i < |db|
        invariant i <= |db| && Find(db, handle, 0) == Find(db, handle, i)
      {
        if db[i].handle == handle {
          return Some(i);
        }
        i := i + 1;
      }
      f := None;
    }

    method LastOfGroup(start: nat) returns (handle: uint16)
      requires start < |db|
      ensures handle == GroupEnd(db, start + 1)
    {
      var i := start + 1;
      while i < |db|
        invariant start < i <= |db| && GroupEnd(db, start + 1) == GroupEnd(db, i)
      {
        if IsService(db[i]) {
          return db[i - 1].handle;
        }
        i := i + 1;
      }
      handle := db[|db| - 1].handle;
    }

    /** The length the record of attribute i will have. */
    function LengthOf(kind: Kind, i: nat): nat
      requires i < |db|
      reads this
    {
      match kind
      case Groups => 4 + |db[i].value|
      case Types => 2 + |db[i].value|
      case Infos => 4
      case Values => 4
    }

    method PutRecord(kind: Kind, out: array<byte>, at: nat, i: nat)
      requires i < |db| && at + LengthOf(kind, i) <= out.Length
      modifies out
      ensures out[..at + LengthOf(kind, i)] == old(out[..at]) + Record(kind, db, i)
    {
      hide GroupEnd, Wire;
      ghost var before := out[..at];
      PutWord(out, at, db[i].handle);
      match kind {
        case Groups =>
          var end := LastOfGroup(i);
          PutWord(out, at + 2, end);
          Copy(out, at + 4, db[i].value);
          Append3(before, Wire(db[i].handle), Wire(end), db[i].value);
        case Types =>
          Copy(out, at + 2, db[i].value);
          Append3(before, Wire(db[i].handle), db[i].value, []);
        case Infos =>
          PutWord(out, at + 2, db[i].uuid);
          Append3(before, Wire(db[i].handle), Wire(db[i].uuid), []);
        case Values =>
          var end := db[i].handle;
          if IsService(db[i]) {
            end := LastOfGroup(i);
          }
          PutWord(out, at + 2, end);
          Append3(before, Wire(db[i].handle), Wire(end), []);
      }
    }

    method Selects(q: Query, i: nat) returns (yes: bool)
      requires i < |db|
      ensures yes <==> Matches(db[i], q)
    {
      if q.uuid.Some? && db[i].uuid != q.uuid.value {
        return false;
      }
      if db[i].handle < q.start || db[i].handle > q.end {
        return false;
      }
      if q.value.Some? {
        if |db[i].value| != |q.value.value| {
          return false;
        }
        yes := SameBytes(db[i].value, q.value.value);
      } else {
        yes := true;
      }
    }

    method PutHeader(kind: Kind, out: array<byte>, recLen: byte)
      requires out.Length >= HeaderLen(kind)
      modifies out
      ensures out[..HeaderLen(kind)] == Header(kind, recLen)
      ensures forall k :: HeaderLen(kind) <= k < out.Length ==> out[k] == old(out[k])
    {
      match kind
      case Groups => out[0], out[1] := OP_READ_BY_GROUP_RSP, recLen;
      case Types => out[0], out[1] := OP_READ_BY_TYPE_RSP, recLen;
      case Infos => out[0], out[1] := OP_FIND_INFO_RSP, FORMAT_UUID16;
      case Values => out[0] := OP_FIND_BY_TYPE_RSP;
    }

    /** The record loop of the four list responses. */
    method PutRecords(kind: Kind, q: Query, out: array<byte>, outMax: byte) returns (pos: nat, recLen: nat, ghost m: nat)
      requires out.Length >= outMax >= 5
      modifies out
      ensures Indices(db, Select(db, q, 0))
      ensures m == Page(kind, db, Select(db, q, 0), Min(outMax, mtu))
      ensures m == 0 <==> pos == HeaderLen(kind)
      ensures HeaderLen(kind) <= pos <= out.Length
      ensures m > 0 ==> recLen == |Record(kind, db, Select(db, q, 0)[0])|
      ensures out[..pos] == old(out[..HeaderLen(kind)]) + Records(kind, db, Select(db, q, 0)[..m])
    {
      hide Record, Records, Matches, Header, Page, Taken, LengthOf, PageSoFar, Select;
      ghost var limit := Min(outMax, mtu);
      ghost var idx := Select(db, q, 0);
      SelectIndices(db, q, 0);
      pos, recLen, m := HeaderLen(kind), 0, 0;
      NoRecords(kind, db, idx, limit);
      ghost var head := out[..pos];
      var i := 0;
      while i < |db|
        invariant i <= |db| && HeaderLen(kind) <= pos <= out.Length
        invariant m <= |idx| && idx[m..] == Select(db, q, i)
        invariant PageSoFar(kind, db, idx, m, recLen, limit, pos)
        invariant (m == 0 <==> pos == HeaderLen(kind)) && (m == 0 <==> recLen == 0)
        invariant out[..pos] == head + Records(kind, db, idx[..m])
      {
        var selected := Selects(q, i);
        SelectNext(db, q, i, idx, m);
        if selected {
          var len := LengthOf(kind, i);
          LengthIs(kind, i);
          if (recLen != 0 && len != recLen) || pos + len > outMax || pos + len > mtu {
            StopHere(kind, db, idx, m, recLen, limit, pos);
            return;
          }
          TakeOne(kind, db, idx, m, recLen, limit, pos);
          RecordsStep(kind, db, idx, m);
          PutRecord(kind, out, pos, i);
          assert head + Records(kind, db, idx[..m]) + Record(kind, db, i) == head + Records(kind, db, idx[..m + 1]);
          pos, recLen, m := pos + len, len, m + 1;
        }
        i := i + 1;
      }
      SelectEnd(db, q);
      StopHere(kind, db, idx, m, recLen, limit, pos);
    }

    lemma LengthIs(kind: Kind, i: nat)
      requires i < |db|
      ensures LengthOf(kind, i) == |Record(kind, db, i)| && 2 <= LengthOf(kind, i) < 0x100
    {
    }

    method PutList(kind: Kind, op: byte, q: Query, out: array<byte>, outMax: byte) returns (n: nat)
      requires out.Length >= outMax >= 5
      modifies out
      ensures n <= out.Length && out[..n] == ListRsp(kind, op, db, q, Min(outMax, mtu))
    {
      hide Record, Records, Page, Select;
      var pos, recLen, m := PutRecords(kind, q, out, outMax);
      if pos == HeaderLen(kind) {
        n := PutError(out, op, q.start, ERR_ATTRIBUTE_NOT_FOUND);
      } else {
        ghost var idx := Select(db, q, 0);
        assert m > 0 && idx != [];
        RecordLen(kind, db, idx[0]);
        ghost var before := out[..pos];
        assert before[HeaderLen(kind)..] == Records(kind, db, idx[..m]);
        PutHeader(kind, out, recLen);
        assert out[..pos] == out[..HeaderLen(kind)] + before[HeaderLen(kind)..];
        n := pos;
      }
    }

    /** The checks of `start` and `end`; n is 0 when they pass. */
    method CheckRange(req: seq<byte>, out: array<byte>) returns (n: nat)
      requires |req| >= 5 && out.Length >= 5
      modifies out
      ensures RangeError(req).Some? <==> n != 0
      ensures n <= out.Length && (n != 0 ==> out[..n] == RangeError(req).value)
    {
      n := 0;
      if At16(req, 1) == 0 || At16(req, 1) > At16(req, 3) {
        n := PutError(out, req[0], At16(req, 1), ERR_INVALID_HANDLE);
      }
    }

    method HandleReadByGroupType(req: seq<byte>, out: array<byte>, outMax: byte) returns (n: nat)
      requires |req| > 0 && out.Length >= outMax >= 5
      modifies out
      ensures n <= out.Length && out[..n] == ReadByGroupType(Context(), req, outMax)
    {
      hide ErrorRsp, ListRsp, At16, RangeError;
      if |req| != 7 && |req| != 21 {
        n := PutError(out, req[0], 0, ERR_INVALID_PDU);
        return;
      }
      n := CheckRange(req, out);
      if n != 0 {
        return;
      }
      var start, end := At16(req, 1), At16(req, 3);
      if |req| != 7 {
        n := PutError(out, req[0], start, ERR_ATTRIBUTE_NOT_FOUND);
        return;
      }
      var group := At16(req, 5);
      if group != PRIMARY_SERVICE && group != SECONDARY_SERVICE {
        n := PutError(out, req[0], start, ERR_ATTRIBUTE_NOT_FOUND);
        return;
      }
      n := PutList(Groups, req[0], Query(start, end, Some(group), None), out, outMax);
    }

    method HandleReadByType(req: seq<byte>, out: array<byte>, outMax: byte) returns (n: nat)
      requires |req| > 0 && out.Length >= outMax >= 5
      modifies out
      ensures n <= out.Length && out[..n] == ReadByType(Context(), req, outMax)
    {
      hide ErrorRsp, ListRsp, At16, RangeError;
      if |req| != 7 && |req| != 21 {
        n := PutError(out, req[0], 0, ERR_INVALID_PDU);
        return;
      }
      n := CheckRange(req, out);
      if n != 0 {
        return;
      }
      var start, end := At16(req, 1), At16(req, 3);
      if |req| != 7 {
        n := PutError(out, req[0], start, ERR_ATTRIBUTE_NOT_FOUND);
        return;
      }
      n := PutList(Types, req[0], Query(start, end, Some(At16(req, 5)), None), out, outMax);
    }

    method HandleFindInfo(req: seq<byte>, out: array<byte>, outMax: byte) returns (n: nat)
      requires |req| > 0 && out.Length >= outMax >= 5
      modifies out
      ensures n <= out.Length && out[..n] == FindInfo(Context(), req, outMax)
    {
      hide ErrorRsp, ListRsp, At16, RangeError;
      if |req| != 5 {
        n := PutError(out, req[0], 0, ERR_INVALID_PDU);
        return;
      }
      n := CheckRange(req, out);
      if n != 0 {
        return;
      }
      n := PutList(Infos, req[0], Query(At16(req, 1), At16(req, 3), None, None), out, outMax);
    }

    method HandleFindByTypeValue(req: seq<byte>, out: array<byte>, outMax: byte) returns (n: nat)
      requires |req| > 0 && out.Length >= outMax >= 5
      modifies out
      ensures n <= out.Length && out[..n] == FindByTypeValue(Context(), req, outMax)
    {
      hide ErrorRsp, ListRsp, At16, RangeError;
      if |req| < 7 {
        n := PutError(out, req[0], 0, ERR_INVALID_PDU);
        return;
      }
      n := CheckRange(req, out);
      if n != 0 {
        return;
      }
      n := PutList(Values, req[0], Query(At16(req, 1), At16(req, 3), Some(At16(req, 5)), Some(req[7..])), out, outMax);
    }

    /** Puts the part of a value that fits behind the opcode. */
    method PutValue(op: byte, value: seq<byte>, out: array<byte>, outMax: byte) returns (n: nat)
      requires outMax >= 5 && out.Length >= 1 + Min(|value|, Cap(Context(), outMax))
      modifies out
      ensures n <= out.Length && out[..n] == [op] + value[..Min(|value|, Cap(Context(), outMax))]
    {
      out[0] := op;
      var cap: byte := outMax - 1;
      if mtu - 1 < cap {
        cap := (mtu + 255) % 256;
      }
      var len := if |value| < cap then |value| else cap;
      Copy(out, 1, value[..len]);
      n := 1 + len;
    }

    method HandleRead(req: seq<byte>, out: array<byte>, outMax: byte) returns (n: nat)
      requires |req| > 0 && outMax >= 5 && out.Length >= |Read(Context(), req, outMax)| && out.Length >= 5
      modifies out
      ensures n <= out.Length && out[..n] == Read(Context(), req, outMax)
    {
      hide ErrorRsp, At16, Find;
      if |req| != 3 {
        n := PutError(out, req[0], 0, ERR_INVALID_PDU);
        return;
      }
      var h := At16(req, 1);
      var f := FindAttr(h);
      if f.None? {
        n := PutError(out, req[0], h, ERR_INVALID_HANDLE);
        return;
      }
      FindFound(db, h, 0);
      if db[f.value].encrypted && !encrypted {
        n := PutError(out, req[0], h, ERR_INSUFFICIENT_ENCRYPTION);
        return;
      }
      n := PutValue(OP_READ_RSP, db[f.value].value, out, outMax);
    }

    method HandleReadBlob(req: seq<byte>, out: array<byte>, outMax: byte) returns (n: nat)
      requires |req| > 0 && outMax >= 5 && out.Length >= |ReadBlob(Context(), req, outMax)| && out.Length >= 5
      modifies out
      ensures n <= out.Length && out[..n] == ReadBlob(Context(), req, outMax)
    {
      hide ErrorRsp, At16, Find;
      if |req| != 5 {
        n := PutError(out, req[0], 0, ERR_INVALID_PDU);
        return;
      }
      var h, offset := At16(req, 1), At16(req, 3);
      var f := FindAttr(h);
      if f.None? {
        n := PutError(out, req[0], h, ERR_INVALID_HANDLE);
        return;
      }
      FindFound(db, h, 0);
      if db[f.value].encrypted && !encrypted {
        n := PutError(out, req[0], h, ERR_INSUFFICIENT_ENCRYPTION);
        return;
      }
      var value := db[f.value].value;
      if offset > |value| {
        n := PutError(out, req[0], h, ERR_INVALID_OFFSET);
        return;
      }
      n := PutValue(OP_READ_BLOB_RSP, value[offset..], out, outMax);
      assert value[offset..][..n - 1] == value[offset..offset + n - 1];
    }

    method Store(i: nat, data: seq<byte>)
      requires i < |db| && |data| <= |db[i].value|
      modifies this`db
      ensures db == old(db)[i := old(db)[i].(value := data + old(db)[i].value[|data|..])]
    {
      ghost var a := db[i];
      assert data[..0] + a.value[0..] == a.value;
      for k := 0 to |data|
        invariant |db| == |old(db)| && |data[..k] + a.value[k..]| == |a.value|
        invariant db == old(db)[i := a.(value := data[..k] + a.value[k..])]
      {
        var value := db[i].value[k := data[k]];
        assert value == data[..k + 1] + a.value[k + 1..];
        db := db[i := db[i].(value := value)];
      }
      assert data[..|data|] == data;
    }

    /** `do_write`: checks, then stores byte by byte over the front of the value. */
    method DoWrite(handle: uint16, data: seq<byte>) returns (err: byte)
      modifies this`db
      ensures err == WriteError(old(Context()), handle, data)
      ensures db == Written(old(Context()), handle, data)
    {
      hide Find;
      var f := FindAttr(handle);
      if f.None? {
        return ERR_INVALID_HANDLE;
      }
      var i := f.value;
      FindFound(db, handle, 0);
      var a := db[i];
      if !a.writable {
        return ERR_WRITE_NOT_PERMITTED;
      }
      if a.encrypted && !encrypted {
        return ERR_INSUFFICIENT_ENCRYPTION;
      }
      if |data| > |a.value| {
        return ERR_INVALID_PDU;
      }
      Store(i, data);
      err := 0;
    }

    /** `att_dispatch`: the reply in the buffer and the database after it.  With an
        MTU of zero a value may need more room than `outMax`. */
    method Serve(req: seq<byte>, out: array<byte>, outMax: byte) returns (n: nat)
      requires out.Length >= outMax && out.Length >= |Dispatch(Context(), req, outMax).pdu|
      modifies out, this`db
      ensures n <= out.Length && out[..n] == Dispatch(old(Context()), req, outMax).pdu
      ensures db == Dispatch(old(Context()), req, outMax).db
    {
      hide ReadByGroupType, ReadByType, FindInfo, FindByTypeValue, Read, ReadBlob, WriteError, Written;
      n := 0;
      if |req| == 0 || outMax < 5 {
        return;
      }
      var op := req[0];
      if op == OP_EXCHANGE_MTU_REQ {
        if |req| != 3 {
          n := PutError(out, op, 0, ERR_INVALID_PDU);
        } else {
          out[0], out[1], out[2] := OP_EXCHANGE_MTU_RSP, Low(mtu), High(mtu);
          n := 3;
        }
      } else if op == OP_READ_BY_GROUP_REQ {
        n := HandleReadByGroupType(req, out, outMax);
      } else if op == OP_READ_BY_TYPE_REQ {
        n := HandleReadByType(req, out, outMax);
      } else if op == OP_FIND_INFO_REQ {
        n := HandleFindInfo(req, out, outMax);
      } else if op == OP_FIND_BY_TYPE_REQ {
        n := HandleFindByTypeValue(req, out, outMax);
      } else if op == OP_READ_REQ {
        n := HandleRead(req, out, outMax);
      } else if op == OP_READ_BLOB_REQ {
        n := HandleReadBlob(req, out, outMax);
      } else if op == OP_WRITE_REQ {
        if |req| < 3 {
          n := PutError(out, op, 0, ERR_INVALID_PDU);
        } else {
          var err := DoWrite(At16(req, 1), req[3..]);
          if err != 0 {
            n := PutError(out, op, At16(req, 1), err);
          } else {
            out[0], n := OP_WRITE_RSP, 1;
          }
        }
      } else if op == OP_WRITE_CMD {
        if |req| >= 3 {
          var _ := DoWrite(At16(req, 1), req[3..]);
        }
      } else {
        n := PutError(out, op, 0, ERR_REQUEST_NOT_SUPPORTED);
      }
    }
  }
}
