/** HCI ACL and L2CAP framing (src/ble/l2cap.c). */
module L2cap {

  type byte = n: nat | n < 0x100
  type uint16 = n: nat | n < 0x1_0000

  const HEADERS := 8

  datatype Option<+T> = None | Some(value: T)
  /** `struct l2cap_pkt`; the payload is the `length` bytes behind the headers. */
  datatype Packet = Packet(handle: uint16, cid: uint16, length: uint16)

  function Wire(n: uint16): seq<byte> { [n % 256, n / 256] }
  function Word(low: byte, high: byte): uint16 { low + 256 * high }

  /** The bytes of a frame: connection handle with the first-packet flag, the two
      lengths and the channel; lengths are 16 bits wide. */
  function Frame(handle: uint16, cid: uint16, payload: seq<byte>): seq<byte>
    requires |payload| < 0x1_0000
  {
    Wire(handle % 0x1000 + 0x2000) + Wire((4 + |payload|) % 0x1_0000) + Wire(|payload|) + Wire(cid) + payload
  }

  /** The L2CAP length field. */
  function LengthField(data: seq<byte>): uint16
    requires |data| >= HEADERS
  {
    Word(data[4], data[5])
  }

  /** `l2cap_parse`: whether it takes the data.  The sum is 16 bits wide. */
  predicate Accepts(data: seq<byte>) {
    |data| >= HEADERS && |data| >= (HEADERS + LengthField(data)) % 0x1_0000
  }

  function Parse(data: seq<byte>): Option<Packet> {
    if Accepts(data) then Some(Packet(Word(data[0], data[1]) % 0x1000, Word(data[6], data[7]), LengthField(data))) else None
  }

  /** What is taken lies inside the data, if and only if the length field does
      not make the 16-bit sum wrap. */
  lemma AcceptedIsInsideIff(data: seq<byte>)
    requires |data| < 0x1_0000 && Accepts(data)
    ensures HEADERS + LengthField(data) <= |data| <==> LengthField(data) < 0x1_0000 - HEADERS
  {
  }

  /** Eight header bytes with a length field of 0xfff8 are taken for a frame. */
  lemma WrappedIsAccepted()
    ensures var data := [0x40, 0x20, 0x04, 0x00, 0xf8, 0xff, 0x04, 0x00];
      && Parse(data) == Some(Packet(0x40, 4, 0xfff8)) && |data| == HEADERS < HEADERS + LengthField(data)
  {
    AcceptedIsInsideIff([0x40, 0x20, 0x04, 0x00, 0xf8, 0xff, 0x04, 0x00]);
  }

  /** Framing is read back, whatever follows the frame. */
  lemma FrameRoundTrip(handle: uint16, cid: uint16, payload: seq<byte>, rest: seq<byte>)
    requires |payload| < 0x1_0000 - HEADERS
    ensures var data := Frame(handle, cid, payload) + rest;
      && Parse(data) == Some(Packet(handle % 0x1000, cid, |payload|))
      && data[HEADERS..HEADERS + |payload|] == payload
  {
    hide Wire, Word, Frame;
    FrameBytes(handle, cid, payload, rest);
    WireWord(handle % 0x1000 + 0x2000);
    WireWord(|payload|);
    WireWord(cid);
    FlagBits(handle);
  }

  lemma FlagBits(handle: uint16)
    ensures (handle % 0x1000 + 0x2000) % 0x1000 == handle % 0x1000
  {
  }

  lemma WireWord(n: uint16)
    ensures Word(Wire(n)[0], Wire(n)[1]) == n
  {
  }

  lemma FrameBytes(handle: uint16, cid: uint16, payload: seq<byte>, rest: seq<byte>)
    requires |payload| < 0x1_0000
    ensures var d := Frame(handle, cid, payload) + rest;
      && |d| >= HEADERS + |payload|
      && d[0] == Wire(handle % 0x1000 + 0x2000)[0] && d[1] == Wire(handle % 0x1000 + 0x2000)[1]
      && d[4] == Wire(|payload|)[0] && d[5] == Wire(|payload|)[1] && d[6] == Wire(cid)[0] && d[7] == Wire(cid)[1]
      && d[HEADERS..HEADERS + |payload|] == payload
  {
  }

  /** What the controller and the peer read in the eight header bytes (Core
      specification, Vol 4 Part E section 5.4.2 and Vol 3 Part A section 3.1): the
      connection handle, a first packet that is sent point to point, how many bytes
      are behind each of the two headers, and the channel. */
  lemma HeaderRead(handle: uint16, cid: uint16, payload: seq<byte>)
    requires |payload| < 0x1_0000 - 4
    ensures var f := Frame(handle, cid, payload);
      && |f| == 8 + |payload| && f[8..] == payload
      && f[0] as nat + 256 * (f[1] as nat % 16) == handle % 0x1000 && f[1] / 16 == 2
      && f[2] as nat + 256 * f[3] as nat == |f| - 4
      && f[4] as nat + 256 * f[5] as nat == |f| - 8
      && f[6] as nat + 256 * f[7] as nat == cid
  {
    hide Wire;
    var f := Frame(handle, cid, payload);
    WireRead(handle % 0x1000 + 0x2000);
    WireRead(4 + |payload|);
    WireRead(|payload|);
    WireRead(cid);
    FlagRead(handle, f[0], f[1]);
  }

  lemma WireRead(n: uint16)
    ensures |Wire(n)| == 2 && Wire(n)[0] as nat + 256 * Wire(n)[1] as nat == n
  {
  }

  lemma FlagRead(handle: uint16, low: byte, high: byte)
    requires low as nat + 256 * high as nat == handle % 0x1000 + 0x2000
    ensures low as nat + 256 * (high as nat % 16) == handle % 0x1000 && high / 16 == 2
  {
  }

  method PutWord(out: array<byte>, at: nat, n: uint16)
    requires at + 2 <= out.Length
    modifies out
    ensures out[at..at + 2] == Wire(n)
    ensures forall k :: 0 <= k < out.Length && k != at && k != at + 1 ==> out[k] == old(out[k])
  {
    out[at], out[at + 1] := n % 256, n / 256;
  }

  method PutHeaders(out: array<byte>, handle: uint16, cid: uint16, n: uint16)
    requires HEADERS <= out.Length
    modifies out
    ensures out[..HEADERS] == Wire(handle % 0x1000 + 0x2000) + Wire((4 + n) % 0x1_0000) + Wire(n) + Wire(cid)
    ensures forall k :: HEADERS <= k < out.Length ==> out[k] == old(out[k])
  {
    hide Wire;
    PutWord(out, 0, handle % 0x1000 + 0x2000);
    PutWord(out, 2, (4 + n) % 0x1_0000);
    PutWord(out, 4, n);
    PutWord(out, 6, cid);
    assert out[..HEADERS] == out[0..2] + out[2..4] + out[4..6] + out[6..8];
  }

  /** `l2cap_build`: the payload may already lie in its place in the frame. */
  method Build(out: array<byte>, handle: uint16, cid: uint16, src: array<byte>, from: nat, n: uint16) returns (total: nat)
    requires from + n <= src.Length && HEADERS + n <= out.Length
    requires src != out || from == HEADERS
    modifies out
    ensures total == HEADERS + n && out[..total] == Frame(handle, cid, old(src[from..from + n]))
    ensures out[total..] == old(out[total..])
  {
    hide Wire;
    ghost var payload := src[from..from + n];
    PutHeaders(out, handle, cid, n);
    ghost var head := out[..HEADERS];
    for i := 0 to n
      invariant forall k :: 0 <= k < HEADERS ==> out[k] == head[k]
      invariant forall k :: 0 <= k < i ==> out[HEADERS + k] == payload[k]
      invariant forall k :: i <= k < n ==> src[from + k] == payload[k]
      invariant forall k :: HEADERS + n <= k < out.Length ==> out[k] == old(out[k])
    {
      out[HEADERS + i] := src[from + i];
    }
    total := HEADERS + n;
    assert out[..HEADERS] == head && out[HEADERS..total] == payload;
    assert out[..total] == out[..HEADERS] + out[HEADERS..total];
  }
}
