/** Control IN data of the device stack on endpoint 0 (src/usb/usb_device.c). */
module Ep0 {

  type byte = n: nat | n < 0x100

  /** `ep0_size`. */
  const SIZE := 64

  function Min(a: nat, b: nat): nat {
    if a <= b then a else b
  }

  /** What the endpoint is armed with: a packet and its data toggle. */
  datatype Packet = Packet(data: seq<byte>, data1: bool)

  /** What is left to send is a prefix of what the pointer points at. */
  datatype Sender = Sender(armed: Packet, ptr: seq<byte>, len: byte)

  function Sent(len: byte, data: seq<byte>): Sender
    requires len <= |data|
  {
    var n := Min(len, SIZE);
    Sender(Packet(data[..n], true), data[n..], len - n)
  }

  function Continued(s: Sender): Sender
    requires s.len <= |s.ptr|
  {
    var n := Min(s.len, SIZE);
    Sender(Packet(s.ptr[..n], !s.armed.data1), s.ptr[n..], s.len - n)
  }

  /** Bytes a GET_DESCRIPTOR answers with. */
  function Wanted(descriptor: seq<byte>, wLength: nat): seq<byte> {
    descriptor[..Min(|descriptor|, wLength)]
  }

  /** The packets the host takes while it keeps asking, k of them. */
  function Packets(s: Sender, k: nat): seq<Packet>
    requires s.len <= |s.ptr|
    decreases k
  {
    if k == 0 then [] else [s.armed] + Packets(Continued(s), k - 1)
  }

  function Joined(ps: seq<Packet>): seq<byte> {
    if ps == [] then [] else ps[0].data + Joined(ps[1..])
  }

  /** A host that wants `rest` more bytes stops at a short packet, or when it has
      them all (USB 2.0 section 8.5.3.2); how many packets it takes. */
  function Taken(s: Sender, rest: nat): nat
    requires s.len <= |s.ptr|
    decreases rest
  {
    if |s.armed.data| < SIZE || rest <= SIZE then 1 else 1 + Taken(Continued(s), rest - SIZE)
  }

  /** What the pointer and the armed packet still hold. */
  function Remaining(s: Sender): seq<byte>
    requires s.len <= |s.ptr|
  {
    s.armed.data + s.ptr[..s.len]
  }

  /** The sender holds full packets until it holds the last bytes. */
  ghost predicate InStep(s: Sender) {
    s.len <= |s.ptr| && |s.armed.data| <= SIZE && (s.len > 0 ==> |s.armed.data| == SIZE)
  }

  /** What a run of packets of up to 64 bytes looks like to a host that wants `rest`
      bytes. */
  ghost predicate Transfers(ps: seq<Packet>, data: seq<byte>, rest: nat, data1: bool) {
    && ps != [] && Joined(ps) == data
    && (forall k :: 0 <= k < |ps| - 1 ==> |ps[k].data| == 64)
    && (forall k :: 0 <= k < |ps| ==> (ps[k].data1 <==> (k % 2 == 0) == data1))
    && |ps[|ps| - 1].data| <= 64 && (|data| < rest ==> |ps[|ps| - 1].data| < 64)
  }

  lemma LastPacket(p: Packet, rest: nat)
    requires |p.data| <= SIZE && (|p.data| < SIZE || |p.data| == rest)
    ensures Transfers([p], p.data, rest, p.data1)
  {
    assert Joined([p]) == p.data + Joined([]);
  }

  lemma FullPacket(p: Packet, ps: seq<Packet>, data: seq<byte>, rest: nat)
    requires |p.data| == SIZE < rest && Transfers(ps, data, rest - SIZE, !p.data1)
    ensures Transfers([p] + ps, p.data + data, rest, p.data1)
  {
    var all := [p] + ps;
    assert all[1..] == ps;
    forall k | 0 < k < |all| ensures all[k] == ps[k - 1] {
    }
  }

  lemma Cut(s: Sender)
    requires InStep(s)
    ensures InStep(Continued(s)) && s.ptr[..s.len] == Remaining(Continued(s))
  {
    var n := Min(s.len, SIZE);
    assert s.ptr[..s.len] == s.ptr[..n] + s.ptr[n..][..s.len - n];
  }

  lemma {:induction false} TransferOf(s: Sender, rest: nat)
    requires InStep(s) && |Remaining(s)| <= rest
    ensures Transfers(Packets(s, Taken(s, rest)), Remaining(s), rest, s.armed.data1)
    decreases rest
  {
    hide Transfers;
    if |s.armed.data| < SIZE || rest <= SIZE {
      LastPacket(s.armed, rest);
      assert Packets(s, 1) == [s.armed] && Remaining(s) == s.armed.data;
    } else {
      Cut(s);
      TransferOf(Continued(s), rest - SIZE);
      FullPacket(s.armed, Packets(Continued(s), Taken(Continued(s), rest - SIZE)), Remaining(Continued(s)), rest);
    }
  }

  /** A descriptor request gets the first min(size, wLength) bytes, in packets
      that are full up to the last, with toggles that alternate from DATA1; the
      last is short whenever the host could have taken more. */
  lemma DescriptorTransfer(descriptor: seq<byte>, wLength: nat)
    requires |descriptor| < 0x100
    ensures var s := Sent(Min(|descriptor|, wLength), descriptor);
      Transfers(Packets(s, Taken(s, wLength)), Wanted(descriptor, wLength), wLength, true)
  {
    var len := Min(|descriptor|, wLength);
    var s := Sent(len, descriptor);
    var n := Min(len, SIZE);
    assert descriptor[..len] == descriptor[..n] + descriptor[n..][..len - n];
    TransferOf(s, wLength);
  }

  // ----- The endpoint in place ------------------------------------------------------

  class Device {
    const buffer: array<byte>
    /** `UEP0_T_LEN` and the transmit toggle of `UEP0_CTRL`. */
    var tLen: byte
    var data1: bool
    /** `sending_data_ptr` and `sending_data_len`. */
    var ptr: seq<byte>
    var len: byte

    constructor ()
      ensures buffer.Length == SIZE && fresh(buffer) && len == 0 && tLen == 0
    {
      buffer := new byte[SIZE];
      tLen, data1, ptr, len := 0, false, [], 0;
    }

    ghost predicate Valid()
      reads this
    {
      buffer.Length == SIZE && tLen <= SIZE && len <= |ptr|
    }

    function Value(): Sender
      requires Valid()
      reads this, buffer
    {
      Sender(Packet(buffer[..tLen], data1), ptr, len)
    }

    method Fill(data: seq<byte>)
      requires |data| <= buffer.Length == SIZE
      modifies buffer
      ensures buffer[..|data|] == data
    {
      for i := 0 to |data|
        invariant forall k :: 0 <= k < i ==> buffer[k] == data[k]
      {
        buffer[i] := data[i];
      }
    }

    /** `ep0_send` with data. */
    method Send(n: byte, data: seq<byte>)
      requires Valid() && n <= |data|
      modifies this, buffer
      ensures Valid() && Value() == Sent(n, data)
    {
      var transfer := if n <= SIZE then n else SIZE;
      Fill(data[..transfer]);
      tLen, data1 := transfer, true;
      ptr, len := data[transfer..], n - transfer;
    }

    /** `ep0_cont`. */
    method Cont()
      requires Valid()
      modifies this, buffer
      ensures Valid() && Value() == Continued(old(Value()))
    {
      var transfer := if len <= SIZE then len else SIZE;
      Fill(ptr[..transfer]);
      tLen, data1 := transfer, !data1;
      ptr, len := ptr[transfer..], len - transfer;
    }

    /** `get_descriptor`; an unknown descriptor, of size 0, stops the device. */
    method GetDescriptor(descriptor: seq<byte>, wLength: nat) returns (halted: bool)
      requires Valid() && |descriptor| < 0x100
      modifies this, buffer
      ensures Valid() && (halted <==> descriptor == [])
      ensures Value() == if halted then old(Value()) else Sent(Min(|descriptor|, wLength), descriptor)
    {
      var size := |descriptor|;
      if size == 0 {
        return true;
      }
      if size > wLength {
        size := wLength;
      }
      Send(size, descriptor);
      halted := false;
    }
  }
}
