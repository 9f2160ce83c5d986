/** The report cipher of src/usb/hid/hid_guncon3.c. */
module Guncon3 {

  const LAST := 12
  const REPORT := 15

  function Key(i: nat): bv8 {
    if i == 0 then 0x01 else if i == 1 then 0x12 else if i == 2 then 0x6f else if i == 3 then 0x32
    else if i == 4 then 0x24 else if i == 5 then 0x60 else if i == 6 then 0x17 else 0x21
  }

  /** `table[b]`, as the decision tree on the bits of b, entries in table order. */
  function Entry(b: bv8): bv8 {
    var b7, b6, b5, b4 := b & 0x80 == 0, b & 0x40 == 0, b & 0x20 == 0, b & 0x10 == 0;
    var b3, b2, b1, b0 := b & 0x08 == 0, b & 0x04 == 0, b & 0x02 == 0, b & 0x01 == 0;
    if b7 then
      if b6 then
        if b5 then
          if b4 then
            if b3 then
              if b2 then
                if b1 then if b0 then 0x75 else 0xc3 else if b0 then 0x10 else 0x31
              else
                if b1 then if b0 then 0xb5 else 0xd3 else if b0 then 0x69 else 0x84
            else
              if b2 then
                if b1 then if b0 then 0x89 else 0xba else if b0 then 0xd6 else 0x89
              else
                if b1 then if b0 then 0xbd else 0x70 else if b0 then 0x19 else 0x8e
          else
            if b3 then
              if b2 then
                if b1 then if b0 then 0x58 else 0xa8 else if b0 then 0x3d else 0x9b
              else
                if b1 then if b0 then 0x5d else 0xf0 else if b0 then 0x49 else 0xe8
            else
              if b2 then
                if b1 then if b0 then 0xad else 0x9d else if b0 then 0x7a else 0x0d
              else
                if b1 then if b0 then 0x7e else 0x24 else if b0 then 0xda else 0xfc
        else
          if b4 then
            if b3 then
              if b2 then
                if b1 then if b0 then 0x0d else 0x14 else if b0 then 0xc5 else 0x23
              else
                if b1 then if b0 then 0x91 else 0x11 else if b0 then 0xf5 else 0xc0
            else
              if b2 then
                if b1 then if b0 then 0x4b else 0xcd else if b0 then 0x44 else 0x1c
              else
                if b1 then if b0 then 0xc5 else 0x21 else if b0 then 0xdf else 0x61
          else
            if b3 then
              if b2 then
                if b1 then if b0 then 0x54 else 0xed else if b0 then 0xa2 else 0x81
              else
                if b1 then if b0 then 0xb7 else 0xe5 else if b0 then 0x74 else 0x94
            else
              if b2 then
                if b1 then if b0 then 0xb0 else 0x47 else if b0 then 0xee else 0xf1
              else
                if b1 then if b0 then 0xa5 else 0xbb else if b0 then 0x21 else 0xc8
      else
        if b5 then
          if b4 then
            if b3 then
              if b2 then
                if b1 then if b0 then 0x91 else 0xfd else if b0 then 0x4c else 0x8b
              else
                if b1 then if b0 then 0x20 else 0xc1 else if b0 then 0x7c else 0x09
            else
              if b2 then
                if b1 then if b0 then 0x58 else 0x14 else if b0 then 0xf6 else 0x00
              else
                if b1 then if b0 then 0x52 else 0x55 else if b0 then 0xbf else 0x41
          else
            if b3 then
              if b2 then
                if b1 then if b0 then 0x75 else 0xc0 else if b0 then 0x13 else 0x30
              else
                if b1 then if b0 then 0xb5 else 0xd0 else if b0 then 0x69 else 0x85
            else
              if b2 then
                if b1 then if b0 then 0x89 else 0xbb else if b0 then 0xd6 else 0x88
              else
                if b1 then if b0 then 0xbc else 0x73 else if b0 then 0x18 else 0x8d
        else
          if b4 then
            if b3 then
              if b2 then
                if b1 then if b0 then 0x58 else 0xab else if b0 then 0x3d else 0x98
              else
                if b1 then if b0 then 0x5c else 0xf2 else if b0 then 0x48 else 0xe9
            else
              if b2 then
                if b1 then if b0 then 0xac else 0x9f else if b0 then 0x7a else 0x0c
              else
                if b1 then if b0 then 0x7c else 0x25 else if b0 then 0xd8 else 0xff
          else
            if b3 then
              if b2 then
                if b1 then if b0 then 0xdc else 0x7d else if b0 then 0x08 else 0xdb
              else
                if b1 then if b0 then 0xbc else 0x18 else if b0 then 0x8c else 0x1d
            else
              if b2 then
                if b1 then if b0 then 0xd6 else 0x3c else if b0 then 0x35 else 0xe1
              else
                if b1 then if b0 then 0x2c else 0x14 else if b0 then 0x8e else 0x64
    else
      if b6 then
        if b5 then
          if b4 then
            if b3 then
              if b2 then
                if b1 then if b0 then 0x83 else 0x39 else if b0 then 0xb0 else 0xe4
              else
                if b1 then if b0 then 0x4e else 0xf7 else if b0 then 0x51 else 0x7b
            else
              if b2 then
                if b1 then if b0 then 0xa8 else 0x13 else if b0 then 0xac else 0xe9
              else
                if b1 then if b0 then 0x43 else 0xc0 else if b0 then 0x08 else 0x25
          else
            if b3 then
              if b2 then
                if b1 then if b0 then 0x0e else 0x15 else if b0 then 0xc4 else 0x20
              else
                if b1 then if b0 then 0x93 else 0x13 else if b0 then 0xf5 else 0xc3
            else
              if b2 then
                if b1 then if b0 then 0x48 else 0xcc else if b0 then 0x47 else 0x1c
              else
                if b1 then if b0 then 0xc5 else 0x20 else if b0 then 0xde else 0x60
        else
          if b4 then
            if b3 then
              if b2 then
                if b1 then if b0 then 0x55 else 0xee else if b0 then 0xa0 else 0x40
              else
                if b1 then if b0 then 0xb4 else 0xe7 else if b0 then 0x74 else 0x95
            else
              if b2 then
                if b1 then if b0 then 0xb0 else 0x46 else if b0 then 0xec else 0xf0
              else
                if b1 then if b0 then 0xa5 else 0xb8 else if b0 then 0x23 else 0xc8
          else
            if b3 then
              if b2 then
                if b1 then if b0 then 0x04 else 0x06 else if b0 then 0xfc else 0x28
              else
                if b1 then if b0 then 0xcb else 0xf8 else if b0 then 0x17 else 0x2c
            else
              if b2 then
                if b1 then if b0 then 0x25 else 0x1c else if b0 then 0xcb else 0x18
              else
                if b1 then if b0 then 0xe3 else 0x6c else if b0 then 0x80 else 0x85
      else
        if b5 then
          if b4 then
            if b3 then
              if b2 then
                if b1 then if b0 then 0xdd else 0x7e else if b0 then 0x09 else 0xd9
              else
                if b1 then if b0 then 0xbc else 0x19 else if b0 then 0x8f else 0x1d
            else
              if b2 then
                if b1 then if b0 then 0xd4 else 0x3d else if b0 then 0x37 else 0xe1
              else
                if b1 then if b0 then 0x2f else 0x15 else if b0 then 0x8d else 0x64
          else
            if b3 then
              if b2 then
                if b1 then if b0 then 0x06 else 0x04 else if b0 then 0xfd else 0x29
              else
                if b1 then if b0 then 0xcf else 0xfa else if b0 then 0x14 else 0x2e
            else
              if b2 then
                if b1 then if b0 then 0x25 else 0x1f else if b0 then 0xc9 else 0x18
              else
                if b1 then if b0 then 0xe3 else 0x6d else if b0 then 0x81 else 0x84
        else
          if b4 then
            if b3 then
              if b2 then
                if b1 then if b0 then 0x80 else 0x3b else if b0 then 0xb1 else 0xe5
              else
                if b1 then if b0 then 0x4d else 0xf7 else if b0 then 0x51 else 0x78
            else
              if b2 then
                if b1 then if b0 then 0xa9 else 0x13 else if b0 then 0xad else 0xe9
              else
                if b1 then if b0 then 0x80 else 0xc1 else if b0 then 0x0b else 0x25
          else
            if b3 then
              if b2 then
                if b1 then if b0 then 0x93 else 0xfc else if b0 then 0x4d else 0x89
              else
                if b1 then if b0 then 0x23 else 0xc2 else if b0 then 0x7c else 0x0b
            else
              if b2 then
                if b1 then if b0 then 0x59 else 0x15 else if b0 then 0xf6 else 0x01
              else
                if b1 then if b0 then 0x50 else 0x55 else if b0 then 0xbf else 0x81
  }

  /** The offset before the first round: the key and byte 14 of the report. */
  function Offset0(last: bv8): bv8 {
    (((((((Key(1) ^ Key(2)) - Key(3)) - Key(4)) ^ Key(5)) + Key(6)) - Key(7)) ^ last) + 0x26
  }

  function Before(offset: bv8): bv8 {
    offset - 1
  }

  /** The byte of the table that an offset selects. */
  function Pad(offset: bv8): bv8 {
    Entry(offset + 0x41)
  }

  /** The offset after j rounds. */
  function Offset(last: bv8, j: nat): bv8 {
    if j == 0 then Offset0(last) else Before(Offset(last, j - 1))
  }

  /** The key index counts down from 7 to 1, again and again. */
  function NextKey(index: nat): nat
    requires index > 0
  {
    if index == 1 then 7 else index - 1
  }

  /** The index of the key byte of round j. */
  function KeyIndex(j: nat): (k: nat)
    ensures 1 <= k <= 7
  {
    if j == 0 then 4 else NextKey(KeyIndex(j - 1))
  }

  lemma {:induction false} KeyCycle(j: nat)
    ensures KeyIndex(j) == [4, 3, 2, 1, 7, 6, 5][j % 7]
  {
    if j > 0 {
      KeyCycle(j - 1);
    }
  }

  // ----- One round --------------------------------------------------------------

  function Round(b: bv8, t: bv8, k: bv8): bv8 {
    if t & 3 == 0 then Minus(b, t, k) else if t & 3 == 1 then Plus(b, t, k) else Xor(b, t, k)
  }

  function Unround(b: bv8, t: bv8, k: bv8): bv8 {
    if t & 3 == 0 then Plus(b, t, k) else if t & 3 == 1 then Minus(b, t, k) else Xor(b, t, k)
  }

  function Plus(b: bv8, t: bv8, k: bv8): bv8 {
    b + t + k
  }

  function Minus(b: bv8, t: bv8, k: bv8): bv8 {
    b - t - k
  }

  function Xor(b: bv8, t: bv8, k: bv8): bv8 {
    b ^ t ^ k
  }

  lemma PlusInverse(b: bv8, t: bv8, k: bv8)
    ensures Plus(Minus(b, t, k), t, k) == b && Minus(Plus(b, t, k), t, k) == b && Xor(Xor(b, t, k), t, k) == b
  {
  }

  lemma RoundInverse(b: bv8, t: bv8, k: bv8)
    ensures Unround(Round(b, t, k), t, k) == b && Round(Unround(b, t, k), t, k) == b
  {
    hide Plus, Minus, Xor;
    PlusInverse(b, t, k);
  }

  /** Round j of a report that ends in `last`. */
  function DecodeRound(b: bv8, last: bv8, j: nat): bv8 {
    Round(b, Pad(Offset(last, j + 1)), Key(KeyIndex(j)))
  }

  function EncodeRound(b: bv8, last: bv8, j: nat): bv8 {
    Unround(b, Pad(Offset(last, j + 1)), Key(KeyIndex(j)))
  }

  /** The n rounds from j on. */
  function DecodeByte(b: bv8, last: bv8, j: nat, n: nat): bv8 {
    if n == 0 then b else DecodeRound(DecodeByte(b, last, j, n - 1), last, j + n - 1)
  }

  /** The same rounds, run backwards. */
  function EncodeByte(b: bv8, last: bv8, j: nat, n: nat): bv8
    decreases n
  {
    if n == 0 then b else EncodeByte(EncodeRound(b, last, j + n - 1), last, j, n - 1)
  }

  lemma {:induction false} ByteInverse(b: bv8, last: bv8, j: nat, n: nat)
    ensures EncodeByte(DecodeByte(b, last, j, n), last, j, n) == b
    ensures DecodeByte(EncodeByte(b, last, j, n), last, j, n) == b
    decreases n
  {
    hide Round, Unround, Pad, Key, Offset, KeyIndex;
    if n > 0 {
      ByteInverse(b, last, j, n - 1);
      ByteInverse(EncodeRound(b, last, j + n - 1), last, j, n - 1);
      RoundInverse(DecodeByte(b, last, j, n - 1), Pad(Offset(last, j + n)), Key(KeyIndex(j + n - 1)));
      RoundInverse(b, Pad(Offset(last, j + n)), Key(KeyIndex(j + n - 1)));
    }
  }

  // ----- Whole reports ------------------------------------------------------------

  /** Bytes 12 down to 0 take three rounds each; the two behind stay. */
  function FirstRound(x: nat): nat
    requires x <= LAST
  {
    3 * (LAST - x)
  }

  function Decoded(d: seq<bv8>): (r: seq<bv8>)
    requires |d| == REPORT
    ensures |r| == REPORT
  {
    seq(REPORT, x requires 0 <= x < REPORT => if x <= LAST then DecodeByte(d[x], d[14], FirstRound(x), 3) else d[x])
  }

  function Encoded(d: seq<bv8>): (r: seq<bv8>)
    requires |d| == REPORT
    ensures |r| == REPORT
  {
    seq(REPORT, x requires 0 <= x < REPORT => if x <= LAST then EncodeByte(d[x], d[14], FirstRound(x), 3) else d[x])
  }

  /** Decoding is a bijection on reports. */
  lemma CipherInverse(d: seq<bv8>)
    requires |d| == REPORT
    ensures Encoded(Decoded(d)) == d && Decoded(Encoded(d)) == d
    ensures Decoded(d)[13..] == d[13..]
  {
    hide DecodeByte, EncodeByte;
    var e, f := Decoded(d), Encoded(d);
    forall x | 0 <= x < REPORT ensures Encoded(e)[x] == d[x] && Decoded(f)[x] == d[x] {
      if x <= LAST {
        ByteInverse(d[x], d[14], FirstRound(x), 3);
      }
    }
  }

  lemma NextRound(b: bv8, last: bv8, j: nat, n: nat)
    ensures Offset(last, j + n + 1) == Before(Offset(last, j + n)) && KeyIndex(j + n + 1) == NextKey(KeyIndex(j + n))
    ensures DecodeByte(b, last, j, n + 1)
         == Round(DecodeByte(b, last, j, n), Pad(Before(Offset(last, j + n))), Key(KeyIndex(j + n)))
  {
    hide Round, Before, Pad, Key;
  }

  // ----- A report ------------------------------------------------------------------

  /** The three rounds for one byte, from an offset and a key index on. */
  function Rounds(b: bv8, offset: bv8, index: nat): bv8
    requires 1 <= index <= 7
  {
    var i1 := NextKey(index);
    Round(Round(Round(b, Pad(offset - 1), Key(index)), Pad(offset - 2), Key(i1)), Pad(offset - 3), Key(NextKey(i1)))
  }

  lemma ThreeRounds(b: bv8, last: bv8, j: nat, offset: bv8, index: nat)
    requires Offset(last, j) == offset && KeyIndex(j) == index
    ensures DecodeByte(b, last, j, 3) == Rounds(b, offset, index)
    ensures Offset(last, j + 3) == offset - 3 && KeyIndex(j + 3) == NextKey(NextKey(NextKey(index)))
  {
    hide Round, Pad, Key;
    NextRound(b, last, j, 0);
    NextRound(b, last, j, 1);
    NextRound(b, last, j, 2);
    NextRound(b, last, j, 3);
    assert DecodeByte(b, last, j, 0) == b;
    Threefold(offset);
  }

  lemma Threefold(offset: bv8)
    ensures Before(Before(Before(offset))) == offset - 3 && Before(Before(offset)) == offset - 2 && Before(offset) == offset - 1
  {
  }

  const REPORTED: seq<bv8> := [0x00, 0x11, 0x22, 0x33, 0x44, 0x55, 0x66, 0x77, 0x88, 0x99, 0xaa, 0xbb, 0xcc, 0xdd, 0x5a]

  lemma Pads12()
    ensures Pad(0x8c) == 0x15 && Pad(0x8b) == 0x2f && Pad(0x8a) == 0xe1
  {
  }

  lemma Byte12()
    requires Offset(0x5a, 0) == 0x8d && KeyIndex(0) == 4
    ensures DecodeByte(0xcc, 0x5a, 0, 3) == 0x68
    ensures Offset(0x5a, 3) == 0x8a && KeyIndex(3) == 1
  {
    Pads12();
    hide Pad, DecodeByte, Offset, KeyIndex;
    ThreeRounds(0xcc, 0x5a, 0, 0x8d, 4);
  }

  lemma Pads11()
    ensures Pad(0x89) == 0x37 && Pad(0x88) == 0x3d && Pad(0x87) == 0xd4
  {
  }

  lemma Byte11()
    requires Offset(0x5a, 3) == 0x8a && KeyIndex(3) == 1
    ensures DecodeByte(0xbb, 0x5a, 3, 3) == 0x11
    ensures Offset(0x5a, 6) == 0x87 && KeyIndex(6) == 5
  {
    Pads11();
    hide Pad, DecodeByte, Offset, KeyIndex;
    ThreeRounds(0xbb, 0x5a, 3, 0x8a, 1);
  }

  lemma Pads10()
    ensures Pad(0x86) == 0x1d && Pad(0x85) == 0x8f && Pad(0x84) == 0x19
  {
  }

  lemma Byte10()
    requires Offset(0x5a, 6) == 0x87 && KeyIndex(6) == 5
    ensures DecodeByte(0xaa, 0x5a, 6, 3) == 0xd7
    ensures Offset(0x5a, 9) == 0x84 && KeyIndex(9) == 2
  {
    Pads10();
    hide Pad, DecodeByte, Offset, KeyIndex;
    ThreeRounds(0xaa, 0x5a, 6, 0x87, 5);
  }

  lemma Pads9()
    ensures Pad(0x83) == 0xbc && Pad(0x82) == 0xd9 && Pad(0x81) == 0x09
  {
  }

  lemma Byte9()
    requires Offset(0x5a, 9) == 0x84 && KeyIndex(9) == 2
    ensures DecodeByte(0x99, 0x5a, 9, 3) == 0x83
    ensures Offset(0x5a, 12) == 0x81 && KeyIndex(12) == 6
  {
    Pads9();
    hide Pad, DecodeByte, Offset, KeyIndex;
    ThreeRounds(0x99, 0x5a, 9, 0x84, 2);
  }

  lemma Pads8()
    ensures Pad(0x80) == 0x7e && Pad(0x7f) == 0xdd && Pad(0x7e) == 0x85
  {
  }

  lemma Byte8()
    requires Offset(0x5a, 12) == 0x81 && KeyIndex(12) == 6
    ensures DecodeByte(0x88, 0x5a, 12, 3) == 0xc7
    ensures Offset(0x5a, 15) == 0x7e && KeyIndex(15) == 3
  {
    Pads8();
    hide Pad, DecodeByte, Offset, KeyIndex;
    ThreeRounds(0x88, 0x5a, 12, 0x81, 6);
  }

  lemma Pads7()
    ensures Pad(0x7d) == 0x80 && Pad(0x7c) == 0x6c && Pad(0x7b) == 0xe3
  {
  }

  lemma Byte7()
    requires Offset(0x5a, 15) == 0x7e && KeyIndex(15) == 3
    ensures DecodeByte(0x77, 0x5a, 15, 3) == 0x1b
    ensures Offset(0x5a, 18) == 0x7b && KeyIndex(18) == 7
  {
    Pads7();
    hide Pad, DecodeByte, Offset, KeyIndex;
    ThreeRounds(0x77, 0x5a, 15, 0x7e, 3);
  }

  lemma Pads6()
    ensures Pad(0x7a) == 0x18 && Pad(0x79) == 0xcb && Pad(0x78) == 0x1c
  {
  }

  lemma Byte6()
    requires Offset(0x5a, 18) == 0x7b && KeyIndex(18) == 7
    ensures DecodeByte(0x66, 0x5a, 18, 3) == 0x75
    ensures Offset(0x5a, 21) == 0x78 && KeyIndex(21) == 4
  {
    Pads6();
    hide Pad, DecodeByte, Offset, KeyIndex;
    ThreeRounds(0x66, 0x5a, 18, 0x7b, 7);
  }

  lemma Pads5()
    ensures Pad(0x77) == 0x25 && Pad(0x76) == 0x2c && Pad(0x75) == 0x17
  {
  }

  lemma Byte5()
    requires Offset(0x5a, 21) == 0x78 && KeyIndex(21) == 4
    ensures DecodeByte(0x55, 0x5a, 21, 3) == 0x38
    ensures Offset(0x5a, 24) == 0x75 && KeyIndex(24) == 1
  {
    Pads5();
    hide Pad, DecodeByte, Offset, KeyIndex;
    ThreeRounds(0x55, 0x5a, 21, 0x78, 4);
  }

  lemma Pads4()
    ensures Pad(0x74) == 0xf8 && Pad(0x73) == 0xcb && Pad(0x72) == 0x28
  {
  }

  lemma Byte4()
    requires Offset(0x5a, 24) == 0x75 && KeyIndex(24) == 1
    ensures DecodeByte(0x44, 0x5a, 24, 3) == 0x91
    ensures Offset(0x5a, 27) == 0x72 && KeyIndex(27) == 5
  {
    Pads4();
    hide Pad, DecodeByte, Offset, KeyIndex;
    ThreeRounds(0x44, 0x5a, 24, 0x75, 1);
  }

  lemma Pads3()
    ensures Pad(0x71) == 0xfc && Pad(0x70) == 0x06 && Pad(0x6f) == 0x04
  {
  }

  lemma Byte3()
    requires Offset(0x5a, 27) == 0x72 && KeyIndex(27) == 5
    ensures DecodeByte(0x33, 0x5a, 27, 3) == 0xbf
    ensures Offset(0x5a, 30) == 0x6f && KeyIndex(30) == 2
  {
    Pads3();
    hide Pad, DecodeByte, Offset, KeyIndex;
    ThreeRounds(0x33, 0x5a, 27, 0x72, 5);
  }

  lemma Pads2()
    ensures Pad(0x6e) == 0xc8 && Pad(0x6d) == 0x23 && Pad(0x6c) == 0xb8
  {
  }

  lemma Byte2()
    requires Offset(0x5a, 30) == 0x6f && KeyIndex(30) == 2
    ensures DecodeByte(0x22, 0x5a, 30, 3) == 0x01
    ensures Offset(0x5a, 33) == 0x6c && KeyIndex(33) == 6
  {
    Pads2();
    hide Pad, DecodeByte, Offset, KeyIndex;
    ThreeRounds(0x22, 0x5a, 30, 0x6f, 2);
  }

  lemma Pads1()
    ensures Pad(0x6b) == 0xa5 && Pad(0x6a) == 0xf0 && Pad(0x69) == 0xec
  {
  }

  lemma Byte1()
    requires Offset(0x5a, 33) == 0x6c && KeyIndex(33) == 6
    ensures DecodeByte(0x11, 0x5a, 33, 3) == 0x6d
    ensures Offset(0x5a, 36) == 0x69 && KeyIndex(36) == 3
  {
    Pads1();
    hide Pad, DecodeByte, Offset, KeyIndex;
    ThreeRounds(0x11, 0x5a, 33, 0x6c, 6);
  }

  lemma Pads0()
    ensures Pad(0x68) == 0x46 && Pad(0x67) == 0xb0 && Pad(0x66) == 0x95
  {
  }

  lemma Byte0()
    requires Offset(0x5a, 36) == 0x69 && KeyIndex(36) == 3
    ensures DecodeByte(0x00, 0x5a, 36, 3) == 0xfc
    ensures Offset(0x5a, 39) == 0x66 && KeyIndex(39) == 7
  {
    Pads0();
    hide Pad, DecodeByte, Offset, KeyIndex;
    ThreeRounds(0x00, 0x5a, 36, 0x69, 3);
  }

  lemma FirstOffset()
    ensures Offset(0x5a, 0) == 0x8d && KeyIndex(0) == 4
  {
  }

  lemma DecodedByte(d: seq<bv8>, x: nat)
    requires |d| == REPORT && x < REPORT
    ensures Decoded(d)[x] == if x <= LAST then DecodeByte(d[x], d[14], FirstRound(x), 3) else d[x]
  {
    hide DecodeByte;
  }

  lemma Taken12()
    requires DecodeByte(0xcc, 0x5a, 0, 3) == 0x68
    ensures Decoded(REPORTED)[12] == 0x68
  {
    hide DecodeByte, Decoded;
    DecodedByte(REPORTED, 12);
  }

  lemma Taken11()
    requires DecodeByte(0xbb, 0x5a, 3, 3) == 0x11
    ensures Decoded(REPORTED)[11] == 0x11
  {
    hide DecodeByte, Decoded;
    DecodedByte(REPORTED, 11);
  }

  lemma Taken10()
    requires DecodeByte(0xaa, 0x5a, 6, 3) == 0xd7
    ensures Decoded(REPORTED)[10] == 0xd7
  {
    hide DecodeByte, Decoded;
    DecodedByte(REPORTED, 10);
  }

  lemma Taken9()
    requires DecodeByte(0x99, 0x5a, 9, 3) == 0x83
    ensures Decoded(REPORTED)[9] == 0x83
  {
    hide DecodeByte, Decoded;
    DecodedByte(REPORTED, 9);
  }

  lemma Taken8()
    requires DecodeByte(0x88, 0x5a, 12, 3) == 0xc7
    ensures Decoded(REPORTED)[8] == 0xc7
  {
    hide DecodeByte, Decoded;
    DecodedByte(REPORTED, 8);
  }

  lemma Taken7()
    requires DecodeByte(0x77, 0x5a, 15, 3) == 0x1b
    ensures Decoded(REPORTED)[7] == 0x1b
  {
    hide DecodeByte, Decoded;
    DecodedByte(REPORTED, 7);
  }

  lemma Taken6()
    requires DecodeByte(0x66, 0x5a, 18, 3) == 0x75
    ensures Decoded(REPORTED)[6] == 0x75
  {
    hide DecodeByte, Decoded;
    DecodedByte(REPORTED, 6);
  }

  lemma Taken5()
    requires DecodeByte(0x55, 0x5a, 21, 3) == 0x38
    ensures Decoded(REPORTED)[5] == 0x38
  {
    hide DecodeByte, Decoded;
    DecodedByte(REPORTED, 5);
  }

  lemma Taken4()
    requires DecodeByte(0x44, 0x5a, 24, 3) == 0x91
    ensures Decoded(REPORTED)[4] == 0x91
  {
    hide DecodeByte, Decoded;
    DecodedByte(REPORTED, 4);
  }

  lemma Taken3()
    requires DecodeByte(0x33, 0x5a, 27, 3) == 0xbf
    ensures Decoded(REPORTED)[3] == 0xbf
  {
    hide DecodeByte, Decoded;
    DecodedByte(REPORTED, 3);
  }

  lemma Taken2()
    requires DecodeByte(0x22, 0x5a, 30, 3) == 0x01
    ensures Decoded(REPORTED)[2] == 0x01
  {
    hide DecodeByte, Decoded;
    DecodedByte(REPORTED, 2);
  }

  lemma Taken1()
    requires DecodeByte(0x11, 0x5a, 33, 3) == 0x6d
    ensures Decoded(REPORTED)[1] == 0x6d
  {
    hide DecodeByte, Decoded;
    DecodedByte(REPORTED, 1);
  }

  lemma Taken0()
    requires DecodeByte(0x00, 0x5a, 36, 3) == 0xfc
    ensures Decoded(REPORTED)[0] == 0xfc
  {
    hide DecodeByte, Decoded;
    DecodedByte(REPORTED, 0);
  }

  lemma TakenTail()
    ensures Decoded(REPORTED)[13] == 0xdd && Decoded(REPORTED)[14] == 0x5a
  {
    hide DecodeByte, Decoded;
    DecodedByte(REPORTED, 13);
    DecodedByte(REPORTED, 14);
  }

  /** A report and what it decodes to, by the table and the key of the source. */
  lemma ReportIsDecoded()
    ensures |Decoded(REPORTED)| == 15 && Decoded(REPORTED)
      == [0xfc, 0x6d, 0x01, 0xbf, 0x91, 0x38, 0x75, 0x1b, 0xc7, 0x83, 0xd7, 0x11, 0x68, 0xdd, 0x5a]
  {
    hide DecodeByte, Offset, KeyIndex, Decoded;
    FirstOffset();
    Byte12();
    Taken12();
    Byte11();
    Taken11();
    Byte10();
    Taken10();
    Byte9();
    Taken9();
    Byte8();
    Taken8();
    Byte7();
    Taken7();
    Byte6();
    Taken6();
    Byte5();
    Taken5();
    Byte4();
    Taken4();
    Byte3();
    Taken3();
    Byte2();
    Taken2();
    Byte1();
    Taken1();
    Byte0();
    Taken0();
    TakenTail();
  }

  // ----- In place ---------------------------------------------------------------

  /** The inner loop: three rounds for one byte. */
  method DecodeThree(b: bv8, offset: bv8, index: nat, ghost last: bv8, ghost j: nat)
    returns (byte: bv8, offset': bv8, index': nat)
    requires offset == Offset(last, j) && index == KeyIndex(j)
    ensures byte == DecodeByte(b, last, j, 3) && offset' == Offset(last, j + 3) && index' == KeyIndex(j + 3)
  {
    hide Round, Before, Pad, Key, Offset, KeyIndex;
    byte, offset', index' := b, offset, index;
    var y := 4;
    ghost var n := 0;
    while y > 1
      invariant 1 <= y <= 4 && n == 4 - y
      invariant offset' == Offset(last, j + n) && index' == KeyIndex(j + n) && index' > 0
      invariant byte == DecodeByte(b, last, j, n)
    {
      NextRound(b, last, j, n);
      offset' := Before(offset');
      byte := Round(byte, Pad(offset'), Key(index'));
      index' := NextKey(index');
      n, y := n + 1, y - 1;
    }
  }

  method Decode(data: array<bv8>)
    requires data.Length == REPORT
    modifies data
    ensures data[..] == Decoded(old(data[..]))
  {
    hide Offset0, DecodeByte;
    ghost var was := data[..];
    ghost var last := data[14];
    var offset, index, x := Offset0(data[14]), 4, 12;
    while x >= 0
      invariant -1 <= x <= 12
      invariant offset == Offset(last, 3 * (12 - x)) && index == KeyIndex(3 * (12 - x))
      invariant forall k :: 0 <= k < REPORT ==>
        data[k] == if x < k <= LAST then DecodeByte(was[k], last, FirstRound(k), 3) else was[k]
    {
      data[x], offset, index := DecodeThree(data[x], offset, index, last, 3 * (12 - x));
      x := x - 1;
    }
  }
}
