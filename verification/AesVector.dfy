/** The example of FIPS 197 Appendix B: the cipher of src/crypto/aes.c and its key
    schedule through every round, and what each round key byte does. */
module AesVector {
  import opened AesTables
  import opened Gf256
  import opened Aes

  // The columns of the table: the round keys, and per round the state at its
  // start and after SubBytes, ShiftRows and MixColumns.
  const KEY_0: State := [0x2b, 0x7e, 0x15, 0x16, 0x28, 0xae, 0xd2, 0xa6, 0xab, 0xf7, 0x15, 0x88, 0x09, 0xcf, 0x4f, 0x3c]
  const KEY_1: State := [0xa0, 0xfa, 0xfe, 0x17, 0x88, 0x54, 0x2c, 0xb1, 0x23, 0xa3, 0x39, 0x39, 0x2a, 0x6c, 0x76, 0x05]
  const KEY_2: State := [0xf2, 0xc2, 0x95, 0xf2, 0x7a, 0x96, 0xb9, 0x43, 0x59, 0x35, 0x80, 0x7a, 0x73, 0x59, 0xf6, 0x7f]
  const KEY_3: State := [0x3d, 0x80, 0x47, 0x7d, 0x47, 0x16, 0xfe, 0x3e, 0x1e, 0x23, 0x7e, 0x44, 0x6d, 0x7a, 0x88, 0x3b]
  const KEY_4: State := [0xef, 0x44, 0xa5, 0x41, 0xa8, 0x52, 0x5b, 0x7f, 0xb6, 0x71, 0x25, 0x3b, 0xdb, 0x0b, 0xad, 0x00]
  const KEY_5: State := [0xd4, 0xd1, 0xc6, 0xf8, 0x7c, 0x83, 0x9d, 0x87, 0xca, 0xf2, 0xb8, 0xbc, 0x11, 0xf9, 0x15, 0xbc]
  const KEY_6: State := [0x6d, 0x88, 0xa3, 0x7a, 0x11, 0x0b, 0x3e, 0xfd, 0xdb, 0xf9, 0x86, 0x41, 0xca, 0x00, 0x93, 0xfd]
  const KEY_7: State := [0x4e, 0x54, 0xf7, 0x0e, 0x5f, 0x5f, 0xc9, 0xf3, 0x84, 0xa6, 0x4f, 0xb2, 0x4e, 0xa6, 0xdc, 0x4f]
  const KEY_8: State := [0xea, 0xd2, 0x73, 0x21, 0xb5, 0x8d, 0xba, 0xd2, 0x31, 0x2b, 0xf5, 0x60, 0x7f, 0x8d, 0x29, 0x2f]
  const KEY_9: State := [0xac, 0x77, 0x66, 0xf3, 0x19, 0xfa, 0xdc, 0x21, 0x28, 0xd1, 0x29, 0x41, 0x57, 0x5c, 0x00, 0x6e]
  const KEY_10: State := [0xd0, 0x14, 0xf9, 0xa8, 0xc9, 0xee, 0x25, 0x89, 0xe1, 0x3f, 0x0c, 0xc8, 0xb6, 0x63, 0x0c, 0xa6]
  const PLAIN: State := [0x32, 0x43, 0xf6, 0xa8, 0x88, 0x5a, 0x30, 0x8d, 0x31, 0x31, 0x98, 0xa2, 0xe0, 0x37, 0x07, 0x34]
  const START_1: State := [0x19, 0x3d, 0xe3, 0xbe, 0xa0, 0xf4, 0xe2, 0x2b, 0x9a, 0xc6, 0x8d, 0x2a, 0xe9, 0xf8, 0x48, 0x08]
  const SUB_1: State := [0xd4, 0x27, 0x11, 0xae, 0xe0, 0xbf, 0x98, 0xf1, 0xb8, 0xb4, 0x5d, 0xe5, 0x1e, 0x41, 0x52, 0x30]
  const SHIFT_1: State := [0xd4, 0xbf, 0x5d, 0x30, 0xe0, 0xb4, 0x52, 0xae, 0xb8, 0x41, 0x11, 0xf1, 0x1e, 0x27, 0x98, 0xe5]
  const MIX_1: State := [0x04, 0x66, 0x81, 0xe5, 0xe0, 0xcb, 0x19, 0x9a, 0x48, 0xf8, 0xd3, 0x7a, 0x28, 0x06, 0x26, 0x4c]
  const START_2: State := [0xa4, 0x9c, 0x7f, 0xf2, 0x68, 0x9f, 0x35, 0x2b, 0x6b, 0x5b, 0xea, 0x43, 0x02, 0x6a, 0x50, 0x49]
  const SUB_2: State := [0x49, 0xde, 0xd2, 0x89, 0x45, 0xdb, 0x96, 0xf1, 0x7f, 0x39, 0x87, 0x1a, 0x77, 0x02, 0x53, 0x3b]
  const SHIFT_2: State := [0x49, 0xdb, 0x87, 0x3b, 0x45, 0x39, 0x53, 0x89, 0x7f, 0x02, 0xd2, 0xf1, 0x77, 0xde, 0x96, 0x1a]
  const MIX_2: State := [0x58, 0x4d, 0xca, 0xf1, 0x1b, 0x4b, 0x5a, 0xac, 0xdb, 0xe7, 0xca, 0xa8, 0x1b, 0x6b, 0xb0, 0xe5]
  const START_3: State := [0xaa, 0x8f, 0x5f, 0x03, 0x61, 0xdd, 0xe3, 0xef, 0x82, 0xd2, 0x4a, 0xd2, 0x68, 0x32, 0x46, 0x9a]
  const SUB_3: State := [0xac, 0x73, 0xcf, 0x7b, 0xef, 0xc1, 0x11, 0xdf, 0x13, 0xb5, 0xd6, 0xb5, 0x45, 0x23, 0x5a, 0xb8]
  const SHIFT_3: State := [0xac, 0xc1, 0xd6, 0xb8, 0xef, 0xb5, 0x5a, 0x7b, 0x13, 0x23, 0xcf, 0xdf, 0x45, 0x73, 0x11, 0xb5]
  const MIX_3: State := [0x75, 0xec, 0x09, 0x93, 0x20, 0x0b, 0x63, 0x33, 0x53, 0xc0, 0xcf, 0x7c, 0xbb, 0x25, 0xd0, 0xdc]
  const START_4: State := [0x48, 0x6c, 0x4e, 0xee, 0x67, 0x1d, 0x9d, 0x0d, 0x4d, 0xe3, 0xb1, 0x38, 0xd6, 0x5f, 0x58, 0xe7]
  const SUB_4: State := [0x52, 0x50, 0x2f, 0x28, 0x85, 0xa4, 0x5e, 0xd7, 0xe3, 0x11, 0xc8, 0x07, 0xf6, 0xcf, 0x6a, 0x94]
  const SHIFT_4: State := [0x52, 0xa4, 0xc8, 0x94, 0x85, 0x11, 0x6a, 0x28, 0xe3, 0xcf, 0x2f, 0xd7, 0xf6, 0x50, 0x5e, 0x07]
  const MIX_4: State := [0x0f, 0xd6, 0xda, 0xa9, 0x60, 0x31, 0x38, 0xbf, 0x6f, 0xc0, 0x10, 0x6b, 0x5e, 0xb3, 0x13, 0x01]
  const START_5: State := [0xe0, 0x92, 0x7f, 0xe8, 0xc8, 0x63, 0x63, 0xc0, 0xd9, 0xb1, 0x35, 0x50, 0x85, 0xb8, 0xbe, 0x01]
  const SUB_5: State := [0xe1, 0x4f, 0xd2, 0x9b, 0xe8, 0xfb, 0xfb, 0xba, 0x35, 0xc8, 0x96, 0x53, 0x97, 0x6c, 0xae, 0x7c]
  const SHIFT_5: State := [0xe1, 0xfb, 0x96, 0x7c, 0xe8, 0xc8, 0xae, 0x9b, 0x35, 0x6c, 0xd2, 0xba, 0x97, 0x4f, 0xfb, 0x53]
  const MIX_5: State := [0x25, 0xd1, 0xa9, 0xad, 0xbd, 0x11, 0xd1, 0x68, 0xb6, 0x3a, 0x33, 0x8e, 0x4c, 0x4c, 0xc0, 0xb0]
  const START_6: State := [0xf1, 0x00, 0x6f, 0x55, 0xc1, 0x92, 0x4c, 0xef, 0x7c, 0xc8, 0x8b, 0x32, 0x5d, 0xb5, 0xd5, 0x0c]
  const SUB_6: State := [0xa1, 0x63, 0xa8, 0xfc, 0x78, 0x4f, 0x29, 0xdf, 0x10, 0xe8, 0x3d, 0x23, 0x4c, 0xd5, 0x03, 0xfe]
  const SHIFT_6: State := [0xa1, 0x4f, 0x3d, 0xfe, 0x78, 0xe8, 0x03, 0xfc, 0x10, 0xd5, 0xa8, 0xdf, 0x4c, 0x63, 0x29, 0x23]
  const MIX_6: State := [0x4b, 0x86, 0x8d, 0x6d, 0x2c, 0x4a, 0x89, 0x80, 0x33, 0x9d, 0xf4, 0xe8, 0x37, 0xd2, 0x18, 0xd8]
  const START_7: State := [0x26, 0x0e, 0x2e, 0x17, 0x3d, 0x41, 0xb7, 0x7d, 0xe8, 0x64, 0x72, 0xa9, 0xfd, 0xd2, 0x8b, 0x25]
  const SUB_7: State := [0xf7, 0xab, 0x31, 0xf0, 0x27, 0x83, 0xa9, 0xff, 0x9b, 0x43, 0x40, 0xd3, 0x54, 0xb5, 0x3d, 0x3f]
  const SHIFT_7: State := [0xf7, 0x83, 0x40, 0x3f, 0x27, 0x43, 0x3d, 0xf0, 0x9b, 0xb5, 0x31, 0xff, 0x54, 0xab, 0xa9, 0xd3]
  const MIX_7: State := [0x14, 0x15, 0xb5, 0xbf, 0x46, 0x16, 0x15, 0xec, 0x27, 0x46, 0x56, 0xd7, 0x34, 0x2a, 0xd8, 0x43]
  const START_8: State := [0x5a, 0x41, 0x42, 0xb1, 0x19, 0x49, 0xdc, 0x1f, 0xa3, 0xe0, 0x19, 0x65, 0x7a, 0x8c, 0x04, 0x0c]
  const SUB_8: State := [0xbe, 0x83, 0x2c, 0xc8, 0xd4, 0x3b, 0x86, 0xc0, 0x0a, 0xe1, 0xd4, 0x4d, 0xda, 0x64, 0xf2, 0xfe]
  const SHIFT_8: State := [0xbe, 0x3b, 0xd4, 0xfe, 0xd4, 0xe1, 0xf2, 0xc8, 0x0a, 0x64, 0x2c, 0xc0, 0xda, 0x83, 0x86, 0x4d]
  const MIX_8: State := [0x00, 0x51, 0x2f, 0xd1, 0xb1, 0xc8, 0x89, 0xff, 0x54, 0x76, 0x6d, 0xcd, 0xfa, 0x1b, 0x99, 0xea]
  const START_9: State := [0xea, 0x83, 0x5c, 0xf0, 0x04, 0x45, 0x33, 0x2d, 0x65, 0x5d, 0x98, 0xad, 0x85, 0x96, 0xb0, 0xc5]
  const SUB_9: State := [0x87, 0xec, 0x4a, 0x8c, 0xf2, 0x6e, 0xc3, 0xd8, 0x4d, 0x4c, 0x46, 0x95, 0x97, 0x90, 0xe7, 0xa6]
  const SHIFT_9: State := [0x87, 0x6e, 0x46, 0xa6, 0xf2, 0x4c, 0xe7, 0x8c, 0x4d, 0x90, 0x4a, 0xd8, 0x97, 0xec, 0xc3, 0x95]
  const MIX_9: State := [0x47, 0x37, 0x94, 0xed, 0x40, 0xd4, 0xe4, 0xa5, 0xa3, 0x70, 0x3a, 0xa6, 0x4c, 0x9f, 0x42, 0xbc]
  const START_10: State := [0xeb, 0x40, 0xf2, 0x1e, 0x59, 0x2e, 0x38, 0x84, 0x8b, 0xa1, 0x13, 0xe7, 0x1b, 0xc3, 0x42, 0xd2]
  const SUB_10: State := [0xe9, 0x09, 0x89, 0x72, 0xcb, 0x31, 0x07, 0x5f, 0x3d, 0x32, 0x7d, 0x94, 0xaf, 0x2e, 0x2c, 0xb5]
  const SHIFT_10: State := [0xe9, 0x31, 0x7d, 0xb5, 0xcb, 0x32, 0x2c, 0x72, 0x3d, 0x2e, 0x89, 0x5f, 0xaf, 0x09, 0x07, 0x94]
  const SECRET: State := [0x39, 0x25, 0x84, 0x1d, 0x02, 0xdc, 0x09, 0xfb, 0xdc, 0x11, 0x85, 0x97, 0x19, 0x6a, 0x0b, 0x32]

  // ----- The rounds ---------------------------------------------------------

  /** Row n of the table: the state through the steps of round n. */
  predicate Row(start: State, sub: State, shift: State, mix: State, key: State, next: State) {
    SubBytes(start) == sub && ShiftRows(sub) == shift && MixColumns(shift) == mix && Summed(mix, key) == next
  }

  function Summed(a: State, b: State): State {
    seq(BLOCK, i requires 0 <= i < BLOCK => Add(a[i], b[i]))
  }

  lemma SummedIs(a: State, b: State)
    ensures Summed(a, b) == [
      Add(a[0], b[0]), Add(a[1], b[1]), Add(a[2], b[2]), Add(a[3], b[3]),
      Add(a[4], b[4]), Add(a[5], b[5]), Add(a[6], b[6]), Add(a[7], b[7]),
      Add(a[8], b[8]), Add(a[9], b[9]), Add(a[10], b[10]), Add(a[11], b[11]),
      Add(a[12], b[12]), Add(a[13], b[13]), Add(a[14], b[14]), Add(a[15], b[15])]
  {
    hide Add;
  }

  lemma Replaced(s: State)
    ensures SubBytes(s) == [Sbox(s[0]), Sbox(s[1]), Sbox(s[2]), Sbox(s[3]), Sbox(s[4]), Sbox(s[5]), Sbox(s[6]), Sbox(s[7]),
                            Sbox(s[8]), Sbox(s[9]), Sbox(s[10]), Sbox(s[11]), Sbox(s[12]), Sbox(s[13]), Sbox(s[14]), Sbox(s[15])]
  {
    hide Sbox;
  }

  lemma Keyed0()
    ensures Summed(PLAIN, KEY_0) == START_1
  {
    SummedIs(PLAIN, KEY_0);
    hide Summed;
  }

  lemma Replaced1()
    ensures SubBytes(START_1) == SUB_1
  {
    Replaced(START_1);
    hide SubBytes;
  }

  lemma Moved1()
    ensures ShiftRows(SUB_1) == SHIFT_1
  {
    ShiftedRows(SUB_1);
    hide ShiftRows;
  }

  lemma Mixed1()
    ensures MixColumns(SHIFT_1) == MIX_1
  {
  }

  lemma Keyed1()
    ensures Summed(MIX_1, KEY_1) == START_2
  {
    SummedIs(MIX_1, KEY_1);
    hide Summed;
  }

  lemma Row1()
    ensures Row(START_1, SUB_1, SHIFT_1, MIX_1, KEY_1, START_2)
  {
    hide SubBytes, ShiftRows, MixColumns, Summed;
    Replaced1();
    Moved1();
    Mixed1();
    Keyed1();
  }

  lemma Replaced2()
    ensures SubBytes(START_2) == SUB_2
  {
    Replaced(START_2);
    hide SubBytes;
  }

  lemma Moved2()
    ensures ShiftRows(SUB_2) == SHIFT_2
  {
    ShiftedRows(SUB_2);
    hide ShiftRows;
  }

  lemma Mixed2()
    ensures MixColumns(SHIFT_2) == MIX_2
  {
  }

  lemma Keyed2()
    ensures Summed(MIX_2, KEY_2) == START_3
  {
    SummedIs(MIX_2, KEY_2);
    hide Summed;
  }

  lemma Row2()
    ensures Row(START_2, SUB_2, SHIFT_2, MIX_2, KEY_2, START_3)
  {
    hide SubBytes, ShiftRows, MixColumns, Summed;
    Replaced2();
    Moved2();
    Mixed2();
    Keyed2();
  }

  lemma Replaced3()
    ensures SubBytes(START_3) == SUB_3
  {
    Replaced(START_3);
    hide SubBytes;
  }

  lemma Moved3()
    ensures ShiftRows(SUB_3) == SHIFT_3
  {
    ShiftedRows(SUB_3);
    hide ShiftRows;
  }

  lemma Mixed3()
    ensures MixColumns(SHIFT_3) == MIX_3
  {
  }

  lemma Keyed3()
    ensures Summed(MIX_3, KEY_3) == START_4
  {
    SummedIs(MIX_3, KEY_3);
    hide Summed;
  }

  lemma Row3()
    ensures Row(START_3, SUB_3, SHIFT_3, MIX_3, KEY_3, START_4)
  {
    hide SubBytes, ShiftRows, MixColumns, Summed;
    Replaced3();
    Moved3();
    Mixed3();
    Keyed3();
  }

  lemma Replaced4()
    ensures SubBytes(START_4) == SUB_4
  {
    Replaced(START_4);
    hide SubBytes;
  }

  lemma Moved4()
    ensures ShiftRows(SUB_4) == SHIFT_4
  {
    ShiftedRows(SUB_4);
    hide ShiftRows;
  }

  lemma Mixed4()
    ensures MixColumns(SHIFT_4) == MIX_4
  {
  }

  lemma Keyed4()
    ensures Summed(MIX_4, KEY_4) == START_5
  {
    SummedIs(MIX_4, KEY_4);
    hide Summed;
  }

  lemma Row4()
    ensures Row(START_4, SUB_4, SHIFT_4, MIX_4, KEY_4, START_5)
  {
    hide SubBytes, ShiftRows, MixColumns, Summed;
    Replaced4();
    Moved4();
    Mixed4();
    Keyed4();
  }

  lemma Replaced5()
    ensures SubBytes(START_5) == SUB_5
  {
    Replaced(START_5);
    hide SubBytes;
  }

  lemma Moved5()
    ensures ShiftRows(SUB_5) == SHIFT_5
  {
    ShiftedRows(SUB_5);
    hide ShiftRows;
  }

  lemma Mixed5()
    ensures MixColumns(SHIFT_5) == MIX_5
  {
  }

  lemma Keyed5()
    ensures Summed(MIX_5, KEY_5) == START_6
  {
    SummedIs(MIX_5, KEY_5);
    hide Summed;
  }

  lemma Row5()
    ensures Row(START_5, SUB_5, SHIFT_5, MIX_5, KEY_5, START_6)
  {
    hide SubBytes, ShiftRows, MixColumns, Summed;
    Replaced5();
    Moved5();
    Mixed5();
    Keyed5();
  }

  lemma Replaced6()
    ensures SubBytes(START_6) == SUB_6
  {
    Replaced(START_6);
    hide SubBytes;
  }

  lemma Moved6()
    ensures ShiftRows(SUB_6) == SHIFT_6
  {
    ShiftedRows(SUB_6);
    hide ShiftRows;
  }

  lemma Mixed6()
    ensures MixColumns(SHIFT_6) == MIX_6
  {
  }

  lemma Keyed6()
    ensures Summed(MIX_6, KEY_6) == START_7
  {
    SummedIs(MIX_6, KEY_6);
    hide Summed;
  }

  lemma Row6()
    ensures Row(START_6, SUB_6, SHIFT_6, MIX_6, KEY_6, START_7)
  {
    hide SubBytes, ShiftRows, MixColumns, Summed;
    Replaced6();
    Moved6();
    Mixed6();
    Keyed6();
  }

  lemma Replaced7()
    ensures SubBytes(START_7) == SUB_7
  {
    Replaced(START_7);
    hide SubBytes;
  }

  lemma Moved7()
    ensures ShiftRows(SUB_7) == SHIFT_7
  {
    ShiftedRows(SUB_7);
    hide ShiftRows;
  }

  lemma Mixed7()
    ensures MixColumns(SHIFT_7) == MIX_7
  {
  }

  lemma Keyed7()
    ensures Summed(MIX_7, KEY_7) == START_8
  {
    SummedIs(MIX_7, KEY_7);
    hide Summed;
  }

  lemma Row7()
    ensures Row(START_7, SUB_7, SHIFT_7, MIX_7, KEY_7, START_8)
  {
    hide SubBytes, ShiftRows, MixColumns, Summed;
    Replaced7();
    Moved7();
    Mixed7();
    Keyed7();
  }

  lemma Replaced8()
    ensures SubBytes(START_8) == SUB_8
  {
    Replaced(START_8);
    hide SubBytes;
  }

  lemma Moved8()
    ensures ShiftRows(SUB_8) == SHIFT_8
  {
    ShiftedRows(SUB_8);
    hide ShiftRows;
  }

  lemma Mixed8()
    ensures MixColumns(SHIFT_8) == MIX_8
  {
  }

  lemma Keyed8()
    ensures Summed(MIX_8, KEY_8) == START_9
  {
    SummedIs(MIX_8, KEY_8);
    hide Summed;
  }

  lemma Row8()
    ensures Row(START_8, SUB_8, SHIFT_8, MIX_8, KEY_8, START_9)
  {
    hide SubBytes, ShiftRows, MixColumns, Summed;
    Replaced8();
    Moved8();
    Mixed8();
    Keyed8();
  }

  lemma Replaced9()
    ensures SubBytes(START_9) == SUB_9
  {
    Replaced(START_9);
    hide SubBytes;
  }

  lemma Moved9()
    ensures ShiftRows(SUB_9) == SHIFT_9
  {
    ShiftedRows(SUB_9);
    hide ShiftRows;
  }

  lemma Mixed9()
    ensures MixColumns(SHIFT_9) == MIX_9
  {
  }

  lemma Keyed9()
    ensures Summed(MIX_9, KEY_9) == START_10
  {
    SummedIs(MIX_9, KEY_9);
    hide Summed;
  }

  lemma Row9()
    ensures Row(START_9, SUB_9, SHIFT_9, MIX_9, KEY_9, START_10)
  {
    hide SubBytes, ShiftRows, MixColumns, Summed;
    Replaced9();
    Moved9();
    Mixed9();
    Keyed9();
  }

  lemma Replaced10()
    ensures SubBytes(START_10) == SUB_10
  {
    Replaced(START_10);
    hide SubBytes;
  }

  lemma Moved10()
    ensures ShiftRows(SUB_10) == SHIFT_10
  {
    ShiftedRows(SUB_10);
    hide ShiftRows;
  }

  lemma Keyed10()
    ensures Summed(SHIFT_10, KEY_10) == SECRET
  {
    SummedIs(SHIFT_10, KEY_10);
    hide Summed;
  }

  // ----- The key schedule ---------------------------------------------------

  /** The four key words behind k. */
  function NextKey(k: State, round: nat): State
    requires 0 < round
  {
    var w0 := XorWord(k[0..4], Schedule(k[12..16], 4 * round));
    var w1 := XorWord(k[4..8], w0);
    var w2 := XorWord(k[8..12], w1);
    w0 + w1 + w2 + XorWord(k[12..16], w2)
  }

  /** Key words 4 * round to 4 * round + 3 are the words of k. */
  ghost predicate Words(key: State, round: nat, k: State) {
    forall j :: 0 <= j < 4 ==> KeyWord(key, 4 * round + j) == k[4 * j..4 * j + 4]
  }

  lemma WordsNext(key: State, round: nat, k: State)
    requires 0 < round && Words(key, round - 1, k)
    ensures Words(key, round, NextKey(k, round))
  {
    hide Schedule, XorWord;
    var n, i := NextKey(k, round), 4 * round;
    assert KeyWord(key, i - 4) == k[0..4] && KeyWord(key, i - 3) == k[4..8]
      && KeyWord(key, i - 2) == k[8..12] && KeyWord(key, i - 1) == k[12..16] by {
      assert KeyWord(key, 4 * (round - 1) + 0) == k[4 * 0..4 * 0 + 4] && KeyWord(key, 4 * (round - 1) + 1) == k[4 * 1..4 * 1 + 4];
      assert KeyWord(key, 4 * (round - 1) + 2) == k[4 * 2..4 * 2 + 4] && KeyWord(key, 4 * (round - 1) + 3) == k[4 * 3..4 * 3 + 4];
    }
    PlainWord(key, i);
    assert KeyWord(key, i) == n[0..4];
    assert KeyWord(key, i + 1) == n[4..8];
    assert KeyWord(key, i + 2) == n[8..12];
    assert KeyWord(key, i + 3) == n[12..16];
  }

  /** A word that is not the first of its four is the sum of two others. */
  lemma PlainWord(key: State, i: nat)
    requires i >= 4 && i % 4 == 0
    ensures KeyWord(key, i) == XorWord(KeyWord(key, i - 4), Schedule(KeyWord(key, i - 1), i))
    ensures KeyWord(key, i + 1) == XorWord(KeyWord(key, i - 3), KeyWord(key, i))
    ensures KeyWord(key, i + 2) == XorWord(KeyWord(key, i - 2), KeyWord(key, i + 1))
    ensures KeyWord(key, i + 3) == XorWord(KeyWord(key, i - 1), KeyWord(key, i + 2))
  {
    hide XorWord, Rcon, SubWord;
  }

  lemma Constants()
    ensures Rcon(1) == 0x01 && Rcon(2) == 0x02 && Rcon(3) == 0x04 && Rcon(4) == 0x08 && Rcon(5) == 0x10
    ensures Rcon(6) == 0x20 && Rcon(7) == 0x40 && Rcon(8) == 0x80 && Rcon(9) == 0x1b && Rcon(10) == 0x36
  {
    assert Rcon(2) == Xtime(Rcon(1)) && Rcon(3) == Xtime(Rcon(2)) && Rcon(4) == Xtime(Rcon(3)) && Rcon(5) == Xtime(Rcon(4));
    assert Rcon(6) == Xtime(Rcon(5)) && Rcon(7) == Xtime(Rcon(6)) && Rcon(8) == Xtime(Rcon(7));
    assert Rcon(9) == Xtime(Rcon(8)) && Rcon(10) == Xtime(Rcon(9));
  }

  lemma KeyRow1()
    ensures NextKey(KEY_0, 1) == KEY_1
  {
    Constants();
    hide Rcon;
  }

  lemma KeyRow2()
    ensures NextKey(KEY_1, 2) == KEY_2
  {
    Constants();
    hide Rcon;
  }

  lemma KeyRow3()
    ensures NextKey(KEY_2, 3) == KEY_3
  {
    Constants();
    hide Rcon;
  }

  lemma KeyRow4()
    ensures NextKey(KEY_3, 4) == KEY_4
  {
    Constants();
    hide Rcon;
  }

  lemma KeyRow5()
    ensures NextKey(KEY_4, 5) == KEY_5
  {
    Constants();
    hide Rcon;
  }

  lemma KeyRow6()
    ensures NextKey(KEY_5, 6) == KEY_6
  {
    Constants();
    hide Rcon;
  }

  lemma KeyRow7()
    ensures NextKey(KEY_6, 7) == KEY_7
  {
    Constants();
    hide Rcon;
  }

  lemma KeyRow8()
    ensures NextKey(KEY_7, 8) == KEY_8
  {
    Constants();
    hide Rcon;
  }

  lemma KeyRow9()
    ensures NextKey(KEY_8, 9) == KEY_9
  {
    Constants();
    hide Rcon;
  }

  lemma KeyRow10()
    ensures NextKey(KEY_9, 10) == KEY_10
  {
    Constants();
    hide Rcon;
  }

  /** Round key n of the array. */
  function Block(rk: RoundKeys, n: nat): State
    requires n <= ROUNDS
  {
    rk[BLOCK * n..BLOCK * n + BLOCK]
  }

  lemma FirstWordsOf(key: State)
    ensures Words(key, 0, key)
  {
  }

  lemma BlockIs(key: State, rk: RoundKeys, n: nat, k: State)
    requires n <= ROUNDS && IsKeySchedule(key, rk) && Words(key, n, k)
    ensures Block(rk, n) == k
  {
    hide KeyWord;
    forall i | 0 <= i < BLOCK ensures rk[BLOCK * n + i] == k[i] {
      var j := 4 * n + i / 4;
      assert rk[4 * j..4 * j + 4][i % 4] == k[4 * (i / 4)..4 * (i / 4) + 4][i % 4];
    }
  }

  lemma KeyBlock(rk: RoundKeys, n: nat, before: State, k: State)
    requires 0 < n <= ROUNDS && IsKeySchedule(KEY_0, rk) && Words(KEY_0, n - 1, before) && NextKey(before, n) == k
    ensures Words(KEY_0, n, k) && Block(rk, n) == k
  {
    hide IsKeySchedule, Words, NextKey, Block;
    WordsNext(KEY_0, n, before);
    BlockIs(KEY_0, rk, n, k);
  }

  /** The expanded key of the example. */
  lemma RoundKeysOfExample(rk: RoundKeys)
    requires IsKeySchedule(KEY_0, rk)
    ensures Block(rk, 0) == KEY_0 && Block(rk, 1) == KEY_1 && Block(rk, 2) == KEY_2 && Block(rk, 3) == KEY_3 && Block(rk, 4) == KEY_4
    ensures Block(rk, 5) == KEY_5 && Block(rk, 6) == KEY_6 && Block(rk, 7) == KEY_7 && Block(rk, 8) == KEY_8 && Block(rk, 9) == KEY_9
    ensures Block(rk, 10) == KEY_10
  {
    hide IsKeySchedule, Words, NextKey, Block;
    FirstWordsOf(KEY_0);
    BlockIs(KEY_0, rk, 0, KEY_0);
    KeyRow1();
    KeyBlock(rk, 1, KEY_0, KEY_1);
    KeyRow2();
    KeyBlock(rk, 2, KEY_1, KEY_2);
    KeyRow3();
    KeyBlock(rk, 3, KEY_2, KEY_3);
    KeyRow4();
    KeyBlock(rk, 4, KEY_3, KEY_4);
    KeyRow5();
    KeyBlock(rk, 5, KEY_4, KEY_5);
    KeyRow6();
    KeyBlock(rk, 6, KEY_5, KEY_6);
    KeyRow7();
    KeyBlock(rk, 7, KEY_6, KEY_7);
    KeyRow8();
    KeyBlock(rk, 8, KEY_7, KEY_8);
    KeyRow9();
    KeyBlock(rk, 9, KEY_8, KEY_9);
    KeyRow10();
    KeyBlock(rk, 10, KEY_9, KEY_10);
  }

  // ----- The whole example --------------------------------------------------

  lemma KeyAddedAt(s: State, rk: RoundKeys, n: nat, j: nat)
    requires n <= ROUNDS && j < BLOCK
    ensures AddRoundKey(s, rk, n)[j] == Add(s[j], rk[BLOCK * n + j]) && Block(rk, n)[j] == rk[BLOCK * n + j]
  {
  }

  lemma KeyAdded(s: State, rk: RoundKeys, n: nat)
    requires n <= ROUNDS
    ensures AddRoundKey(s, rk, n) == Summed(s, Block(rk, n))
  {
    hide AddRoundKey, Add, Block;
    forall j | 0 <= j < BLOCK ensures AddRoundKey(s, rk, n)[j] == Summed(s, Block(rk, n))[j] {
      KeyAddedAt(s, rk, n, j);
    }
  }

  lemma OneRound(rk: RoundKeys, plain: State, n: nat, start: State, sub: State, shift: State, mix: State, key: State, next: State)
    requires 0 < n < ROUNDS && AfterRounds(rk, plain, n - 1) == start && Block(rk, n) == key
    requires Row(start, sub, shift, mix, key, next)
    ensures AfterRounds(rk, plain, n) == next
  {
    hide SubBytes, ShiftRows, MixColumns, AddRoundKey, Summed, Block;
    KeyAdded(mix, rk, n);
  }

  lemma LastRound(rk: RoundKeys, plain: State, start: State, sub: State, shift: State, key: State, secret: State)
    requires AfterRounds(rk, plain, ROUNDS - 1) == start && Block(rk, ROUNDS) == key
    requires SubBytes(start) == sub && ShiftRows(sub) == shift && Summed(shift, key) == secret
    ensures Cipher(rk, plain) == secret
  {
    hide SubBytes, ShiftRows, MixColumns, AddRoundKey, Summed, Block, AfterRounds;
    KeyAdded(shift, rk, ROUNDS);
  }

  lemma NoRounds(rk: RoundKeys, plain: State)
    ensures AfterRounds(rk, plain, 0) == Summed(plain, Block(rk, 0))
  {
    hide AddRoundKey;
    KeyAdded(plain, rk, 0);
  }

  /** Key expansion and cipher give the cipher text of the standard. */
  lemma Example(rk: RoundKeys)
    requires IsKeySchedule(KEY_0, rk)
    ensures Cipher(rk, PLAIN) == SECRET
  {
    hide IsKeySchedule, Block, Row, Summed, AfterRounds, Cipher, SubBytes, ShiftRows;
    RoundKeysOfExample(rk);
    NoRounds(rk, PLAIN);
    Keyed0();
    Row1();
    OneRound(rk, PLAIN, 1, START_1, SUB_1, SHIFT_1, MIX_1, KEY_1, START_2);
    Row2();
    OneRound(rk, PLAIN, 2, START_2, SUB_2, SHIFT_2, MIX_2, KEY_2, START_3);
    Row3();
    OneRound(rk, PLAIN, 3, START_3, SUB_3, SHIFT_3, MIX_3, KEY_3, START_4);
    Row4();
    OneRound(rk, PLAIN, 4, START_4, SUB_4, SHIFT_4, MIX_4, KEY_4, START_5);
    Row5();
    OneRound(rk, PLAIN, 5, START_5, SUB_5, SHIFT_5, MIX_5, KEY_5, START_6);
    Row6();
    OneRound(rk, PLAIN, 6, START_6, SUB_6, SHIFT_6, MIX_6, KEY_6, START_7);
    Row7();
    OneRound(rk, PLAIN, 7, START_7, SUB_7, SHIFT_7, MIX_7, KEY_7, START_8);
    Row8();
    OneRound(rk, PLAIN, 8, START_8, SUB_8, SHIFT_8, MIX_8, KEY_8, START_9);
    Row9();
    OneRound(rk, PLAIN, 9, START_9, SUB_9, SHIFT_9, MIX_9, KEY_9, START_10);
    Replaced10();
    Moved10();
    Keyed10();
    LastRound(rk, PLAIN, START_10, SUB_10, SHIFT_10, KEY_10, SECRET);
  }

  // ----- What a byte of the round keys does ------------------------------------

  /** A block with d added to byte i. */
  function Flip(s: State, i: nat, d: bv8): State
    requires i < BLOCK
  {
    s[i := s[i] ^ d]
  }

  /** The round keys with d added to byte k of the array. */
  function With(rk: RoundKeys, k: nat, d: bv8): RoundKeys
    requires k < ROUND_KEYS
  {
    rk[k := rk[k] ^ d]
  }

  lemma XorLast(a: bv8, k: bv8, d: bv8)
    ensures a ^ (k ^ d) == (a ^ k) ^ d && (a ^ d) ^ k == (a ^ k) ^ d
  {
  }

  lemma AddedAt(s: State, rk: RoundKeys, n: nat, j: nat)
    requires n <= ROUNDS && j < BLOCK
    ensures AddRoundKey(s, rk, n)[j] == s[j] ^ rk[BLOCK * n + j]
  {
  }

  lemma KeyAddedByte(s: State, rk: RoundKeys, n: nat, i: nat, j: nat, d: bv8)
    requires n <= ROUNDS && i < BLOCK && j < BLOCK
    ensures AddRoundKey(s, With(rk, BLOCK * n + i, d), n)[j] == Flip(AddRoundKey(s, rk, n), i, d)[j]
  {
    hide With, Flip, AddRoundKey;
    AddedAt(s, With(rk, BLOCK * n + i, d), n, j);
    AddedAt(s, rk, n, j);
    WithAt(rk, n, i, j, d);
    FlippedAt(AddRoundKey(s, rk, n), i, j, d);
    if j == i {
      XorLast(s[i], rk[BLOCK * n + i], d);
    }
  }

  lemma PlainAddedByte(s: State, rk: RoundKeys, n: nat, i: nat, j: nat, d: bv8)
    requires n <= ROUNDS && i < BLOCK && j < BLOCK
    ensures AddRoundKey(Flip(s, i, d), rk, n)[j] == Flip(AddRoundKey(s, rk, n), i, d)[j]
  {
    hide With, Flip, AddRoundKey;
    AddedAt(Flip(s, i, d), rk, n, j);
    AddedAt(s, rk, n, j);
    FlippedAt(s, i, j, d);
    FlippedAt(AddRoundKey(s, rk, n), i, j, d);
    if j == i {
      XorLast(s[i], rk[BLOCK * n + i], d);
    }
  }

  /** The addition of round key n. */
  lemma AddedByte(s: State, rk: RoundKeys, n: nat, i: nat, d: bv8)
    requires n <= ROUNDS && i < BLOCK
    ensures AddRoundKey(s, With(rk, BLOCK * n + i, d), n) == Flip(AddRoundKey(s, rk, n), i, d)
    ensures AddRoundKey(Flip(s, i, d), rk, n) == Flip(AddRoundKey(s, rk, n), i, d)
  {
    hide With, Flip, AddRoundKey;
    var kept, keyed, plain := Flip(AddRoundKey(s, rk, n), i, d), AddRoundKey(s, With(rk, BLOCK * n + i, d), n), AddRoundKey(Flip(s, i, d), rk, n);
    forall j | 0 <= j < BLOCK ensures keyed[j] == kept[j] && plain[j] == kept[j] {
      KeyAddedByte(s, rk, n, i, j, d);
      PlainAddedByte(s, rk, n, i, j, d);
    }
    assert keyed == kept && plain == kept;
  }

  lemma FlippedAt(s: State, i: nat, j: nat, d: bv8)
    requires i < BLOCK && j < BLOCK
    ensures Flip(s, i, d)[j] == if j == i then s[i] ^ d else s[j]
  {
  }

  lemma WithAt(rk: RoundKeys, n: nat, i: nat, j: nat, d: bv8)
    requires n <= ROUNDS && i < BLOCK && j < BLOCK
    ensures With(rk, BLOCK * n + i, d)[BLOCK * n + j] == if j == i then rk[BLOCK * n + i] ^ d else rk[BLOCK * n + j]
  {
  }

  lemma AddedElsewhere(s: State, rk: RoundKeys, n: nat, k: nat, d: bv8)
    requires n <= ROUNDS && k < ROUND_KEYS && k / BLOCK != n
    ensures AddRoundKey(s, With(rk, k, d), n) == AddRoundKey(s, rk, n)
  {
  }

  /** Round n mixes in the bytes 16 * n to 16 * n + 15: they do not matter before. */
  lemma {:induction false} LaterKeysWait(rk: RoundKeys, plain: State, n: nat, k: nat, d: bv8)
    requires n < ROUNDS && BLOCK * (n + 1) <= k < ROUND_KEYS
    ensures AfterRounds(With(rk, k, d), plain, n) == AfterRounds(rk, plain, n)
    decreases n
  {
    hide SubBytes, ShiftRows, MixColumns, AddRoundKey, With;
    if n > 0 {
      LaterKeysWait(rk, plain, n - 1, k, d);
      AddedElsewhere(MixColumns(ShiftRows(SubBytes(AfterRounds(rk, plain, n - 1)))), rk, n, k, d);
    } else {
      AddedElsewhere(plain, rk, 0, k, d);
    }
  }

  /** ... and there each is added to the byte in its place, and to no other. */
  lemma RoundKeyByte(rk: RoundKeys, plain: State, n: nat, i: nat, d: bv8)
    requires n < ROUNDS && i < BLOCK
    ensures AfterRounds(With(rk, BLOCK * n + i, d), plain, n) == Flip(AfterRounds(rk, plain, n), i, d)
  {
    hide SubBytes, ShiftRows, MixColumns, AddRoundKey, With, Flip;
    if n > 0 {
      LaterKeysWait(rk, plain, n - 1, BLOCK * n + i, d);
      AddedByte(MixColumns(ShiftRows(SubBytes(AfterRounds(rk, plain, n - 1)))), rk, n, i, d);
    } else {
      AddedByte(plain, rk, 0, i, d);
    }
  }

  /** A change of the last round key changes the cipher text in its place only. */
  lemma LastKeyByte(rk: RoundKeys, plain: State, i: nat, d: bv8)
    requires i < BLOCK
    ensures Cipher(With(rk, BLOCK * ROUNDS + i, d), plain) == Flip(Cipher(rk, plain), i, d)
  {
    hide SubBytes, ShiftRows, MixColumns, AddRoundKey, With, Flip, AfterRounds;
    LaterKeysWait(rk, plain, ROUNDS - 1, BLOCK * ROUNDS + i, d);
    AddedByte(ShiftRows(SubBytes(AfterRounds(rk, plain, ROUNDS - 1))), rk, ROUNDS, i, d);
  }

  /** A change of the first round key acts as the same change of the plain text. */
  lemma {:induction false} FirstKeyByte(rk: RoundKeys, plain: State, n: nat, i: nat, d: bv8)
    requires n < ROUNDS && i < BLOCK
    ensures AfterRounds(With(rk, i, d), plain, n) == AfterRounds(rk, Flip(plain, i, d), n)
    decreases n
  {
    hide SubBytes, ShiftRows, MixColumns, AddRoundKey, With, Flip;
    if n > 0 {
      FirstKeyByte(rk, plain, n - 1, i, d);
      AddedElsewhere(MixColumns(ShiftRows(SubBytes(AfterRounds(rk, Flip(plain, i, d), n - 1)))), rk, n, i, d);
    } else {
      AddedByte(plain, rk, 0, i, d);
    }
  }

  lemma FirstKeyIsPlain(rk: RoundKeys, plain: State, i: nat, d: bv8)
    requires i < BLOCK
    ensures Cipher(With(rk, i, d), plain) == Cipher(rk, Flip(plain, i, d))
  {
    hide SubBytes, ShiftRows, MixColumns, AddRoundKey, With, Flip, AfterRounds;
    FirstKeyByte(rk, plain, ROUNDS - 1, i, d);
    AddedElsewhere(ShiftRows(SubBytes(AfterRounds(rk, Flip(plain, i, d), ROUNDS - 1))), rk, ROUNDS, i, d);
  }
}
