/** AES-128 encryption (src/crypto/aes.c) against FIPS 197. */
module Aes {
  import opened AesTables
  import opened Gf256

  const BLOCK := 16
  const ROUNDS := 10
  const ROUND_KEYS := 176

  /** The state, byte (r, c) at index r + 4 * c (FIPS 197 section 3.4). */
  type State = s: seq<bv8> | |s| == BLOCK witness seq(BLOCK, _ => 0)
  type RoundKeys = k: seq<bv8> | |k| == ROUND_KEYS witness seq(ROUND_KEYS, _ => 0)

  // ----- The cipher of section 5.1 and its inverse of section 5.3 ----------

  function SubBytes(s: State): State {
    seq(BLOCK, i requires 0 <= i < BLOCK => Sbox(s[i]))
  }

  function InvSubBytes(s: State): State {
    seq(BLOCK, i requires 0 <= i < BLOCK => InvSbox(s[i]))
  }

  /** The index in the row of i, k columns further on, cyclically. */
  function Along(i: nat, k: nat): nat {
    (i + 4 * k) % BLOCK
  }

  /** Row r moves left by r: s'[r, c] = s[r, (c + r) mod 4]. */
  function ShiftRows(s: State): State {
    seq(BLOCK, i requires 0 <= i < BLOCK => s[Along(i, i % 4)])
  }

  function InvShiftRows(s: State): State {
    seq(BLOCK, i requires 0 <= i < BLOCK => s[Along(i, 4 - i % 4)])
  }

  type Word = w: seq<bv8> | |w| == 4 witness [0, 0, 0, 0]

  function Column(s: State, c: nat): Word
    requires c < 4
  {
    s[4 * c..4 * c + 4]
  }

  function MixColumn(w: Word): Word {
    [MixByte(w[0], w[1], w[2], w[3]), MixByte(w[1], w[2], w[3], w[0]),
     MixByte(w[2], w[3], w[0], w[1]), MixByte(w[3], w[0], w[1], w[2])]
  }

  function InvMixColumn(w: Word): Word {
    [InvMixByte(w[0], w[1], w[2], w[3]), InvMixByte(w[1], w[2], w[3], w[0]),
     InvMixByte(w[2], w[3], w[0], w[1]), InvMixByte(w[3], w[0], w[1], w[2])]
  }

  function MixColumns(s: State): State {
    MixColumn(Column(s, 0)) + MixColumn(Column(s, 1)) + MixColumn(Column(s, 2)) + MixColumn(Column(s, 3))
  }

  function InvMixColumns(s: State): State {
    InvMixColumn(Column(s, 0)) + InvMixColumn(Column(s, 1)) + InvMixColumn(Column(s, 2)) + InvMixColumn(Column(s, 3))
  }

  function AddRoundKey(s: State, rk: RoundKeys, round: nat): State
    requires round <= ROUNDS
  {
    seq(BLOCK, i requires 0 <= i < BLOCK => s[i] ^ rk[BLOCK * round + i])
  }

  /** The state after the initial key addition and `n` full rounds. */
  function AfterRounds(rk: RoundKeys, s: State, n: nat): State
    requires n < ROUNDS
  {
    if n == 0 then AddRoundKey(s, rk, 0)
    else AddRoundKey(MixColumns(ShiftRows(SubBytes(AfterRounds(rk, s, n - 1)))), rk, n)
  }

  function Cipher(rk: RoundKeys, plain: State): State {
    AddRoundKey(ShiftRows(SubBytes(AfterRounds(rk, plain, ROUNDS - 1))), rk, ROUNDS)
  }

  /** Undoes `n` full rounds and the initial key addition. */
  function UndoRounds(rk: RoundKeys, s: State, n: nat): State
    requires n < ROUNDS
    decreases n
  {
    if n == 0 then AddRoundKey(s, rk, 0)
    else UndoRounds(rk, InvSubBytes(InvShiftRows(InvMixColumns(AddRoundKey(s, rk, n)))), n - 1)
  }

  function InvCipher(rk: RoundKeys, secret: State): State {
    UndoRounds(rk, InvSubBytes(InvShiftRows(AddRoundKey(secret, rk, ROUNDS))), ROUNDS - 1)
  }

  // ----- The key schedule of section 5.2 -----------------------------------

  function Rcon(i: nat): bv8
    requires i > 0
  {
    if i == 1 then 0x01 else Xtime(Rcon(i - 1))
  }

  function XorWord(a: Word, b: Word): Word {
    [a[0] ^ b[0], a[1] ^ b[1], a[2] ^ b[2], a[3] ^ b[3]]
  }

  function RotWord(a: Word): Word {
    [a[1], a[2], a[3], a[0]]
  }

  function SubWord(a: Word): Word {
    [Sbox(a[0]), Sbox(a[1]), Sbox(a[2]), Sbox(a[3])]
  }

  /** The word that key word i adds to key word i - 4; `temp` is key word i - 1. */
  function Schedule(temp: Word, i: nat): Word
    requires i >= 4
  {
    if i % 4 == 0 then XorWord(SubWord(RotWord(temp)), [Rcon(i / 4), 0, 0, 0]) else temp
  }

  function KeyWord(key: State, i: nat): Word {
    if i < 4 then key[4 * i..4 * i + 4]
    else XorWord(KeyWord(key, i - 4), Schedule(KeyWord(key, i - 1), i))
  }

  /** The first n words of the round key array. */
  ghost predicate ScheduledUpTo(key: State, rk: RoundKeys, n: nat)
    requires n <= 44
  {
    forall i :: 0 <= i < n ==> rk[4 * i..4 * i + 4] == KeyWord(key, i)
  }

  ghost predicate IsKeySchedule(key: State, rk: RoundKeys) {
    ScheduledUpTo(key, rk, 44)
  }

  // ----- The inverse cipher undoes the cipher ------------------------------

  lemma ShiftRowsInverse(s: State)
    ensures InvShiftRows(ShiftRows(s)) == s && ShiftRows(InvShiftRows(s)) == s
  {
    forall i: nat | i < BLOCK
      ensures InvShiftRows(ShiftRows(s))[i] == s[i] && ShiftRows(InvShiftRows(s))[i] == s[i]
    {
      AlongInverse(i);
    }
  }

  lemma AlongInverse(i: nat)
    requires i < BLOCK
    ensures var j := Along(i, i % 4); Along(j, 4 - j % 4) == i
    ensures var j := Along(i, 4 - i % 4); Along(j, j % 4) == i
  {
    AlongBack(i, i % 4, 4 - i % 4);
    AlongBack(i, 4 - i % 4, i % 4);
  }

  lemma AlongBack(i: nat, j: nat, k: nat)
    requires i < BLOCK && j + k == 4
    ensures Along(i, j) % 4 == i % 4
    ensures Along(Along(i, j), k) == i
  {
    var wrapped := i + 4 * j >= BLOCK;
    assert Along(i, j) == if wrapped then i + 4 * j - BLOCK else i + 4 * j;
  }

  lemma SubBytesInverse(s: State)
    ensures InvSubBytes(SubBytes(s)) == s && SubBytes(InvSubBytes(s)) == s
  {
    forall i | 0 <= i < BLOCK ensures InvSbox(Sbox(s[i])) == s[i] && Sbox(InvSbox(s[i])) == s[i] {
      SboxInverse(s[i]);
    }
  }

  lemma XorInverse(a: bv8, k: bv8)
    ensures (a ^ k) ^ k == a
  {
  }

  lemma AddRoundKeyInverse(s: State, rk: RoundKeys, round: nat)
    requires round <= ROUNDS
    ensures AddRoundKey(AddRoundKey(s, rk, round), rk, round) == s
  {
    forall i | 0 <= i < BLOCK ensures (s[i] ^ rk[BLOCK * round + i]) ^ rk[BLOCK * round + i] == s[i] {
      XorInverse(s[i], rk[BLOCK * round + i]);
    }
  }

  lemma MixColumnInverse(w: Word)
    ensures InvMixColumn(MixColumn(w)) == w && MixColumn(InvMixColumn(w)) == w
  {
    hide MixByte, InvMixByte;
    var a, b, c, d := w[0], w[1], w[2], w[3];
    MixInverse(a, b, c, d);
    MixInverse(b, c, d, a);
    MixInverse(c, d, a, b);
    MixInverse(d, a, b, c);
    UnmixInverse(a, b, c, d);
    UnmixInverse(b, c, d, a);
    UnmixInverse(c, d, a, b);
    UnmixInverse(d, a, b, c);
  }

  lemma MixColumnsInverse(s: State)
    ensures InvMixColumns(MixColumns(s)) == s && MixColumns(InvMixColumns(s)) == s
  {
    hide MixColumn, InvMixColumn;
    MixColumnInverse(Column(s, 0));
    MixColumnInverse(Column(s, 1));
    MixColumnInverse(Column(s, 2));
    MixColumnInverse(Column(s, 3));
    assert s == Column(s, 0) + Column(s, 1) + Column(s, 2) + Column(s, 3);
    var m := MixColumns(s);
    assert Column(m, 0) == MixColumn(Column(s, 0)) && Column(m, 1) == MixColumn(Column(s, 1));
    assert Column(m, 2) == MixColumn(Column(s, 2)) && Column(m, 3) == MixColumn(Column(s, 3));
    var u := InvMixColumns(s);
    assert Column(u, 0) == InvMixColumn(Column(s, 0)) && Column(u, 1) == InvMixColumn(Column(s, 1));
    assert Column(u, 2) == InvMixColumn(Column(s, 2)) && Column(u, 3) == InvMixColumn(Column(s, 3));
  }

  lemma RoundInverse(s: State, rk: RoundKeys, n: nat)
    requires n <= ROUNDS
    ensures InvSubBytes(InvShiftRows(InvMixColumns(AddRoundKey(AddRoundKey(MixColumns(ShiftRows(SubBytes(s))), rk, n), rk, n)))) == s
    ensures AddRoundKey(MixColumns(ShiftRows(SubBytes(InvSubBytes(InvShiftRows(InvMixColumns(AddRoundKey(s, rk, n))))))), rk, n) == s
  {
    hide SubBytes, InvSubBytes, ShiftRows, InvShiftRows, MixColumns, InvMixColumns, AddRoundKey;
    SubBytesInverse(s);
    ShiftRowsInverse(SubBytes(s));
    MixColumnsInverse(ShiftRows(SubBytes(s)));
    AddRoundKeyInverse(MixColumns(ShiftRows(SubBytes(s))), rk, n);
    var t := AddRoundKey(s, rk, n);
    MixColumnsInverse(t);
    ShiftRowsInverse(InvMixColumns(t));
    SubBytesInverse(InvShiftRows(InvMixColumns(t)));
    AddRoundKeyInverse(s, rk, n);
  }

  lemma {:induction false} RoundsInverse(rk: RoundKeys, s: State, n: nat)
    requires n < ROUNDS
    ensures UndoRounds(rk, AfterRounds(rk, s, n), n) == s
    ensures AfterRounds(rk, UndoRounds(rk, s, n), n) == s
    decreases n
  {
    hide SubBytes, InvSubBytes, ShiftRows, InvShiftRows, MixColumns, InvMixColumns, AddRoundKey;
    if n == 0 {
      AddRoundKeyInverse(s, rk, 0);
    } else {
      RoundInverse(AfterRounds(rk, s, n - 1), rk, n);
      RoundsInverse(rk, s, n - 1);
      RoundInverse(s, rk, n);
      RoundsInverse(rk, InvSubBytes(InvShiftRows(InvMixColumns(AddRoundKey(s, rk, n)))), n - 1);
    }
  }

  /** Section 5.3: for every round key array the inverse cipher recovers the
      plain text, and every block is the image of one: a bijection. */
  lemma CipherInverse(rk: RoundKeys, s: State)
    ensures InvCipher(rk, Cipher(rk, s)) == s
    ensures Cipher(rk, InvCipher(rk, s)) == s
  {
    hide SubBytes, InvSubBytes, ShiftRows, InvShiftRows, AddRoundKey, AfterRounds, UndoRounds;
    var t := AfterRounds(rk, s, ROUNDS - 1);
    SubBytesInverse(t);
    ShiftRowsInverse(SubBytes(t));
    AddRoundKeyInverse(ShiftRows(SubBytes(t)), rk, ROUNDS);
    RoundsInverse(rk, s, ROUNDS - 1);
    var u := InvShiftRows(AddRoundKey(s, rk, ROUNDS));
    RoundsInverse(rk, InvSubBytes(u), ROUNDS - 1);
    SubBytesInverse(u);
    ShiftRowsInverse(AddRoundKey(s, rk, ROUNDS));
    AddRoundKeyInverse(s, rk, ROUNDS);
  }

  // ----- The in-place code -------------------------------------------------

  /** `RCON[i / 4 - 1]`. */
  const RCON: seq<bv8> := [0x01, 0x02, 0x04, 0x08, 0x10, 0x20, 0x40, 0x80, 0x1b, 0x36]

  lemma {:induction false} RconTable(i: nat)
    requires 0 < i <= ROUNDS
    ensures RCON[i - 1] == Rcon(i)
  {
    if i > 1 {
      RconTable(i - 1);
    }
  }

  lemma FirstWords(key: State, rk: RoundKeys)
    requires rk[..BLOCK] == key[..BLOCK]
    ensures ScheduledUpTo(key, rk, 4)
  {
    forall i | 0 <= i < 4 ensures rk[4 * i..4 * i + 4] == KeyWord(key, i) {
      forall k | 4 * i <= k < 4 * i + 4 ensures rk[k] == key[k] {
        assert rk[..BLOCK][k] == key[..BLOCK][k];
      }
    }
  }

  lemma ScheduledNext(key: State, before: RoundKeys, after: RoundKeys, i: nat)
    requires i < 44 && ScheduledUpTo(key, before, i)
    requires before[..4 * i] == after[..4 * i] && after[4 * i..4 * i + 4] == KeyWord(key, i)
    ensures ScheduledUpTo(key, after, i + 1)
  {
    hide KeyWord;
    forall j | 0 <= j < i ensures after[4 * j..4 * j + 4] == KeyWord(key, j) {
      assert after[4 * j..4 * j + 4] == after[..4 * i][4 * j..4 * j + 4] == before[4 * j..4 * j + 4];
    }
  }

  method ExpandKey(key: array<bv8>, rk: array<bv8>)
    requires key.Length == BLOCK && rk.Length == ROUND_KEYS && key != rk
    modifies rk
    ensures IsKeySchedule(key[..], rk[..])
  {
    hide KeyWord;
    for i := 0 to BLOCK
      invariant forall k :: 0 <= k < i ==> rk[k] == key[k]
    {
      rk[i] := key[i];
    }
    FirstWords(key[..], rk[..]);
    for i := 4 to 44
      invariant ScheduledUpTo(key[..], rk[..], i)
    {
      ghost var before := rk[..];
      NextWord(key[..], rk, i);
      ScheduledNext(key[..], before, rk[..], i);
    }
  }

  /** The body of the expansion loop. */
  method NextWord(ghost key: State, rk: array<bv8>, i: nat)
    requires rk.Length == ROUND_KEYS && 4 <= i < 44 && ScheduledUpTo(key, rk[..], i)
    modifies rk
    ensures rk[..4 * i] == old(rk[..4 * i])
    ensures rk[4 * i..4 * i + 4] == KeyWord(key, i)
  {
    hide Sbox, KeyWord;
    assert rk[..][4 * (i - 4)..4 * (i - 4) + 4] == KeyWord(key, i - 4);
    assert rk[..][4 * (i - 1)..4 * (i - 1) + 4] == KeyWord(key, i - 1);
    var base, w := rk[4 * (i - 4)..4 * (i - 3)], rk[4 * (i - 1)..4 * i];
    ghost var prev := w;
    if i % 4 == 0 {
      w := [Sbox(w[1]) ^ RCON[i / 4 - 1], Sbox(w[2]), Sbox(w[3]), Sbox(w[0])];
    }
    NextWordBytes(key, i, base, prev, w);
    var next := [base[0] ^ w[0], base[1] ^ w[1], base[2] ^ w[2], base[3] ^ w[3]];
    StoreWord(rk, i, next);
  }

  /** The four byte stores at `a[4 * i + 0..3]`. */
  method StoreWord(a: array<bv8>, i: nat, w: Word)
    requires 4 * i + 4 <= a.Length
    modifies a
    ensures a[..4 * i] == old(a[..4 * i])
    ensures a[4 * i..4 * i + 4] == w
    ensures a[4 * i + 4..] == old(a[4 * i + 4..])
  {
    a[4 * i], a[4 * i + 1], a[4 * i + 2], a[4 * i + 3] := w[0], w[1], w[2], w[3];
    assert a[4 * i..4 * i + 4] == [a[4 * i], a[4 * i + 1], a[4 * i + 2], a[4 * i + 3]];
  }

  lemma NextWordBytes(key: State, i: nat, base: Word, prev: Word, w: Word)
    requires 4 <= i < 44 && base == KeyWord(key, i - 4) && prev == KeyWord(key, i - 1)
    requires w == if i % 4 == 0 then [Sbox(prev[1]) ^ RCON[i / 4 - 1], Sbox(prev[2]), Sbox(prev[3]), Sbox(prev[0])] else prev
    ensures KeyWord(key, i) == [base[0] ^ w[0], base[1] ^ w[1], base[2] ^ w[2], base[3] ^ w[3]]
  {
    hide Sbox, Rcon, Schedule, XorWord;
    ScheduleBytes(prev, i);
    if i % 4 == 0 {
      RconTable(i / 4);
    }
    XorBytes(base, Schedule(prev, i));
  }

  lemma XorBytes(a: Word, b: Word)
    ensures XorWord(a, b) == [a[0] ^ b[0], a[1] ^ b[1], a[2] ^ b[2], a[3] ^ b[3]]
  {
  }

  lemma XorRcon(w: Word, r: bv8)
    ensures XorWord(w, [r, 0, 0, 0]) == [w[0] ^ r, w[1], w[2], w[3]]
  {
  }

  lemma ScheduleBytes(w: Word, i: nat)
    requires i >= 4
    ensures Schedule(w, i) ==
      if i % 4 == 0 then [Sbox(w[1]) ^ Rcon(i / 4), Sbox(w[2]), Sbox(w[3]), Sbox(w[0])] else w
  {
    hide Sbox, Rcon, XorWord;
    XorRcon(SubWord(RotWord(w)), if i % 4 == 0 then Rcon(i / 4) else 0);
  }

  method SubBytesInPlace(state: array<bv8>)
    requires state.Length == BLOCK
    modifies state
    ensures state[..] == SubBytes(old(state[..]))
  {
    hide Sbox;
    for i := 0 to BLOCK
      invariant forall k :: 0 <= k < BLOCK ==> state[k] == if k < i then Sbox(old(state[k])) else old(state[k])
    {
      state[i] := Sbox(state[i]);
    }
  }

  lemma ShiftRowsDisplay(s: State, t: State)
    requires t[0] == s[0] && t[4] == s[4] && t[8] == s[8] && t[12] == s[12]
    requires t[1] == s[5] && t[5] == s[9] && t[9] == s[13] && t[13] == s[1]
    requires t[2] == s[10] && t[6] == s[14] && t[10] == s[2] && t[14] == s[6]
    requires t[3] == s[15] && t[7] == s[3] && t[11] == s[7] && t[15] == s[11]
    ensures t == ShiftRows(s)
  {
    ShiftedRows(s);
    hide ShiftRows;
    forall i | 0 <= i < BLOCK ensures t[i] == ShiftRows(s)[i] {
      if i < 4 {} else if i < 8 {} else if i < 12 {} else {}
    }
  }

  lemma ShiftedRows(s: State)
    ensures var r := ShiftRows(s);
      && r[0] == s[0] && r[4] == s[4] && r[8] == s[8] && r[12] == s[12]
      && r[1] == s[5] && r[5] == s[9] && r[9] == s[13] && r[13] == s[1]
      && r[2] == s[10] && r[6] == s[14] && r[10] == s[2] && r[14] == s[6]
      && r[3] == s[15] && r[7] == s[3] && r[11] == s[7] && r[15] == s[11]
  {
  }

  method ShiftRowsInPlace(state: array<bv8>)
    requires state.Length == BLOCK
    modifies state
    ensures state[..] == ShiftRows(old(state[..]))
  {
    hide ShiftRows;
    ghost var s := state[..];
    var t := state[1];
    state[1] := state[5];
    state[5] := state[9];
    state[9] := state[13];
    state[13] := t;
    ghost var s1 := state[..];
    assert s1 == s[1 := s[5]][5 := s[9]][9 := s[13]][13 := s[1]];
    t := state[2];
    state[2] := state[10];
    state[10] := t;
    t := state[6];
    state[6] := state[14];
    state[14] := t;
    ghost var s2 := state[..];
    assert s2 == s1[2 := s1[10]][10 := s1[2]][6 := s1[14]][14 := s1[6]];
    t := state[3];
    state[3] := state[15];
    state[15] := state[11];
    state[11] := state[7];
    state[7] := t;
    ghost var s3 := state[..];
    assert s3 == s2[3 := s2[15]][15 := s2[11]][11 := s2[7]][7 := s2[3]];
    ShiftRowsDisplay(s, s3);
  }

  /** The doubling trick is row r of the matrix product of section 5.1.3. */
  lemma MixTrick(a: bv8, b: bv8, c: bv8, d: bv8, t: bv8)
    requires t == a ^ b ^ c ^ d
    ensures a ^ t ^ Xtime(a ^ b) == MixByte(a, b, c, d)
  {
    hide Xtime, MixByte;
    MixByteXor(a, b, c, d);
    XtimeXor(a, b);
    MixTrickXor(a, b, c, d, t, Xtime(a), Xtime(b));
  }

  lemma XtimeXor(a: bv8, b: bv8)
    ensures Xtime(a ^ b) == Xtime(a) ^ Xtime(b)
  {
    hide Xtime;
    XtimeAdd(a, b);
  }

  lemma MixByteXor(a: bv8, b: bv8, c: bv8, d: bv8)
    ensures MixByte(a, b, c, d) == ((Xtime(a) ^ (Xtime(b) ^ b)) ^ c) ^ d
  {
    hide Xtime, Gmul;
    Multiples(a);
    Multiples(b);
    Multiples(c);
    Multiples(d);
  }

  lemma MixTrickXor(a: bv8, b: bv8, c: bv8, d: bv8, t: bv8, xa: bv8, xb: bv8)
    requires t == a ^ b ^ c ^ d
    ensures a ^ t ^ (xa ^ xb) == ((xa ^ (xb ^ b)) ^ c) ^ d
  {
  }

  function Parity(a: bv8, b: bv8, c: bv8, d: bv8): bv8 {
    a ^ b ^ c ^ d
  }

  lemma ParityRotate(a: bv8, b: bv8, c: bv8, d: bv8)
    ensures Parity(a, b, c, d) == Parity(b, c, d, a)
  {
  }

  method MixRow(a: bv8, b: bv8, t: bv8, ghost c: bv8, ghost d: bv8) returns (r: bv8)
    requires t == Parity(a, b, c, d)
    ensures r == MixByte(a, b, c, d)
  {
    hide MixByte, Xtime;
    MixTrick(a, b, c, d, t);
    r := a ^ t ^ Xtime(a ^ b);
  }

  lemma ColumnOfMix(s: State, c: nat)
    requires c < 4
    ensures MixColumns(s)[4 * c..4 * c + 4] == MixColumn(Column(s, c))
  {
    hide MixColumn;
  }

  /** The first c columns are mixed, the others as they were. */
  ghost predicate MixedSoFar(was: State, now: State, c: nat)
    requires c <= 4
  {
    now[..4 * c] == MixColumns(was)[..4 * c] && now[4 * c..] == was[4 * c..]
  }

  lemma MixedOneMore(was: State, before: State, now: State, c: nat)
    requires c < 4 && MixedSoFar(was, before, c)
    requires now[..4 * c] == before[..4 * c] && now[4 * c + 4..] == before[4 * c + 4..]
    requires now[4 * c..4 * c + 4] == MixColumn(before[4 * c..4 * c + 4])
    ensures MixedSoFar(was, now, c + 1)
  {
    ColumnOfMix(was, c);
    hide MixColumn, MixColumns;
    var mixed := MixColumns(was);
    ColumnAt(was, before, c);
    Slices(now, c);
    Slices(mixed, c);
    Behind(was, before, c);
  }

  lemma Slices(s: State, c: nat)
    requires c < 4
    ensures s[..4 * (c + 1)] == s[..4 * c] + s[4 * c..4 * c + 4]
  {
  }

  lemma ColumnAt(was: State, before: State, c: nat)
    requires c < 4 && before[4 * c..] == was[4 * c..]
    ensures before[4 * c..4 * c + 4] == Column(was, c)
  {
    assert before[4 * c..][..4] == was[4 * c..][..4];
  }

  lemma Behind(was: State, before: State, c: nat)
    requires c < 4 && before[4 * c..] == was[4 * c..]
    ensures before[4 * c + 4..] == was[4 * c + 4..]
  {
    assert before[4 * c..][4..] == was[4 * c..][4..];
  }

  method MixColumnsInPlace(state: array<bv8>)
    requires state.Length == BLOCK
    modifies state
    ensures state[..] == MixColumns(old(state[..]))
  {
    hide MixColumn, MixColumns;
    for c := 0 to 4
      invariant MixedSoFar(old(state[..]), state[..], c)
    {
      ghost var before := state[..];
      MixOneColumn(state, c);
      MixedOneMore(old(state[..]), before, state[..], c);
    }
    assert state[..] == state[..][..BLOCK];
  }

  /** The body of the column loop. */
  method MixOneColumn(state: array<bv8>, c: nat)
    requires state.Length == BLOCK && c < 4
    modifies state
    ensures state[4 * c..4 * c + 4] == MixColumn(old(state[4 * c..4 * c + 4]))
    ensures state[..4 * c] == old(state[..4 * c]) && state[4 * c + 4..] == old(state[4 * c + 4..])
  {
    hide MixByte, Parity;
    var a := state[4 * c..4 * c + 4];
    var t := Parity(a[0], a[1], a[2], a[3]);
    ParityRotate(a[0], a[1], a[2], a[3]);
    ParityRotate(a[1], a[2], a[3], a[0]);
    ParityRotate(a[2], a[3], a[0], a[1]);
    var m0 := MixRow(a[0], a[1], t, a[2], a[3]);
    var m1 := MixRow(a[1], a[2], t, a[3], a[0]);
    var m2 := MixRow(a[2], a[3], t, a[0], a[1]);
    var m3 := MixRow(a[3], a[0], t, a[1], a[2]);
    StoreWord(state, c, [m0, m1, m2, m3]);
  }

  method AddRoundKeyInPlace(state: array<bv8>, rk: array<bv8>, round: nat)
    requires state.Length == BLOCK && rk.Length == ROUND_KEYS && state != rk && round <= ROUNDS
    modifies state
    ensures state[..] == AddRoundKey(old(state[..]), rk[..], round)
  {
    for i := 0 to BLOCK
      invariant forall k :: 0 <= k < i ==> state[k] == AddRoundKey(old(state[..]), rk[..], round)[k]
      invariant forall k :: i <= k < BLOCK ==> state[k] == old(state[k])
    {
      state[i] := state[i] ^ rk[round * BLOCK + i];
    }
  }

  /** The result is the FIPS 197 cipher also when `ciphertext` is the very
      array that holds the plain text. */
  method EncryptBlock(rk: array<bv8>, plaintext: array<bv8>, ciphertext: array<bv8>)
    requires rk.Length == ROUND_KEYS && plaintext.Length == BLOCK && ciphertext.Length == BLOCK
    requires rk != ciphertext
    modifies ciphertext
    ensures ciphertext[..] == Cipher(rk[..], old(plaintext[..]))
  {
    hide SubBytes, ShiftRows, MixColumns;
    for i := 0 to BLOCK
      invariant forall k :: 0 <= k < i ==> ciphertext[k] == AddRoundKey(old(plaintext[..]), rk[..], 0)[k]
      invariant forall k :: i <= k < BLOCK ==> plaintext[k] == old(plaintext[k])
    {
      ciphertext[i] := plaintext[i] ^ rk[i];
    }
    for round := 1 to ROUNDS
      invariant ciphertext[..] == AfterRounds(rk[..], old(plaintext[..]), round - 1)
    {
      SubBytesInPlace(ciphertext);
      ShiftRowsInPlace(ciphertext);
      MixColumnsInPlace(ciphertext);
      AddRoundKeyInPlace(ciphertext, rk, round);
    }
    SubBytesInPlace(ciphertext);
    ShiftRowsInPlace(ciphertext);
    AddRoundKeyInPlace(ciphertext, rk, ROUNDS);
  }
}
