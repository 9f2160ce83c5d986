/** The field GF(2^8) of FIPS 197 section 4 and the two column matrices. */
module Gf256 {

  /** Multiplication by x modulo x^8 + x^4 + x^3 + x + 1. */
  function Xtime(b: bv8): bv8 {
    if b & 0x80 != 0 then (b << 1) ^ 0x1b else b << 1
  }

  /** Addition in the field.  Proofs of field identities hide this definition. */
  function Add(a: bv8, b: bv8): bv8 {
    a ^ b
  }

  function Sum(a: bv8, b: bv8, c: bv8, d: bv8): bv8 {
    Add(Add(Add(a, b), c), d)
  }

  /** The product of two field elements: section 4.2.1 sums the multiples
      x^k * b for the bits k of a. */
  function Gmul(a: bv8, b: bv8): bv8 {
    var b1 := Xtime(b);
    var b2 := Xtime(b1);
    var b3 := Xtime(b2);
    var b4 := Xtime(b3);
    var b5 := Xtime(b4);
    var b6 := Xtime(b5);
    var b7 := Xtime(b6);
    (if a & 0x01 != 0 then b else 0) ^ (if a & 0x02 != 0 then b1 else 0)
    ^ (if a & 0x04 != 0 then b2 else 0) ^ (if a & 0x08 != 0 then b3 else 0)
    ^ (if a & 0x10 != 0 then b4 else 0) ^ (if a & 0x20 != 0 then b5 else 0)
    ^ (if a & 0x40 != 0 then b6 else 0) ^ (if a & 0x80 != 0 then b7 else 0)
  }

  // ----- Field identities -------------------------------------------------

  /** Doubling is linear. */
  lemma XtimeAdd(a: bv8, b: bv8)
    ensures Xtime(Add(a, b)) == Add(Xtime(a), Xtime(b))
  {
    if a & 0x80 == 0 {
      if b & 0x80 == 0 {} else {}
    } else {
      if b & 0x80 == 0 {} else {}
    }
  }

  lemma AddComm(a: bv8, b: bv8)
    ensures Add(a, b) == Add(b, a)
  {
  }

  lemma AddAssoc(a: bv8, b: bv8, c: bv8)
    ensures Add(Add(a, b), c) == Add(a, Add(b, c))
  {
  }

  lemma AddPairs(a1: bv8, a2: bv8, b1: bv8, b2: bv8)
    ensures Add(Add(a1, b1), Add(a2, b2)) == Add(Add(a1, a2), Add(b1, b2))
  {
    hide Add;
    AddAssoc(a1, b1, Add(a2, b2));
    AddAssoc(b1, a2, b2);
    AddComm(b1, a2);
    AddAssoc(a2, b1, b2);
    AddAssoc(a1, a2, Add(b1, b2));
  }

  lemma AddZero(a: bv8)
    ensures Sum(a, 0, 0, 0) == Sum(0, a, 0, 0) == Sum(0, 0, a, 0) == Sum(0, 0, 0, a) == a
  {
  }

  /** The coefficients of the two matrices of sections 5.1.3 and 5.3.3. */
  predicate Coefficient(k: bv8) {
    k == 0x01 || k == 0x02 || k == 0x03 || k == 0x09 || k == 0x0b || k == 0x0d || k == 0x0e
  }

  lemma Multiples(b: bv8)
    ensures var b1 := Xtime(b); var b2 := Xtime(b1); var b3 := Xtime(b2);
      && Gmul(0x01, b) == b && Gmul(0x02, b) == b1 && Gmul(0x03, b) == Add(b1, b)
      && Gmul(0x09, b) == Add(b3, b) && Gmul(0x0b, b) == Add(b3, Add(b1, b))
      && Gmul(0x0d, b) == Add(b3, Add(b2, b)) && Gmul(0x0e, b) == Add(b3, Add(b2, b1))
  {
  }

  /** Multiplication by a coefficient is linear. */
  lemma GmulAdd(k: bv8, a: bv8, b: bv8)
    requires Coefficient(k)
    ensures Gmul(k, Add(a, b)) == Add(Gmul(k, a), Gmul(k, b))
  {
    hide Add, Gmul, Xtime;
    var a1, b1 := Xtime(a), Xtime(b);
    var a2, b2 := Xtime(a1), Xtime(b1);
    var a3, b3 := Xtime(a2), Xtime(b2);
    XtimeAdd(a, b);
    XtimeAdd(a1, b1);
    XtimeAdd(a2, b2);
    Multiples(Add(a, b));
    Multiples(a);
    Multiples(b);
    AddPairs(a1, a, b1, b);
    AddPairs(a2, a, b2, b);
    AddPairs(a2, a1, b2, b1);
    AddPairs(a3, a, b3, b);
    AddPairs(a3, Add(a1, a), b3, Add(b1, b));
    AddPairs(a3, Add(a2, a), b3, Add(b2, b));
    AddPairs(a3, Add(a2, a1), b3, Add(b2, b1));
  }

  lemma GmulSum(k: bv8, a: bv8, b: bv8, c: bv8, d: bv8)
    requires Coefficient(k)
    ensures Gmul(k, Sum(a, b, c, d)) == Sum(Gmul(k, a), Gmul(k, b), Gmul(k, c), Gmul(k, d))
  {
    hide Add, Gmul;
    GmulAdd(k, a, b);
    GmulAdd(k, Add(a, b), c);
    GmulAdd(k, Add(Add(a, b), c), d);
  }

  lemma SumAdd(a0: bv8, a1: bv8, a2: bv8, a3: bv8, b0: bv8, b1: bv8, b2: bv8, b3: bv8)
    ensures Add(Sum(a0, a1, a2, a3), Sum(b0, b1, b2, b3))
         == Sum(Add(a0, b0), Add(a1, b1), Add(a2, b2), Add(a3, b3))
  {
    hide Add;
    AddPairs(Add(Add(a0, a1), a2), Add(Add(b0, b1), b2), a3, b3);
    AddPairs(Add(a0, a1), Add(b0, b1), a2, b2);
    AddPairs(a0, b0, a1, b1);
  }

  lemma SumRotate(a: bv8, b: bv8, c: bv8, d: bv8)
    ensures Sum(a, b, c, d) == Sum(b, c, d, a)
  {
    hide Add;
    AddAssoc(a, b, c);
    AddAssoc(a, Add(b, c), d);
    AddComm(a, Add(Add(b, c), d));
  }

  /** The sum of a 4 by 4 table by rows and by columns, where row k of the left
      side starts at its entry k. */
  lemma SumTable(a0: bv8, a1: bv8, a2: bv8, a3: bv8, b0: bv8, b1: bv8, b2: bv8, b3: bv8,
                 c0: bv8, c1: bv8, c2: bv8, c3: bv8, d0: bv8, d1: bv8, d2: bv8, d3: bv8)
    ensures Sum(Sum(a0, a1, a2, a3), Sum(b1, b2, b3, b0), Sum(c2, c3, c0, c1), Sum(d3, d0, d1, d2))
         == Sum(Sum(a0, b0, c0, d0), Sum(a1, b1, c1, d1), Sum(a2, b2, c2, d2), Sum(a3, b3, c3, d3))
  {
    hide Add;
    SumRotate(b0, b1, b2, b3);
    SumRotate(c0, c1, c2, c3);
    SumRotate(c1, c2, c3, c0);
    SumRotate(d3, d0, d1, d2);
    SumAdd(a0, a1, a2, a3, b0, b1, b2, b3);
    SumAdd(Add(a0, b0), Add(a1, b1), Add(a2, b2), Add(a3, b3), c0, c1, c2, c3);
    SumAdd(Add(Add(a0, b0), c0), Add(Add(a1, b1), c1), Add(Add(a2, b2), c2), Add(Add(a3, b3), c3), d0, d1, d2, d3);
  }

  // ----- The column matrices ----------------------------------------------

  /** Row r of the matrix product of section 5.1.3, on the column entries
      r, r + 1, r + 2, r + 3 modulo 4; and the same for section 5.3.3. */
  function MixByte(a: bv8, b: bv8, c: bv8, d: bv8): bv8 {
    Sum(Gmul(0x02, a), Gmul(0x03, b), Gmul(0x01, c), Gmul(0x01, d))
  }

  function InvMixByte(a: bv8, b: bv8, c: bv8, d: bv8): bv8 {
    Sum(Gmul(0x0e, a), Gmul(0x0b, b), Gmul(0x0d, c), Gmul(0x09, d))
  }

  /** The entries of the product of the two circulant matrices: the diagonal
      is 1 and the rest is 0, whichever matrix comes first. */
  lemma DiagonalEntries(a: bv8)
    ensures Sum(Gmul(0x0e, Gmul(2, a)), Gmul(0x0b, Gmul(1, a)), Gmul(0x0d, Gmul(1, a)), Gmul(0x09, Gmul(3, a))) == a
  {
  }

  lemma InvDiagonalEntries(a: bv8)
    ensures Sum(Gmul(2, Gmul(0x0e, a)), Gmul(3, Gmul(0x09, a)), Gmul(1, Gmul(0x0d, a)), Gmul(1, Gmul(0x0b, a))) == a
  {
  }

  lemma MatrixEntries(a: bv8)
    ensures Sum(Gmul(0x0e, Gmul(3, a)), Gmul(0x0b, Gmul(2, a)), Gmul(0x0d, Gmul(1, a)), Gmul(0x09, Gmul(1, a))) == 0
    ensures Sum(Gmul(0x0e, Gmul(1, a)), Gmul(0x0b, Gmul(3, a)), Gmul(0x0d, Gmul(2, a)), Gmul(0x09, Gmul(1, a))) == 0
    ensures Sum(Gmul(0x0e, Gmul(1, a)), Gmul(0x0b, Gmul(1, a)), Gmul(0x0d, Gmul(3, a)), Gmul(0x09, Gmul(2, a))) == 0
  {
  }

  lemma InvMatrixEntries(a: bv8)
    ensures Sum(Gmul(2, Gmul(0x0b, a)), Gmul(3, Gmul(0x0e, a)), Gmul(1, Gmul(0x09, a)), Gmul(1, Gmul(0x0d, a))) == 0
    ensures Sum(Gmul(2, Gmul(0x0d, a)), Gmul(3, Gmul(0x0b, a)), Gmul(1, Gmul(0x0e, a)), Gmul(1, Gmul(0x09, a))) == 0
    ensures Sum(Gmul(2, Gmul(0x09, a)), Gmul(3, Gmul(0x0d, a)), Gmul(1, Gmul(0x0b, a)), Gmul(1, Gmul(0x0e, a))) == 0
  {
  }

  lemma MixInverse(a: bv8, b: bv8, c: bv8, d: bv8)
    ensures InvMixByte(MixByte(a, b, c, d), MixByte(b, c, d, a), MixByte(c, d, a, b), MixByte(d, a, b, c)) == a
  {
    hide Sum, Gmul;
    GmulSum(0x0e, Gmul(2, a), Gmul(3, b), Gmul(1, c), Gmul(1, d));
    GmulSum(0x0b, Gmul(2, b), Gmul(3, c), Gmul(1, d), Gmul(1, a));
    GmulSum(0x0d, Gmul(2, c), Gmul(3, d), Gmul(1, a), Gmul(1, b));
    GmulSum(0x09, Gmul(2, d), Gmul(3, a), Gmul(1, b), Gmul(1, c));
    SumTable(Gmul(0x0e, Gmul(2, a)), Gmul(0x0e, Gmul(3, b)), Gmul(0x0e, Gmul(1, c)), Gmul(0x0e, Gmul(1, d)),
             Gmul(0x0b, Gmul(1, a)), Gmul(0x0b, Gmul(2, b)), Gmul(0x0b, Gmul(3, c)), Gmul(0x0b, Gmul(1, d)),
             Gmul(0x0d, Gmul(1, a)), Gmul(0x0d, Gmul(1, b)), Gmul(0x0d, Gmul(2, c)), Gmul(0x0d, Gmul(3, d)),
             Gmul(0x09, Gmul(3, a)), Gmul(0x09, Gmul(1, b)), Gmul(0x09, Gmul(1, c)), Gmul(0x09, Gmul(2, d)));
    DiagonalEntries(a);
    MatrixEntries(b);
    MatrixEntries(c);
    MatrixEntries(d);
    AddZero(a);
  }

  lemma UnmixInverse(a: bv8, b: bv8, c: bv8, d: bv8)
    ensures MixByte(InvMixByte(a, b, c, d), InvMixByte(b, c, d, a), InvMixByte(c, d, a, b), InvMixByte(d, a, b, c)) == a
  {
    hide Sum, Gmul;
    GmulSum(0x02, Gmul(0x0e, a), Gmul(0x0b, b), Gmul(0x0d, c), Gmul(0x09, d));
    GmulSum(0x03, Gmul(0x0e, b), Gmul(0x0b, c), Gmul(0x0d, d), Gmul(0x09, a));
    GmulSum(0x01, Gmul(0x0e, c), Gmul(0x0b, d), Gmul(0x0d, a), Gmul(0x09, b));
    GmulSum(0x01, Gmul(0x0e, d), Gmul(0x0b, a), Gmul(0x0d, b), Gmul(0x09, c));
    SumTable(Gmul(2, Gmul(0x0e, a)), Gmul(2, Gmul(0x0b, b)), Gmul(2, Gmul(0x0d, c)), Gmul(2, Gmul(0x09, d)),
             Gmul(3, Gmul(0x09, a)), Gmul(3, Gmul(0x0e, b)), Gmul(3, Gmul(0x0b, c)), Gmul(3, Gmul(0x0d, d)),
             Gmul(1, Gmul(0x0d, a)), Gmul(1, Gmul(0x09, b)), Gmul(1, Gmul(0x0e, c)), Gmul(1, Gmul(0x0b, d)),
             Gmul(1, Gmul(0x0b, a)), Gmul(1, Gmul(0x0d, b)), Gmul(1, Gmul(0x09, c)), Gmul(1, Gmul(0x0e, d)));
    InvDiagonalEntries(a);
    InvMatrixEntries(b);
    InvMatrixEntries(c);
    InvMatrixEntries(d);
    AddZero(a);
  }
}
