/** What the steps of AES are: the byte substitution is inversion in GF(2^8) followed by an
    affine map of the bits, the column mixing a product of polynomials. */
module AesField {
  import opened AesTables
  import opened Aes
  import opened AesCipher

  /** The affine transformation of section 5.1.1 of FIPS 197: bit i of the result is the sum of
      bits i, i+4, i+5, i+6 and i+7 of y, modulo 8, and bit i of 0x63. */
  function Affine(y: bv8): bv8 {
    y ^ y.RotateLeft(1) ^ y.RotateLeft(2) ^ y.RotateLeft(3) ^ y.RotateLeft(4) ^ 0x63
  }

  function Unaffine(s: bv8): bv8 {
    s.RotateLeft(1) ^ s.RotateLeft(3) ^ s.RotateLeft(6) ^ 0x05
  }

  lemma AffineInverse(y: bv8)
    ensures Unaffine(Affine(y)) == y && Affine(Unaffine(y)) == y
  {
  }

  /** What the last bit of b contributes to a * b. */
  function One(a: bv8, b: bv8): bv8 {
    (b & 1) * a
  }

  /** What the last two bits contribute. */
  function Two(a: bv8, b: bv8): bv8 {
    One(a, b) ^ One(Xtime(a), b >> 1)
  }

  /** The product without recursion. */
  function Product(a: bv8, b: bv8): bv8 {
    Two(a, b) ^ Two(X2(a), b >> 2) ^ Two(X2(X2(a)), b >> 4) ^ Two(X2(X2(X2(a))), b >> 6)
  }

  lemma Row0(c: bv8, w: bv8)
    requires c < 16 && 0x00 | c != 0
    ensures Product(0x00 | c, Unaffine(Sbox0(c))) == 1
    ensures w != 0 ==> Product(0x00 | c, w) != 0
  {
    match c {
      case 0 => case 1 => case 2 => case 3 => case 4 => case 5 => case 6 => case 7 =>
      case 8 => case 9 => case 10 => case 11 => case 12 => case 13 => case 14 => case _ =>
    }
  }

  lemma Row1(c: bv8, w: bv8)
    requires c < 16 && 0x10 | c != 0
    ensures Product(0x10 | c, Unaffine(Sbox1(c))) == 1
    ensures w != 0 ==> Product(0x10 | c, w) != 0
  {
    match c {
      case 0 => case 1 => case 2 => case 3 => case 4 => case 5 => case 6 => case 7 =>
      case 8 => case 9 => case 10 => case 11 => case 12 => case 13 => case 14 => case _ =>
    }
  }

  lemma Row2(c: bv8, w: bv8)
    requires c < 16 && 0x20 | c != 0
    ensures Product(0x20 | c, Unaffine(Sbox2(c))) == 1
    ensures w != 0 ==> Product(0x20 | c, w) != 0
  {
    match c {
      case 0 => case 1 => case 2 => case 3 => case 4 => case 5 => case 6 => case 7 =>
      case 8 => case 9 => case 10 => case 11 => case 12 => case 13 => case 14 => case _ =>
    }
  }

  lemma Row3(c: bv8, w: bv8)
    requires c < 16 && 0x30 | c != 0
    ensures Product(0x30 | c, Unaffine(Sbox3(c))) == 1
    ensures w != 0 ==> Product(0x30 | c, w) != 0
  {
    match c {
      case 0 => case 1 => case 2 => case 3 => case 4 => case 5 => case 6 => case 7 =>
      case 8 => case 9 => case 10 => case 11 => case 12 => case 13 => case 14 => case _ =>
    }
  }

  lemma Row4(c: bv8, w: bv8)
    requires c < 16 && 0x40 | c != 0
    ensures Product(0x40 | c, Unaffine(Sbox4(c))) == 1
    ensures w != 0 ==> Product(0x40 | c, w) != 0
  {
    match c {
      case 0 => case 1 => case 2 => case 3 => case 4 => case 5 => case 6 => case 7 =>
      case 8 => case 9 => case 10 => case 11 => case 12 => case 13 => case 14 => case _ =>
    }
  }

  lemma Row5(c: bv8, w: bv8)
    requires c < 16 && 0x50 | c != 0
    ensures Product(0x50 | c, Unaffine(Sbox5(c))) == 1
    ensures w != 0 ==> Product(0x50 | c, w) != 0
  {
    match c {
      case 0 => case 1 => case 2 => case 3 => case 4 => case 5 => case 6 => case 7 =>
      case 8 => case 9 => case 10 => case 11 => case 12 => case 13 => case 14 => case _ =>
    }
  }

  lemma Row6(c: bv8, w: bv8)
    requires c < 16 && 0x60 | c != 0
    ensures Product(0x60 | c, Unaffine(Sbox6(c))) == 1
    ensures w != 0 ==> Product(0x60 | c, w) != 0
  {
    match c {
      case 0 => case 1 => case 2 => case 3 => case 4 => case 5 => case 6 => case 7 =>
      case 8 => case 9 => case 10 => case 11 => case 12 => case 13 => case 14 => case _ =>
    }
  }

  lemma Row7(c: bv8, w: bv8)
    requires c < 16 && 0x70 | c != 0
    ensures Product(0x70 | c, Unaffine(Sbox7(c))) == 1
    ensures w != 0 ==> Product(0x70 | c, w) != 0
  {
    match c {
      case 0 => case 1 => case 2 => case 3 => case 4 => case 5 => case 6 => case 7 =>
      case 8 => case 9 => case 10 => case 11 => case 12 => case 13 => case 14 => case _ =>
    }
  }

  lemma Row8(c: bv8, w: bv8)
    requires c < 16 && 0x80 | c != 0
    ensures Product(0x80 | c, Unaffine(Sbox8(c))) == 1
    ensures w != 0 ==> Product(0x80 | c, w) != 0
  {
    match c {
      case 0 => case 1 => case 2 => case 3 => case 4 => case 5 => case 6 => case 7 =>
      case 8 => case 9 => case 10 => case 11 => case 12 => case 13 => case 14 => case _ =>
    }
  }

  lemma Row9(c: bv8, w: bv8)
    requires c < 16 && 0x90 | c != 0
    ensures Product(0x90 | c, Unaffine(Sbox9(c))) == 1
    ensures w != 0 ==> Product(0x90 | c, w) != 0
  {
    match c {
      case 0 => case 1 => case 2 => case 3 => case 4 => case 5 => case 6 => case 7 =>
      case 8 => case 9 => case 10 => case 11 => case 12 => case 13 => case 14 => case _ =>
    }
  }

  lemma RowA(c: bv8, w: bv8)
    requires c < 16 && 0xa0 | c != 0
    ensures Product(0xa0 | c, Unaffine(SboxA(c))) == 1
    ensures w != 0 ==> Product(0xa0 | c, w) != 0
  {
    match c {
      case 0 => case 1 => case 2 => case 3 => case 4 => case 5 => case 6 => case 7 =>
      case 8 => case 9 => case 10 => case 11 => case 12 => case 13 => case 14 => case _ =>
    }
  }

  lemma RowB(c: bv8, w: bv8)
    requires c < 16 && 0xb0 | c != 0
    ensures Product(0xb0 | c, Unaffine(SboxB(c))) == 1
    ensures w != 0 ==> Product(0xb0 | c, w) != 0
  {
    match c {
      case 0 => case 1 => case 2 => case 3 => case 4 => case 5 => case 6 => case 7 =>
      case 8 => case 9 => case 10 => case 11 => case 12 => case 13 => case 14 => case _ =>
    }
  }

  lemma RowC(c: bv8, w: bv8)
    requires c < 16 && 0xc0 | c != 0
    ensures Product(0xc0 | c, Unaffine(SboxC(c))) == 1
    ensures w != 0 ==> Product(0xc0 | c, w) != 0
  {
    match c {
      case 0 => case 1 => case 2 => case 3 => case 4 => case 5 => case 6 => case 7 =>
      case 8 => case 9 => case 10 => case 11 => case 12 => case 13 => case 14 => case _ =>
    }
  }

  lemma RowD(c: bv8, w: bv8)
    requires c < 16 && 0xd0 | c != 0
    ensures Product(0xd0 | c, Unaffine(SboxD(c))) == 1
    ensures w != 0 ==> Product(0xd0 | c, w) != 0
  {
    match c {
      case 0 => case 1 => case 2 => case 3 => case 4 => case 5 => case 6 => case 7 =>
      case 8 => case 9 => case 10 => case 11 => case 12 => case 13 => case 14 => case _ =>
    }
  }

  lemma RowE(c: bv8, w: bv8)
    requires c < 16 && 0xe0 | c != 0
    ensures Product(0xe0 | c, Unaffine(SboxE(c))) == 1
    ensures w != 0 ==> Product(0xe0 | c, w) != 0
  {
    match c {
      case 0 => case 1 => case 2 => case 3 => case 4 => case 5 => case 6 => case 7 =>
      case 8 => case 9 => case 10 => case 11 => case 12 => case 13 => case 14 => case _ =>
    }
  }

  lemma RowF(c: bv8, w: bv8)
    requires c < 16 && 0xf0 | c != 0
    ensures Product(0xf0 | c, Unaffine(SboxF(c))) == 1
    ensures w != 0 ==> Product(0xf0 | c, w) != 0
  {
    match c {
      case 0 => case 1 => case 2 => case 3 => case 4 => case 5 => case 6 => case 7 =>
      case 8 => case 9 => case 10 => case 11 => case 12 => case 13 => case 14 => case _ =>
    }
  }

  /** x times the byte that the affine map makes into Sbox(x) is 1, and there are no divisors
      of zero. */
  lemma RowOf(x: bv8, w: bv8)
    requires x != 0
    ensures Product(x, Unaffine(Sbox(x))) == 1
    ensures w != 0 ==> Product(x, w) != 0
  {
    hide Product, Unaffine;
    var c := x & 15;
    assert x == ((x >> 4) << 4) | c;
    match x >> 4 {
      case 0 => Row0(c, w);
      case 1 => Row1(c, w);
      case 2 => Row2(c, w);
      case 3 => Row3(c, w);
      case 4 => Row4(c, w);
      case 5 => Row5(c, w);
      case 6 => Row6(c, w);
      case 7 => Row7(c, w);
      case 8 => Row8(c, w);
      case 9 => Row9(c, w);
      case 10 => RowA(c, w);
      case 11 => RowB(c, w);
      case 12 => RowC(c, w);
      case 13 => RowD(c, w);
      case 14 => RowE(c, w);
      case _ => RowF(c, w);
    }
  }

  // ---- the product of section 4.2 ----

  lemma TwoForm(a: bv8, b: bv8)
    ensures Two(a, b) == Xor(One(a, b), One(Xtime(a), b >> 1))
  {
    hide One, Xtime;
  }

  lemma Sum4(a: bv8, b: bv8, c: bv8, d: bv8)
    ensures a ^ b ^ c ^ d == Xor4(a, b, c, d)
  {
  }

  lemma ProductForm(a: bv8, b: bv8)
    ensures Product(a, b) == Xor4(Two(a, b), Two(X2(a), b >> 2), Two(X2(X2(a)), b >> 4), Two(X2(X2(X2(a))), b >> 6))
  {
    hide Two, X2, Xor, Xor4;
    Sum4(Two(a, b), Two(X2(a), b >> 2), Two(X2(X2(a)), b >> 4), Two(X2(X2(X2(a))), b >> 6));
  }

  lemma Regroup(a: bv8, b: bv8, c: bv8, d: bv8)
    ensures Xor(a, Xor(b, Xor(c, Xor(d, 0)))) == Xor4(a, b, c, d)
  {
  }

  lemma OneBit(a: bv8, b: bv8, rest: bv8)
    ensures (if b & 1 == 1 then Xor(a, rest) else rest) == Xor(One(a, b), rest)
  {
  }

  lemma TwoBits(a: bv8, b: bv8, rest: bv8)
    ensures var r := if (b >> 1) & 1 == 1 then Xor(Xtime(a), rest) else rest;
            (if b & 1 == 1 then Xor(a, r) else r) == Xor(Two(a, b), rest)
  {
    var r := Xor(One(Xtime(a), b >> 1), rest);
    hide Xor, One, Two, Xtime;
    OneBit(Xtime(a), b >> 1, rest);
    OneBit(a, b, r);
    TwoForm(a, b);
    XorLaws(One(a, b), One(Xtime(a), b >> 1), rest);
  }

  lemma Peel(a: bv8, b: bv8, bits: nat)
    requires bits >= 2
    ensures MulBits(a, b, bits) == Xor(Two(a, b), MulBits(X2(a), b >> 2, bits - 2))
  {
    Shifts(b);
    TwoBits(a, b, MulBits(X2(a), b >> 2, bits - 2));
    hide Xor, Xtime, Two, MulBits;
    Unroll(a, b, bits);
    Unroll(Xtime(a), b >> 1, bits - 1);
  }

  lemma Shifts(b: bv8)
    ensures (b >> 1) >> 1 == b >> 2 && (b >> 2) >> 2 == b >> 4 && (b >> 4) >> 2 == b >> 6
  {
  }

  lemma NoBits(a: bv8, b: bv8)
    ensures MulBits(a, b, 0) == 0
  {
  }

  lemma ProductIs(a: bv8, b: bv8)
    ensures Mul(a, b) == Product(a, b)
  {
    Shifts(b);
    ProductForm(a, b);
    hide Xor, Xor4, X2, Two, MulBits, Product;
    var a2 := X2(a);
    var a4 := X2(a2);
    var a6 := X2(a4);
    Peel(a, b, 8);
    Peel(a2, b >> 2, 6);
    Peel(a4, b >> 4, 4);
    Peel(a6, b >> 6, 2);
    NoBits(X2(a6), (b >> 6) >> 2);
    Regroup(Two(a, b), Two(a2, b >> 2), Two(a4, b >> 4), Two(a6, b >> 6));
  }

  // ---- inverses ----

  lemma OneLinear(a: bv8, y: bv8, z: bv8)
    ensures One(a, Xor(y, z)) == Xor(One(a, y), One(a, z)) && Xor(y, z) >> 1 == Xor(y >> 1, z >> 1)
  {
  }

  lemma TwoLinear(a: bv8, y: bv8, z: bv8)
    ensures Two(a, Xor(y, z)) == Xor(Two(a, y), Two(a, z)) && Xor(y, z) >> 2 == Xor(y >> 2, z >> 2)
  {
    ShiftLinear(y, z);
    TwoForm(a, y);
    TwoForm(a, z);
    TwoForm(a, Xor(y, z));
    hide Xor, One, Two, Xtime;
    OneLinear(a, y, z);
    OneLinear(Xtime(a), y >> 1, z >> 1);
    Pair2(One(a, y), One(Xtime(a), y >> 1), One(a, z), One(Xtime(a), z >> 1));
  }

  lemma ShiftLinear(y: bv8, z: bv8)
    ensures Xor(y, z) >> 1 == Xor(y >> 1, z >> 1) && Xor(y, z) >> 2 == Xor(y >> 2, z >> 2)
    ensures Xor(y, z) >> 4 == Xor(y >> 4, z >> 4) && Xor(y, z) >> 6 == Xor(y >> 6, z >> 6)
  {
  }

  lemma ProductLinear(x: bv8, y: bv8, z: bv8)
    ensures Product(x, Xor(y, z)) == Xor(Product(x, y), Product(x, z))
  {
    ShiftLinear(y, z);
    ProductForm(x, y);
    ProductForm(x, z);
    ProductForm(x, Xor(y, z));
    hide Xor, Xor4, X2, Two, Product;
    var x2 := X2(x);
    var x4 := X2(x2);
    var x6 := X2(x4);
    TwoLinear(x, y, z);
    TwoLinear(x2, y >> 2, z >> 2);
    TwoLinear(x4, y >> 4, z >> 4);
    TwoLinear(x6, y >> 6, z >> 6);
    Pair4(Two(x, y), Two(x2, y >> 2), Two(x4, y >> 4), Two(x6, y >> 6),
          Two(x, z), Two(x2, z >> 2), Two(x4, z >> 4), Two(x6, z >> 6));
  }

  /** No byte has two inverses. */
  lemma InverseUnique(x: bv8, y: bv8, z: bv8)
    requires x != 0 && Product(x, y) == Product(x, z)
    ensures y == z
  {
    hide Product;
    ProductLinear(x, y, z);
    assert Xor(Product(x, z), Product(x, z)) == 0;
    RowOf(x, Xor(y, z));
  }

  /** The table, whatever its entries: 0 goes where the affine map takes 0, and every other
      byte x goes where it takes the one byte whose product with x is 1. */
  lemma SboxMeans(x: bv8, y: bv8)
    ensures x == 0 ==> Sbox(x) == Affine(0)
    ensures x != 0 ==> (Sbox(x) == Affine(y) <==> Mul(x, y) == 1)
  {
    ProductIs(x, y);
    if x != 0 {
      hide Product, Affine, Unaffine, Sbox, Mul;
      RowOf(x, y);
      AffineInverse(Sbox(x));
      AffineInverse(y);
      if Product(x, y) == 1 { InverseUnique(x, y, Unaffine(Sbox(x))); }
    }
  }

  // ---- the column mixing ----

  lemma MulBy1(a: bv8)
    ensures Mul(a, 1) == a
  {
    hide Xor, Xtime, MulBits;
    Unroll(a, 1, 8);
    MulByZero(Xtime(a), 7);
    XorLaws(a, 0, 0);
  }

  lemma MulBy2(a: bv8)
    ensures Mul(a, 2) == Xtime(a)
  {
    hide Xor, Xtime, MulBits;
    Unroll(a, 2, 8);
    Unroll(Xtime(a), 1, 7);
    MulByZero(Xtime(Xtime(a)), 6);
    XorLaws(Xtime(a), 0, 0);
  }

  lemma MulBy3(a: bv8)
    ensures Mul(a, 3) == Xor(Xtime(a), a)
  {
    hide Xor, Xtime, MulBits;
    Unroll(a, 3, 8);
    Unroll(Xtime(a), 1, 7);
    MulByZero(Xtime(Xtime(a)), 6);
    XorLaws(Xtime(a), 0, 0);
    XorLaws(a, Xtime(a), 0);
  }

  /** The coefficient of x^i in the product of two polynomials modulo x^4 + 1 (section 4.3). */
  function Coefficient(c: Column, a: Column, i: nat): bv8 {
    Xor4(Mul(c.a0, At(a, i % 4)), Mul(c.a1, At(a, (i + 3) % 4)), Mul(c.a2, At(a, (i + 2) % 4)),
         Mul(c.a3, At(a, (i + 1) % 4)))
  }

  /** MixColumns multiplies a column by 3x^3 + x^2 + x + 2, InvMixColumns by
      11x^3 + 13x^2 + 9x + 14 (sections 5.1.3 and 5.3.3). */
  lemma MixMeans(c: Column, i: nat)
    requires i < 4
    ensures At(Mix(c), i) == Coefficient(c, Column(2, 1, 1, 3), i)
    ensures At(Unmix(c), i) == Coefficient(c, Column(14, 9, 13, 11), i)
  {
    ByConstants(c.a0);
    ByConstants(c.a1);
    ByConstants(c.a2);
    ByConstants(c.a3);
    hide Xor, Xor4, Xtime, Mul, M9, M11, M13, M14;
    if i == 0 {} else if i == 1 {} else if i == 2 {} else {}
  }

  lemma ByConstants(a: bv8)
    ensures Mul(a, 1) == a && Mul(a, 2) == Xtime(a) && Mul(a, 3) == Xor(Xtime(a), a)
    ensures Mul(a, 9) == M9(a) && Mul(a, 11) == M11(a) && Mul(a, 13) == M13(a) && Mul(a, 14) == M14(a)
  {
    hide Xor, Xtime, Mul, M9, M11, M13, M14;
    MulBy1(a);
    MulBy2(a);
    MulBy3(a);
    MulByConstants(a);
  }
}
