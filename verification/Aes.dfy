/** AES-128 as FIPS 197 defines it, the inverse cipher, and the code of wifi_crypto.c. */
module Aes {
  import opened Config
  import opened AesTables

  type Block = s: seq<bv8> | |s| == 16 witness seq(16, _ => 0)

  // ---- arithmetic in GF(2^8) ----

  /** Addition. */
  function Xor(a: bv8, b: bv8): bv8 { a ^ b }

  /** Multiplication by x (section 4.2.1). */
  function Xtime(x: bv8): bv8 {
    (x << 1) ^ ((x >> 7) * 0x1b)
  }

  /** The product of a and b, bit by bit of b (section 4.2). */
  function MulBits(a: bv8, b: bv8, bits: nat): bv8
    decreases bits
  {
    if bits == 0 then 0
    else if b & 1 == 1 then Xor(a, MulBits(Xtime(a), b >> 1, bits - 1))
    else MulBits(Xtime(a), b >> 1, bits - 1)
  }

  function Mul(a: bv8, b: bv8): bv8 {
    MulBits(a, b, 8)
  }

  function X2(a: bv8): bv8 { Xtime(Xtime(a)) }
  function X3(a: bv8): bv8 { Xtime(X2(a)) }

  function M9(a: bv8): bv8 { Xor(X3(a), a) }
  function M11(a: bv8): bv8 { Xor(Xor(X3(a), Xtime(a)), a) }
  function M13(a: bv8): bv8 { Xor(Xor(X3(a), X2(a)), a) }
  function M14(a: bv8): bv8 { Xor(Xor(X3(a), X2(a)), Xtime(a)) }

  lemma {:induction false} MulByZero(a: bv8, bits: nat)
    ensures MulBits(a, 0, bits) == 0
    decreases bits
  {
    if bits > 0 { MulByZero(Xtime(a), bits - 1); }
  }

  lemma Unroll(a: bv8, b: bv8, bits: nat)
    requires bits > 0
    ensures MulBits(a, b, bits) ==
              if b & 1 == 1 then Xor(a, MulBits(Xtime(a), b >> 1, bits - 1)) else MulBits(Xtime(a), b >> 1, bits - 1)
  {
  }

  lemma Doubled(a: bv8)
    ensures Xtime(Xtime(a)) == X2(a) && Xtime(X2(a)) == X3(a)
  {
  }

  lemma MulBy9(a: bv8)
    ensures Mul(a, 9) == M9(a)
  {
    Doubled(a);
    hide Xor, Xtime, X2, X3, MulBits;
    Unroll(a, 9, 8);
    Unroll(Xtime(a), 4, 7);
    Unroll(X2(a), 2, 6);
    Unroll(X3(a), 1, 5);
    MulByZero(Xtime(X3(a)), 4);
    Swap(a, X3(a), 0);
  }

  lemma MulBy11(a: bv8)
    ensures Mul(a, 11) == M11(a)
  {
    Doubled(a);
    hide Xor, Xtime, X2, X3, MulBits;
    Unroll(a, 11, 8);
    Unroll(Xtime(a), 5, 7);
    Unroll(X2(a), 2, 6);
    Unroll(X3(a), 1, 5);
    MulByZero(Xtime(X3(a)), 4);
    Turn(a, Xtime(a), X3(a));
  }

  lemma MulBy13(a: bv8)
    ensures Mul(a, 13) == M13(a)
  {
    Doubled(a);
    hide Xor, Xtime, X2, X3, MulBits;
    Unroll(a, 13, 8);
    Unroll(Xtime(a), 6, 7);
    Unroll(X2(a), 3, 6);
    Unroll(X3(a), 1, 5);
    MulByZero(Xtime(X3(a)), 4);
    Turn(a, X2(a), X3(a));
  }

  lemma MulBy14(a: bv8)
    ensures Mul(a, 14) == M14(a)
  {
    Doubled(a);
    hide Xor, Xtime, X2, X3, MulBits;
    Unroll(a, 14, 8);
    Unroll(Xtime(a), 7, 7);
    Unroll(X2(a), 3, 6);
    Unroll(X3(a), 1, 5);
    MulByZero(Xtime(X3(a)), 4);
    Turn(Xtime(a), X2(a), X3(a));
  }

  lemma Swap(a: bv8, b: bv8, zero: bv8)
    requires zero == 0
    ensures Xor(a, Xor(b, zero)) == Xor(b, a)
  {
  }

  lemma Turn(a: bv8, b: bv8, c: bv8)
    ensures Xor(a, Xor(b, Xor(c, 0))) == Xor(Xor(c, b), a)
  {
  }

  /** The four multiplications of InvMixColumns (section 5.3.3) from doublings. */
  lemma MulByConstants(a: bv8)
    ensures Mul(a, 9) == M9(a) && Mul(a, 11) == M11(a) && Mul(a, 13) == M13(a) && Mul(a, 14) == M14(a)
  {
    hide Xtime, Mul, M9, M11, M13, M14;
    MulBy9(a);
    MulBy11(a);
    MulBy13(a);
    MulBy14(a);
  }

  /** Doubling respects addition. */
  lemma XtimeLinear(x: bv8, y: bv8)
    ensures Xtime(Xor(x, y)) == Xor(Xtime(x), Xtime(y))
  {
  }

  lemma PowersLinear(x: bv8, y: bv8)
    ensures X2(Xor(x, y)) == Xor(X2(x), X2(y)) && X3(Xor(x, y)) == Xor(X3(x), X3(y))
  {
    hide Xor, Xtime;
    XtimeLinear(x, y);
    XtimeLinear(Xtime(x), Xtime(y));
    XtimeLinear(X2(x), X2(y));
  }

  lemma XorLaws(a: bv8, b: bv8, c: bv8)
    ensures Xor(a, b) == Xor(b, a) && Xor(Xor(a, b), c) == Xor(a, Xor(b, c))
    ensures Xor(Xor(a, b), b) == a && Xor(a, 0) == a && Xor(a, a) == 0
  {
  }

  lemma Pair2(a: bv8, b: bv8, c: bv8, d: bv8)
    ensures Xor(Xor(a, b), Xor(c, d)) == Xor(Xor(a, c), Xor(b, d))
  {
    hide Xor;
    XorLaws(a, b, Xor(c, d));
    XorLaws(b, c, d);
    XorLaws(c, b, d);
    XorLaws(a, c, Xor(b, d));
  }

  lemma Pair3(a: bv8, b: bv8, c: bv8, d: bv8, e: bv8, f: bv8)
    ensures Xor(Xor(Xor(a, b), Xor(c, d)), Xor(e, f)) == Xor(Xor(Xor(a, c), e), Xor(Xor(b, d), f))
  {
    hide Xor;
    Pair2(a, b, c, d);
    Pair2(Xor(a, c), Xor(b, d), e, f);
  }

  /** So do the four multiplications. */
  lemma MLinear(x: bv8, y: bv8)
    ensures M9(Xor(x, y)) == Xor(M9(x), M9(y)) && M11(Xor(x, y)) == Xor(M11(x), M11(y))
    ensures M13(Xor(x, y)) == Xor(M13(x), M13(y)) && M14(Xor(x, y)) == Xor(M14(x), M14(y))
  {
    hide Xor, Xtime, X2, X3;
    XtimeLinear(x, y);
    PowersLinear(x, y);
    Pair2(X3(x), X3(y), x, y);
    Pair3(X3(x), X3(y), Xtime(x), Xtime(y), x, y);
    Pair3(X3(x), X3(y), X2(x), X2(y), x, y);
    Pair3(X3(x), X3(y), X2(x), X2(y), Xtime(x), Xtime(y));
  }

  // ---- columns ----

  datatype Column = Column(a0: bv8, a1: bv8, a2: bv8, a3: bv8)

  function Xor4(a: bv8, b: bv8, c: bv8, d: bv8): bv8 { Xor(Xor(Xor(a, b), c), d) }

  /** MixColumns on one column (section 5.1.3). */
  function Mix(c: Column): Column {
    Column(Xor4(Xtime(c.a0), Xor(Xtime(c.a1), c.a1), c.a2, c.a3),
           Xor4(c.a0, Xtime(c.a1), Xor(Xtime(c.a2), c.a2), c.a3),
           Xor4(c.a0, c.a1, Xtime(c.a2), Xor(Xtime(c.a3), c.a3)),
           Xor4(Xor(Xtime(c.a0), c.a0), c.a1, c.a2, Xtime(c.a3)))
  }

  /** InvMixColumns on one column (section 5.3.3). */
  function Unmix(c: Column): Column {
    Column(Xor4(M14(c.a0), M11(c.a1), M13(c.a2), M9(c.a3)),
           Xor4(M9(c.a0), M14(c.a1), M11(c.a2), M13(c.a3)),
           Xor4(M13(c.a0), M9(c.a1), M14(c.a2), M11(c.a3)),
           Xor4(M11(c.a0), M13(c.a1), M9(c.a2), M14(c.a3)))
  }

  // ---- the two circulant matrices are inverse ----

  /** The contribution of each byte to the first row of Unmix(Mix(.)): its own comes back,
      the others cancel. */
  lemma Coefficients(x: bv8)
    ensures Xor4(M14(Xtime(x)), M11(x), M13(x), M9(Xor(Xtime(x), x))) == x
    ensures Xor4(M14(Xor(Xtime(x), x)), M11(Xtime(x)), M13(x), M9(x)) == 0
    ensures Xor4(M14(x), M11(Xor(Xtime(x), x)), M13(Xtime(x)), M9(x)) == 0
    ensures Xor4(M14(x), M11(x), M13(Xor(Xtime(x), x)), M9(Xtime(x))) == 0
  {
  }

  /** The same for the first row of Mix(Unmix(.)). */
  lemma InverseCoefficients(x: bv8)
    ensures Xor4(Xtime(M14(x)), Xor(Xtime(M9(x)), M9(x)), M13(x), M11(x)) == x
    ensures Xor4(Xtime(M11(x)), Xor(Xtime(M14(x)), M14(x)), M9(x), M13(x)) == 0
    ensures Xor4(Xtime(M13(x)), Xor(Xtime(M11(x)), M11(x)), M14(x), M9(x)) == 0
    ensures Xor4(Xtime(M9(x)), Xor(Xtime(M13(x)), M13(x)), M11(x), M14(x)) == 0
  {
  }

  lemma Pair4(a0: bv8, a1: bv8, a2: bv8, a3: bv8, b0: bv8, b1: bv8, b2: bv8, b3: bv8)
    ensures Xor(Xor4(a0, a1, a2, a3), Xor4(b0, b1, b2, b3)) == Xor4(Xor(a0, b0), Xor(a1, b1), Xor(a2, b2), Xor(a3, b3))
  {
    hide Xor;
    Pair2(a0, a1, b0, b1);
    Pair2(Xor(a0, a1), a2, Xor(b0, b1), b2);
    Pair2(Xor(Xor(a0, a1), a2), a3, Xor(Xor(b0, b1), b2), b3);
  }

  /** Adding up a square of terms by rows or by columns. */
  lemma Transposed(a: Column, b: Column, c: Column, d: Column)
    ensures Xor4(Xor4(a.a0, a.a1, a.a2, a.a3), Xor4(b.a0, b.a1, b.a2, b.a3), Xor4(c.a0, c.a1, c.a2, c.a3),
        Xor4(d.a0, d.a1, d.a2, d.a3))
         == Xor4(Xor4(a.a0, b.a0, c.a0, d.a0), Xor4(a.a1, b.a1, c.a1, d.a1), Xor4(a.a2, b.a2, c.a2, d.a2),
             Xor4(a.a3, b.a3, c.a3, d.a3))
  {
    hide Xor;
    Pair4(a.a0, a.a1, a.a2, a.a3, b.a0, b.a1, b.a2, b.a3);
    Pair4(Xor(a.a0, b.a0), Xor(a.a1, b.a1), Xor(a.a2, b.a2), Xor(a.a3, b.a3), c.a0, c.a1, c.a2, c.a3);
    Pair4(Xor(Xor(a.a0, b.a0), c.a0), Xor(Xor(a.a1, b.a1), c.a1), Xor(Xor(a.a2, b.a2), c.a2),
        Xor(Xor(a.a3, b.a3), c.a3), d.a0, d.a1, d.a2, d.a3);
  }

  lemma M4Linear(a: bv8, b: bv8, c: bv8, d: bv8)
    ensures M9(Xor4(a, b, c, d)) == Xor4(M9(a), M9(b), M9(c), M9(d))
    ensures M11(Xor4(a, b, c, d)) == Xor4(M11(a), M11(b), M11(c), M11(d))
    ensures M13(Xor4(a, b, c, d)) == Xor4(M13(a), M13(b), M13(c), M13(d))
    ensures M14(Xor4(a, b, c, d)) == Xor4(M14(a), M14(b), M14(c), M14(d))
  {
    hide Xor, M9, M11, M13, M14;
    MLinear(a, b);
    MLinear(Xor(a, b), c);
    MLinear(Xor(Xor(a, b), c), d);
  }

  lemma Xtime4Linear(a: bv8, b: bv8, c: bv8, d: bv8)
    ensures Xtime(Xor4(a, b, c, d)) == Xor4(Xtime(a), Xtime(b), Xtime(c), Xtime(d))
  {
    hide Xor, Xtime;
    XtimeLinear(a, b);
    XtimeLinear(Xor(a, b), c);
    XtimeLinear(Xor(Xor(a, b), c), d);
  }

  lemma OnlyFirst(x: bv8)
    ensures Xor4(x, 0, 0, 0) == x
  {
  }

  lemma FirstUnmixed(c: Column)
    ensures Unmix(Mix(c)).a0 == c.a0
  {
    hide Xor, Xor4, Xtime, M9, M11, M13, M14;
    var t0, t1, t2, t3 := Xtime(c.a0), Xtime(c.a1), Xtime(c.a2), Xtime(c.a3);
    var u0, u1, u2, u3 := Xor(t0, c.a0), Xor(t1, c.a1), Xor(t2, c.a2), Xor(t3, c.a3);
    M4Linear(t0, u1, c.a2, c.a3);
    M4Linear(c.a0, t1, u2, c.a3);
    M4Linear(c.a0, c.a1, t2, u3);
    M4Linear(u0, c.a1, c.a2, t3);
    Transposed(Column(M14(t0), M14(u1), M14(c.a2), M14(c.a3)), Column(M11(c.a0), M11(t1), M11(u2), M11(c.a3)),
               Column(M13(c.a0), M13(c.a1), M13(t2), M13(u3)), Column(M9(u0), M9(c.a1), M9(c.a2), M9(t3)));
    Coefficients(c.a0);
    Coefficients(c.a1);
    Coefficients(c.a2);
    Coefficients(c.a3);
    OnlyFirst(c.a0);
  }

  lemma FirstRemixed(c: Column)
    ensures Mix(Unmix(c)).a0 == c.a0
  {
    hide Xor, Xor4, Xtime, M9, M11, M13, M14;
    var m := Unmix(c);
    Xtime4Linear(M14(c.a0), M11(c.a1), M13(c.a2), M9(c.a3));
    Xtime4Linear(M9(c.a0), M14(c.a1), M11(c.a2), M13(c.a3));
    SecondSum(c);
    Transposed(Column(Xtime(M14(c.a0)), Xtime(M11(c.a1)), Xtime(M13(c.a2)), Xtime(M9(c.a3))),
               Column(Xor(Xtime(M9(c.a0)), M9(c.a0)), Xor(Xtime(M14(c.a1)), M14(c.a1)),
                   Xor(Xtime(M11(c.a2)), M11(c.a2)), Xor(Xtime(M13(c.a3)), M13(c.a3))),
               Column(M13(c.a0), M9(c.a1), M14(c.a2), M11(c.a3)), Column(M11(c.a0), M13(c.a1), M9(c.a2), M14(c.a3)));
    InverseCoefficients(c.a0);
    InverseCoefficients(c.a1);
    InverseCoefficients(c.a2);
    InverseCoefficients(c.a3);
    OnlyFirst(c.a0);
  }

  lemma SecondSum(c: Column)
    ensures var m1 := Unmix(c).a1;
            Xor(Xtime(m1), m1) == Xor4(Xor(Xtime(M9(c.a0)), M9(c.a0)), Xor(Xtime(M14(c.a1)), M14(c.a1)),
                                       Xor(Xtime(M11(c.a2)), M11(c.a2)), Xor(Xtime(M13(c.a3)), M13(c.a3)))
  {
    hide Xor, Xor4, Xtime, M9, M11, M13, M14;
    Xtime4Linear(M9(c.a0), M14(c.a1), M11(c.a2), M13(c.a3));
    Pair4(Xtime(M9(c.a0)), Xtime(M14(c.a1)), Xtime(M11(c.a2)), Xtime(M13(c.a3)), M9(c.a0), M14(c.a1), M11(c.a2),
        M13(c.a3));
  }

  function Rot(c: Column): Column { Column(c.a1, c.a2, c.a3, c.a0) }

  lemma Cycle(a: bv8, b: bv8, c: bv8, d: bv8)
    ensures Xor4(a, b, c, d) == Xor4(b, c, d, a)
  {
    hide Xor;
    XorLaws(a, b, c);
    XorLaws(a, Xor(b, c), d);
    XorLaws(a, Xor(Xor(b, c), d), 0);
  }

  /** Both matrices are circulant: rotating the column rotates the product. */
  lemma Circulant(c: Column)
    ensures Mix(Rot(c)) == Rot(Mix(c)) && Unmix(Rot(c)) == Rot(Unmix(c))
  {
    hide Xor, Xor4, Xtime, M9, M11, M13, M14;
    var t0, t1, t2, t3 := Xtime(c.a0), Xtime(c.a1), Xtime(c.a2), Xtime(c.a3);
    Cycle(c.a0, t1, Xor(t2, c.a2), c.a3);
    Cycle(c.a0, c.a1, t2, Xor(t3, c.a3));
    Cycle(Xor(t0, c.a0), c.a1, c.a2, t3);
    Cycle(t0, Xor(t1, c.a1), c.a2, c.a3);
    Cycle(M9(c.a0), M14(c.a1), M11(c.a2), M13(c.a3));
    Cycle(M13(c.a0), M9(c.a1), M14(c.a2), M11(c.a3));
    Cycle(M11(c.a0), M13(c.a1), M9(c.a2), M14(c.a3));
    Cycle(M14(c.a0), M11(c.a1), M13(c.a2), M9(c.a3));
  }

  /** InvMixColumns undoes MixColumns and the other way round, on every column. */
  lemma MixInverse(c: Column)
    ensures Unmix(Mix(c)) == c && Mix(Unmix(c)) == c
  {
    hide Mix, Unmix;
    var c1 := Rot(c);
    var c2 := Rot(c1);
    var c3 := Rot(c2);
    FirstUnmixed(c);
    FirstUnmixed(c1);
    FirstUnmixed(c2);
    FirstUnmixed(c3);
    FirstRemixed(c);
    FirstRemixed(c1);
    FirstRemixed(c2);
    FirstRemixed(c3);
    Circulant(c);
    Circulant(c1);
    Circulant(c2);
    Circulant(Mix(c));
    Circulant(Mix(c1));
    Circulant(Mix(c2));
    Circulant(Unmix(c));
    Circulant(Unmix(c1));
    Circulant(Unmix(c2));
  }
}
