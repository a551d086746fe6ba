/** The cipher and its inverse on blocks (FIPS 197, sections 5.1 to 5.3), and the loops of
    aes128_init, aes128_encrypt and aes128_decrypt proved against them. */
module AesCipher {
  import opened Config
  import opened AesTables
  import opened Aes

  type Schedule = s: seq<bv8> | |s| == 176 witness seq(176, _ => 0)

  // ---- the round transformations ----

  function SubBytes(s: Block): Block {
    seq(16, i requires 0 <= i < 16 => Sbox(s[i]))
  }

  function InvSubBytes(s: Block): Block {
    seq(16, i requires 0 <= i < 16 => InvSbox(s[i]))
  }

  /** Byte i stands in row i % 4 and column i / 4. Row r comes from r columns further on
      (section 5.1.2), and in the inverse from r columns before (section 5.3.1). */
  function Ahead(i: nat): (k: nat)
    ensures k < 16
  {
    i % 4 + 4 * ((i / 4 + i % 4) % 4)
  }

  function Behind(i: nat): (k: nat)
    ensures k < 16
  {
    i % 4 + 4 * ((i / 4 + 3 * (i % 4)) % 4)
  }

  function ShiftRows(s: Block): Block {
    seq(16, i requires 0 <= i < 16 => s[Ahead(i)])
  }

  function InvShiftRows(s: Block): Block {
    seq(16, i requires 0 <= i < 16 => s[Behind(i)])
  }

  function Col(s: Block, c: nat): Column
    requires c < 4
  {
    Column(s[4 * c], s[4 * c + 1], s[4 * c + 2], s[4 * c + 3])
  }

  function At(c: Column, r: nat): bv8
    requires r < 4
  {
    if r == 0 then c.a0 else if r == 1 then c.a1 else if r == 2 then c.a2 else c.a3
  }

  function MixColumns(s: Block): Block {
    seq(16, i requires 0 <= i < 16 => At(Mix(Col(s, i / 4)), i % 4))
  }

  function InvMixColumns(s: Block): Block {
    seq(16, i requires 0 <= i < 16 => At(Unmix(Col(s, i / 4)), i % 4))
  }

  function AddKey(s: Block, rk: Schedule, r: nat): Block
    requires r <= 10
  {
    seq(16, i requires 0 <= i < 16 => Xor(s[i], rk[16 * r + i]))
  }

  lemma SubInverse(s: Block)
    ensures InvSubBytes(SubBytes(s)) == s && SubBytes(InvSubBytes(s)) == s
  {
    hide Sbox, InvSbox;
    forall i | 0 <= i < 16 ensures InvSbox(Sbox(s[i])) == s[i] && Sbox(InvSbox(s[i])) == s[i] { SboxInverse(s[i]); }
  }

  lemma ShiftInverse(s: Block)
    ensures InvShiftRows(ShiftRows(s)) == s && ShiftRows(InvShiftRows(s)) == s
  {
    hide Ahead, Behind;
    forall i | 0 <= i < 16 ensures InvShiftRows(ShiftRows(s))[i] == s[i]
        && ShiftRows(InvShiftRows(s))[i] == s[i] { ShiftIndex(i); }
  }

  lemma ShiftIndex(i: nat)
    requires i < 16
    ensures Ahead(i) < 16 && Behind(i) < 16 && Ahead(Behind(i)) == i && Behind(Ahead(i)) == i
  {
    var r, c := i % 4, i / 4;
    assert i == r + 4 * c;
    hide Ahead, Behind;
    ShiftPlace(r, c);
  }

  lemma ShiftPlace(r: nat, c: nat)
    requires r < 4 && c < 4
    ensures var i := r + 4 * c; Ahead(Behind(i)) == i && Behind(Ahead(i)) == i
  {
    hide Ahead, Behind;
    Turned(r, c);
    Place(r, c);
    Place(r, (c + r) % 4);
    Place(r, (c + 3 * r) % 4);
  }

  /** Where row r and column c stand, and where they move. */
  lemma Place(r: nat, c: nat)
    requires r < 4 && c < 4
    ensures Ahead(r + 4 * c) == r + 4 * ((c + r) % 4) < 16 && Behind(r + 4 * c) == r + 4 * ((c + 3 * r) % 4) < 16
  {
    RowCol(r, c);
  }

  lemma RowCol(r: nat, c: nat)
    requires r < 4 && c < 4
    ensures (r + 4 * c) % 4 == r && (r + 4 * c) / 4 == c
  {
  }

  lemma Turned(r: nat, c: nat)
    requires r < 4 && c < 4
    ensures ((c + r) % 4 + 3 * r) % 4 == c && ((c + 3 * r) % 4 + r) % 4 == c
  {
    if r == 0 {} else if r == 1 {} else if r == 2 {} else {}
  }

  lemma ColMix(s: Block, c: nat)
    requires c < 4
    ensures Col(MixColumns(s), c) == Mix(Col(s, c)) && Col(InvMixColumns(s), c) == Unmix(Col(s, c))
  {
    hide Mix, Unmix;
    RowCol(0, c);
    RowCol(1, c);
    RowCol(2, c);
    RowCol(3, c);
  }

  lemma MixColumnsInverse(s: Block)
    ensures InvMixColumns(MixColumns(s)) == s && MixColumns(InvMixColumns(s)) == s
  {
    hide Mix, Unmix;
    forall i | 0 <= i < 16
      ensures InvMixColumns(MixColumns(s))[i] == s[i] && MixColumns(InvMixColumns(s))[i] == s[i]
    {
      ColMix(s, i / 4);
      MixInverse(Col(s, i / 4));
      AtCol(s, i);
    }
  }

  lemma AtCol(s: Block, i: nat)
    requires i < 16
    ensures At(Col(s, i / 4), i % 4) == s[i]
  {
  }

  lemma AddTwice(s: Block, rk: Schedule, r: nat)
    requires r <= 10
    ensures AddKey(AddKey(s, rk, r), rk, r) == s
  {
    hide Xor;
    forall i | 0 <= i < 16 ensures Xor(Xor(s[i], rk[16 * r + i]), rk[16 * r + i])
        == s[i] { XorLaws(s[i], rk[16 * r + i], 0); }
  }

  // ---- cipher and inverse cipher ----

  /** The state after round r (section 5.1); the last round does not mix columns. */
  function Rounds(rk: Schedule, x: Block, r: nat): Block
    requires r <= 10
  {
    if r == 0 then AddKey(x, rk, 0)
    else
      var t := ShiftRows(SubBytes(Rounds(rk, x, r - 1)));
      AddKey(if r < 10 then MixColumns(t) else t, rk, r)
  }

  function Encrypt(rk: Schedule, x: Block): Block {
    Rounds(rk, x, 10)
  }

  /** The state of the inverse cipher (section 5.3) with rounds 9 down to r done. */
  function InvRounds(rk: Schedule, y: Block, r: nat): Block
    requires r <= 10
    decreases 10 - r
  {
    if r == 10 then AddKey(y, rk, 10)
    else
      var t := AddKey(InvSubBytes(InvShiftRows(InvRounds(rk, y, r + 1))), rk, r);
      if r > 0 then InvMixColumns(t) else t
  }

  function Decrypt(rk: Schedule, y: Block): Block {
    InvRounds(rk, y, 0)
  }

  /** Running backwards from the cipher's end meets the forward states one by one. */
  lemma {:induction false} Meets(rk: Schedule, x: Block, r: nat)
    requires 1 <= r <= 10
    ensures InvRounds(rk, Encrypt(rk, x), r) == ShiftRows(SubBytes(Rounds(rk, x, r - 1)))
    decreases 10 - r
  {
    hide AddKey, MixColumns, InvMixColumns, SubBytes, InvSubBytes, ShiftRows, InvShiftRows;
    var t := ShiftRows(SubBytes(Rounds(rk, x, r - 1)));
    if r == 10 {
      AddTwice(t, rk, 10);
    } else {
      Meets(rk, x, r + 1);
      var s := Rounds(rk, x, r);
      ShiftInverse(SubBytes(s));
      SubInverse(s);
      AddTwice(MixColumns(t), rk, r);
      MixColumnsInverse(t);
    }
  }

  /** The inverse cipher undoes the cipher, for every key schedule and block. */
  lemma DecryptEncrypt(rk: Schedule, x: Block)
    ensures Decrypt(rk, Encrypt(rk, x)) == x
  {
    hide AddKey, MixColumns, InvMixColumns, SubBytes, InvSubBytes, ShiftRows, InvShiftRows, Encrypt;
    Meets(rk, x, 1);
    ShiftInverse(SubBytes(Rounds(rk, x, 0)));
    SubInverse(Rounds(rk, x, 0));
    AddTwice(x, rk, 0);
  }

  lemma {:induction false} MeetsBack(rk: Schedule, y: Block, r: nat)
    requires r < 10
    ensures ShiftRows(SubBytes(Rounds(rk, Decrypt(rk, y), r))) == InvRounds(rk, y, r + 1)
  {
    hide AddKey, MixColumns, InvMixColumns, SubBytes, InvSubBytes, ShiftRows, InvShiftRows;
    var u := InvRounds(rk, y, r + 1);
    var t := InvSubBytes(InvShiftRows(u));
    if r == 0 {
      AddTwice(t, rk, 0);
    } else {
      MeetsBack(rk, y, r - 1);
      MixColumnsInverse(AddKey(t, rk, r));
      AddTwice(t, rk, r);
    }
    SubInverse(InvShiftRows(u));
    ShiftInverse(u);
  }

  /** And the cipher undoes the inverse cipher. */
  lemma EncryptDecrypt(rk: Schedule, y: Block)
    ensures Encrypt(rk, Decrypt(rk, y)) == y
  {
    hide AddKey, MixColumns, InvMixColumns, SubBytes, InvSubBytes, ShiftRows, InvShiftRows, Decrypt;
    MeetsBack(rk, y, 9);
    AddTwice(y, rk, 10);
  }

  // ---- the code ----

  /** xtime as the source computes it, without a branch. */
  method XtimeByte(x: bv8) returns (r: bv8)
    ensures r == Xtime(x)
  {
    r := (x << 1) ^ ((x >> 7) * 0x1b);
  }

  /** mul: eight turns of shift and add. */
  method MulByte(a: bv8, b: bv8) returns (p: bv8)
    ensures p == Mul(a, b)
  {
    hide Xor, Xtime;
    p := 0;
    var x, y := a, b;
    XorLaws(Mul(a, b), 0, 0);
    for i := 0 to 8
      invariant Xor(p, MulBits(x, y, 8 - i)) == Mul(a, b)
    {
      Unroll(x, y, 8 - i);
      XorLaws(p, x, MulBits(Xtime(x), y >> 1, 7 - i));
      if y & 1 == 1 { p := Xor(p, x); }
      x := XtimeByte(x);
      y := y >> 1;
    }
    XorLaws(p, 0, 0);
  }

  /** One column of the state mixed in place. */
  method MixInPlace(p: array<bv8>, col: nat)
    requires p.Length == 16 && col < 4
    modifies p
    ensures Col(p[..], col) == Mix(Col(old(p[..]), col))
    ensures forall j :: 0 <= j < 16 && (j < 4 * col || 4 * col + 4 <= j) ==> p[j] == old(p[j])
  {
    hide Xtime, Xor;
    var a0, a1, a2, a3 := p[4 * col], p[4 * col + 1], p[4 * col + 2], p[4 * col + 3];
    var t0 := XtimeByte(a0);
    var t1 := XtimeByte(a1);
    var t2 := XtimeByte(a2);
    var t3 := XtimeByte(a3);
    p[4 * col] := Xor4(t0, Xor(t1, a1), a2, a3);
    p[4 * col + 1] := Xor4(a0, t1, Xor(t2, a2), a3);
    p[4 * col + 2] := Xor4(a0, a1, t2, Xor(t3, a3));
    p[4 * col + 3] := Xor4(Xor(t0, a0), a1, a2, t3);
  }

  method UnmixInPlace(p: array<bv8>, col: nat)
    requires p.Length == 16 && col < 4
    modifies p
    ensures Col(p[..], col) == Unmix(Col(old(p[..]), col))
    ensures forall j :: 0 <= j < 16 && (j < 4 * col || 4 * col + 4 <= j) ==> p[j] == old(p[j])
  {
    hide Xor, M9, M11, M13, M14;
    var a0, a1, a2, a3 := p[4 * col], p[4 * col + 1], p[4 * col + 2], p[4 * col + 3];
    p[4 * col] := Weighted(a0, 14, a1, 11, a2, 13, a3, 9);
    p[4 * col + 1] := Weighted(a0, 9, a1, 14, a2, 11, a3, 13);
    p[4 * col + 2] := Weighted(a0, 13, a1, 9, a2, 14, a3, 11);
    p[4 * col + 3] := Weighted(a0, 11, a1, 13, a2, 9, a3, 14);
    MulByConstants(a0);
    MulByConstants(a1);
    MulByConstants(a2);
    MulByConstants(a3);
  }

  method Weighted(a0: bv8, w0: bv8, a1: bv8, w1: bv8, a2: bv8, w2: bv8, a3: bv8, w3: bv8) returns (r: bv8)
    ensures r == Xor4(Mul(a0, w0), Mul(a1, w1), Mul(a2, w2), Mul(a3, w3))
  {
    var p0 := MulByte(a0, w0);
    var p1 := MulByte(a1, w1);
    var p2 := MulByte(a2, w2);
    var p3 := MulByte(a3, w3);
    r := Xor4(p0, p1, p2, p3);
  }

  method AddInto(dst: array<bv8>, src: array<bv8>, rk: Schedule, r: nat)
    requires dst.Length == 16 == src.Length && r <= 10
    modifies dst
    ensures dst[..] == AddKey(old(src[..]), rk, r)
  {
    hide Xor;
    for i := 0 to 16
      invariant forall j :: 0 <= j < i ==> dst[j] == Xor(old(src[j]), rk[16 * r + j])
      invariant forall j :: i <= j < 16 ==> dst[j] == old(dst[j])
    {
      dst[i] := Xor(src[i], rk[16 * r + i]);
    }
  }

  method SubInto(dst: array<bv8>, src: array<bv8>)
    requires dst.Length == 16 == src.Length && dst != src
    modifies dst
    ensures dst[..] == SubBytes(src[..])
  {
    hide Sbox;
    for i := 0 to 16
      invariant forall j :: 0 <= j < i ==> dst[j] == Sbox(src[j])
    {
      dst[i] := Sbox(src[i]);
    }
  }

  method InvSubInto(dst: array<bv8>, src: array<bv8>)
    requires dst.Length == 16 == src.Length && dst != src
    modifies dst
    ensures dst[..] == InvSubBytes(src[..])
  {
    hide InvSbox;
    for i := 0 to 16
      invariant forall j :: 0 <= j < i ==> dst[j] == InvSbox(src[j])
    {
      dst[i] := InvSbox(src[i]);
    }
  }

  /** The sixteen assignments of the rounds name each source byte. */
  lemma AheadTable()
    ensures Ahead(0) == 0 && Ahead(1) == 5 && Ahead(2) == 10 && Ahead(3) == 15
    ensures Ahead(4) == 4 && Ahead(5) == 9 && Ahead(6) == 14 && Ahead(7) == 3
    ensures Ahead(8) == 8 && Ahead(9) == 13 && Ahead(10) == 2 && Ahead(11) == 7
    ensures Ahead(12) == 12 && Ahead(13) == 1 && Ahead(14) == 6 && Ahead(15) == 11
  {
  }

  lemma BehindTable()
    ensures Behind(0) == 0 && Behind(1) == 13 && Behind(2) == 10 && Behind(3) == 7
    ensures Behind(4) == 4 && Behind(5) == 1 && Behind(6) == 14 && Behind(7) == 11
    ensures Behind(8) == 8 && Behind(9) == 5 && Behind(10) == 2 && Behind(11) == 15
    ensures Behind(12) == 12 && Behind(13) == 9 && Behind(14) == 6 && Behind(15) == 3
  {
  }

  lemma Sixteen(r: Block, t: Block)
    requires r[0] == t[0] && r[4] == t[4] && r[8] == t[8] && r[12] == t[12]
    requires r[1] == t[5] && r[5] == t[9] && r[9] == t[13] && r[13] == t[1]
    requires r[2] == t[10] && r[6] == t[14] && r[10] == t[2] && r[14] == t[6]
    requires r[3] == t[15] && r[7] == t[3] && r[11] == t[7] && r[15] == t[11]
    ensures r == ShiftRows(t)
  {
    hide Ahead;
    AheadTable();
  }

  lemma InvSixteen(r: Block, t: Block)
    requires r[0] == t[0] && r[4] == t[4] && r[8] == t[8] && r[12] == t[12]
    requires r[1] == t[13] && r[5] == t[1] && r[9] == t[5] && r[13] == t[9]
    requires r[2] == t[10] && r[6] == t[14] && r[10] == t[2] && r[14] == t[6]
    requires r[3] == t[7] && r[7] == t[11] && r[11] == t[15] && r[15] == t[3]
    ensures r == InvShiftRows(t)
  {
    hide Behind;
    BehindTable();
  }

  lemma ByCases(i: nat)
    requires i < 16
    ensures i % 4 == 0 || i % 4 == 1 || i % 4 == 2 || i % 4 == 3
    ensures i / 4 == 0 || i / 4 == 1 || i / 4 == 2 || i / 4 == 3
  {
  }

  method ShiftInto(r: array<bv8>, t: array<bv8>)
    requires r.Length == 16 == t.Length && r != t
    modifies r
    ensures r[..] == ShiftRows(t[..])
  {
    PutRow(r, 0, t[0], t[4], t[8], t[12]);
    PutRow(r, 1, t[5], t[9], t[13], t[1]);
    PutRow(r, 2, t[10], t[14], t[2], t[6]);
    PutRow(r, 3, t[15], t[3], t[7], t[11]);
    Sixteen(r[..], t[..]);
  }

  /** The four assignments to one row of the state. */
  method PutRow(r: array<bv8>, row: nat, a: bv8, b: bv8, c: bv8, d: bv8)
    requires r.Length == 16 && row < 4
    modifies r
    ensures r[row] == a && r[row + 4] == b && r[row + 8] == c && r[row + 12] == d
    ensures forall i :: 0 <= i < 16 && i != row && i != row + 4 && i != row + 8 && i != row + 12 ==> r[i] == old(r[i])
  {
    r[row], r[row + 4], r[row + 8], r[row + 12] := a, b, c, d;
  }

  method InvShiftInto(r: array<bv8>, t: array<bv8>)
    requires r.Length == 16 == t.Length && r != t
    modifies r
    ensures r[..] == InvShiftRows(t[..])
  {
    PutRow(r, 0, t[0], t[4], t[8], t[12]);
    PutRow(r, 1, t[13], t[1], t[5], t[9]);
    PutRow(r, 2, t[10], t[14], t[2], t[6]);
    PutRow(r, 3, t[7], t[11], t[15], t[3]);
    InvSixteen(r[..], t[..]);
  }

  /** A column put in place is that column of the whole product. */
  lemma ColumnIn(p: Block, s: Block, c: nat)
    requires c < 4
    ensures Col(p, c) == Mix(Col(s, c)) ==> forall j :: 4 * c <= j < 4 * c + 4 ==> p[j] == MixColumns(s)[j]
    ensures Col(p, c) == Unmix(Col(s, c)) ==> forall j :: 4 * c <= j < 4 * c + 4 ==> p[j] == InvMixColumns(s)[j]
  {
    hide Mix, Unmix;
    ColMix(s, c);
    SameColumn(p, MixColumns(s), c);
    SameColumn(p, InvMixColumns(s), c);
  }

  lemma SameColumn(p: Block, q: Block, c: nat)
    requires c < 4
    ensures Col(p, c) == Col(q, c) ==> forall j :: 4 * c <= j < 4 * c + 4 ==> p[j] == q[j]
  {
    forall j | Col(p, c) == Col(q, c) && 4 * c <= j < 4 * c + 4 ensures p[j] == q[j] {
      assert j == 4 * c || j == 4 * c + 1 || j == 4 * c + 2 || j == 4 * c + 3;
    }
  }

  method MixAll(r: array<bv8>)
    requires r.Length == 16
    modifies r
    ensures r[..] == MixColumns(old(r[..]))
  {
    hide Mix, MixColumns;
    ghost var s := r[..];
    for col := 0 to 4
      invariant forall j :: 0 <= j < 4 * col ==> r[j] == MixColumns(s)[j]
      invariant forall j :: 4 * col <= j < 16 ==> r[j] == s[j]
    {
      assert Col(r[..], col) == Col(s, col);
      MixInPlace(r, col);
      ColumnIn(r[..], s, col);
    }
  }

  method UnmixAll(r: array<bv8>)
    requires r.Length == 16
    modifies r
    ensures r[..] == InvMixColumns(old(r[..]))
  {
    hide Unmix, InvMixColumns;
    ghost var s := r[..];
    for col := 0 to 4
      invariant forall j :: 0 <= j < 4 * col ==> r[j] == InvMixColumns(s)[j]
      invariant forall j :: 4 * col <= j < 16 ==> r[j] == s[j]
    {
      assert Col(r[..], col) == Col(s, col);
      UnmixInPlace(r, col);
      ColumnIn(r[..], s, col);
    }
  }

  /** aes128_encrypt. */
  method EncryptBlock(rk: Schedule, input: array<bv8>, out: array<bv8>)
    requires input.Length == 16 == out.Length
    modifies out
    ensures out[..] == Encrypt(rk, old(input[..]))
  {
    hide AddKey, MixColumns, SubBytes, ShiftRows;
    ghost var x := input[..];
    var s, t, r := new bv8[16], new bv8[16], new bv8[16];
    AddInto(s, input, rk, 0);
    for round := 1 to 11
      invariant s[..] == Rounds(rk, x, round - 1) && input[..] == x
    {
      SubInto(t, s);
      ShiftInto(r, t);
      if round < 10 { MixAll(r); }
      AddInto(s, r, rk, round);
    }
    CopyInto(out, s);
  }

  method CopyInto(dst: array<bv8>, src: array<bv8>)
    requires dst.Length == 16 == src.Length && dst != src
    modifies dst
    ensures dst[..] == src[..]
  {
    for i := 0 to 16
      invariant forall j :: 0 <= j < i ==> dst[j] == src[j]
    {
      dst[i] := src[i];
    }
  }

  /** aes128_decrypt. */
  method DecryptBlock(rk: Schedule, input: array<bv8>, out: array<bv8>)
    requires input.Length == 16 == out.Length
    modifies out
    ensures out[..] == Decrypt(rk, old(input[..]))
  {
    hide AddKey, InvMixColumns, InvSubBytes, InvShiftRows;
    ghost var y := input[..];
    var s, t, r := new bv8[16], new bv8[16], new bv8[16];
    AddInto(s, input, rk, 10);
    for round := 10 downto 0
      invariant s[..] == InvRounds(rk, y, round) && input[..] == y
    {
      InvShiftInto(r, s);
      InvSubInto(t, r);
      AddInto(t, t, rk, round);
      if round > 0 { UnmixAll(t); }
      CopyInto(s, t);
    }
    CopyInto(out, s);
  }
}
