/** A round of AES column by column, and the key schedule byte by byte. */
module AesRounds {
  import opened Config
  import opened AesTables
  import opened Aes
  import opened AesCipher
  import opened KeyWrap

  // ---- rounds by columns ----

  function Substituted(s: Column): Column {
    Column(Sbox(s.a0), Sbox(s.a1), Sbox(s.a2), Sbox(s.a3))
  }

  /** The bytes that come together in column c: one from each column, from the next on. */
  function Diagonal(s: Block, c: nat): Column
    requires c < 4
  {
    Column(Col(s, c).a0, Col(s, (c + 1) % 4).a1, Col(s, (c + 2) % 4).a2, Col(s, (c + 3) % 4).a3)
  }

  lemma ShiftDiagonal(s: Block, c: nat)
    requires c < 4
    ensures Col(ShiftRows(SubBytes(s)), c) == Substituted(Diagonal(s, c))
  {
    hide Ahead, Sbox;
    AheadTable();
    if c == 0 {} else if c == 1 {} else if c == 2 {} else {}
  }

  function KeyColumn(rk: Schedule, r: nat, c: nat): Column
    requires r <= 10 && c < 4
  {
    Column(rk[16 * r + 4 * c], rk[16 * r + 4 * c + 1], rk[16 * r + 4 * c + 2], rk[16 * r + 4 * c + 3])
  }

  lemma KeyAdded(s: Block, rk: Schedule, r: nat, c: nat)
    requires r <= 10 && c < 4
    ensures Col(AddKey(s, rk, r), c) == XorColumn(Col(s, c), KeyColumn(rk, r, c))
  {
    hide Xor;
  }

  /** Each column after a round depends on one byte of each column before it, the next column
      one row lower each time, and on one word of the key; the first round key is added before
      any round, and the tenth round mixes nothing. */
  lemma RoundColumns(rk: Schedule, x: Block, r: nat, c: nat)
    requires r <= 10 && c < 4
    ensures r == 0 ==> Col(Rounds(rk, x, 0), c) == XorColumn(Col(x, c), KeyColumn(rk, 0, c))
    ensures 0 < r < 10 ==>
              var s := Mix(Substituted(Diagonal(Rounds(rk, x, r - 1), c)));
              Col(Rounds(rk, x, r), c) == XorColumn(s, KeyColumn(rk, r, c))
    ensures r == 10 ==>
              var s := Substituted(Diagonal(Rounds(rk, x, 9), c));
              Col(Encrypt(rk, x), c) == XorColumn(s, KeyColumn(rk, 10, c))
  {
    hide AddKey, SubBytes, ShiftRows, MixColumns, Mix, Diagonal, Substituted, XorColumn, KeyColumn;
    if r == 0 {
      KeyAdded(x, rk, 0, c);
    } else {
      var t := ShiftRows(SubBytes(Rounds(rk, x, r - 1)));
      ShiftDiagonal(Rounds(rk, x, r - 1), c);
      if r < 10 {
        ColMix(t, c);
        KeyAdded(MixColumns(t), rk, r, c);
      } else {
        KeyAdded(t, rk, 10, c);
      }
    }
  }

  // ---- the key schedule by bytes ----

  /** The key comes first; every further byte is the one sixteen before it and one four before
      it, the latter substituted and turned once per round, and every sixteenth also a power
      of x. */
  lemma ScheduleBytes(key: Block, j: nat)
    requires j < 176
    ensures var e := Expand(key);
            && (j < 16 ==> e[j] == key[j])
            && (j >= 16 && j % 16 >= 4 ==> e[j] == Xor(e[j - 16], e[j - 4]))
            && (j >= 16 && j % 16 == 0 ==> e[j] == Xor(e[j - 16], Xor(Sbox(e[j - 3]), Rcon(j / 16))))
            && (j >= 16 && (j % 16 == 1 || j % 16 == 2) ==> e[j] == Xor(e[j - 16], Sbox(e[j - 3])))
            && (j >= 16 && j % 16 == 3 ==> e[j] == Xor(e[j - 16], Sbox(e[j - 7])))
  {
    hide Xor, Sbox, Rcon, Expand, Word, KeyWrap.Turned;
    var w, b := j / 4, j % 4;
    assert j == 4 * w + b && j / 16 == w / 4 && j % 16 == 4 * (w % 4) + b;
    ExpandAt(key, w);
    if w < 4 {
      FirstWords(key, w);
    } else {
      ExpandAt(key, w - 1);
      ExpandAt(key, w - 4);
      NextWord(key, w);
      TurnedIs(Word(key, w - 1), w);
    }
  }

  lemma ExpandAt(key: Block, w: nat)
    requires w < 44
    ensures var e := Expand(key); Word(key, w) == Column(e[4 * w], e[4 * w + 1], e[4 * w + 2], e[4 * w + 3])
  {
    hide Word, Expand;
    ByteOfWord(key, w, 0);
    ByteOfWord(key, w, 1);
    ByteOfWord(key, w, 2);
    ByteOfWord(key, w, 3);
  }

  lemma ByteOfWord(key: Block, w: nat, b: nat)
    requires w < 44 && b < 4
    ensures Expand(key)[4 * w + b] == At(Word(key, w), b)
  {
    hide Word, At;
    assert (4 * w + b) / 4 == w && (4 * w + b) % 4 == b;
  }

  lemma FirstWords(key: Block, w: nat)
    requires w < 4
    ensures Word(key, w) == Col(key, w)
  {
  }

  lemma TurnedIs(t: Column, i: nat)
    ensures KeyWrap.Turned(t, i) ==
              if i % 4 == 0 then Column(Xor(Sbox(t.a1), Rcon(i / 4)), Sbox(t.a2), Sbox(t.a3), Sbox(t.a0)) else t
  {
  }
}
