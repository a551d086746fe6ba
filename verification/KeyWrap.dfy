/** Key expansion (FIPS 197, section 5.2) and AES key wrap (RFC 3394, section 2.2). */
module KeyWrap {
  import opened Config
  import opened AesTables
  import opened Aes
  import opened AesCipher

  type Half = s: seq<bv8> | |s| == 8 witness seq(8, _ => 0)

  // ---- key expansion ----

  /** Powers of x: the round constants. */
  function Rcon(i: nat): bv8
    decreases i
  {
    if i <= 1 then 1 else Xtime(Rcon(i - 1))
  }

  function XorColumn(a: Column, b: Column): Column {
    Column(Xor(a.a0, b.a0), Xor(a.a1, b.a1), Xor(a.a2, b.a2), Xor(a.a3, b.a3))
  }

  /** RotWord, SubWord and the round constant, on every fourth word. */
  function Turned(t: Column, i: nat): Column {
    if i % 4 == 0 then Column(Xor(Sbox(t.a1), Rcon(i / 4)), Sbox(t.a2), Sbox(t.a3), Sbox(t.a0)) else t
  }

  function Word(key: Block, i: nat): Column
    decreases i
  {
    if i < 4 then Col(key, i) else XorColumn(Word(key, i - 4), Turned(Word(key, i - 1), i))
  }

  function Expand(key: Block): Schedule {
    seq(176, j requires 0 <= j < 176 => At(Word(key, j / 4), j % 4))
  }

  /** The table of round constants is the powers of x. */
  lemma RconTable()
    ensures Rcon(1) == 0x01 && Rcon(2) == 0x02 && Rcon(3) == 0x04 && Rcon(4) == 0x08 && Rcon(5) == 0x10
    ensures Rcon(6) == 0x20 && Rcon(7) == 0x40 && Rcon(8) == 0x80 && Rcon(9) == 0x1b && Rcon(10) == 0x36
  {
    RconStep(1);
    RconStep(2);
    RconStep(3);
    RconStep(4);
    RconStep(5);
    RconStep(6);
    RconStep(7);
    RconStep(8);
    RconStep(9);
  }

  lemma RconStep(i: nat)
    requires i >= 1
    ensures Rcon(i + 1) == Xtime(Rcon(i))
  {
  }

  method RconAt(i: nat) returns (r: bv8)
    requires 1 <= i <= 10
    ensures r == Rcon(i)
  {
    hide Rcon;
    RconTable();
    var rcon: seq<bv8> := [0x01, 0x02, 0x04, 0x08, 0x10, 0x20, 0x40, 0x80, 0x1b, 0x36];
    r := rcon[i - 1];
  }

  /** Word w of the schedule stands in bytes 4w to 4w + 3. */
  ghost predicate WordIn(rk: seq<bv8>, key: Block, w: nat)
  {
    4 * w + 4 <= |rk| && Column(rk[4 * w], rk[4 * w + 1], rk[4 * w + 2], rk[4 * w + 3]) == Word(key, w)
  }

  lemma Expanded(rk: Schedule, key: Block)
    requires forall w :: 0 <= w < 44 ==> WordIn(rk, key, w)
    ensures rk == Expand(key)
  {
    hide Word;
    forall j | 0 <= j < 176 ensures rk[j] == At(Word(key, j / 4), j % 4) {
      assert WordIn(rk, key, j / 4);
    }
  }

  /** aes128_init. */
  method ExpandKey(key: Block) returns (rk: Schedule)
    ensures rk == Expand(key)
  {
    hide WordIn;
    var a := new bv8[176](_ => 0);
    CopyKey(a, key);
    for i := 4 to 44
      invariant forall w :: 0 <= w < i ==> WordIn(a[..], key, w)
    {
      ExpandWord(a, key, i);
    }
    rk := a[..];
    Expanded(rk, key);
  }

  method ReadWord(a: array<bv8>, i: nat) returns (c: Column)
    requires 4 * i + 4 <= a.Length
    ensures c == Column(a[4 * i], a[4 * i + 1], a[4 * i + 2], a[4 * i + 3])
  {
    c := Column(a[4 * i], a[4 * i + 1], a[4 * i + 2], a[4 * i + 3]);
  }

  /** One turn of the loop: the next word of the schedule. */
  method ExpandWord(a: array<bv8>, ghost key: Block, i: nat)
    requires a.Length == 176 && 4 <= i < 44 && forall w :: 0 <= w < i ==> WordIn(a[..], key, w)
    modifies a
    ensures forall w :: 0 <= w <= i ==> WordIn(a[..], key, w)
  {
    hide Word, Xor, Sbox, Rcon, XorColumn;
    assert WordIn(a[..], key, i - 1) && WordIn(a[..], key, i - 4);
    NextWord(key, i);
    var t := ReadWord(a, i - 1);
    var u := ReadWord(a, i - 4);
    if i % 4 == 0 {
      var r := RconAt(i / 4);
      t := Column(Xor(Sbox(t.a1), r), Sbox(t.a2), Sbox(t.a3), Sbox(t.a0));
    }
    ghost var before := a[..];
    StoreWord(a, i, XorColumn(u, t));
    WordsKept(before, a[..], key, i);
  }

  lemma WordsKept(rk: seq<bv8>, rk': seq<bv8>, key: Block, i: nat)
    requires |rk| == |rk'| && forall w :: 0 <= w < i ==> WordIn(rk, key, w)
    requires forall j :: 0 <= j < 4 * i && j < |rk| ==> rk'[j] == rk[j]
    ensures forall w :: 0 <= w < i ==> WordIn(rk', key, w)
  {
    hide Word;
    forall w | 0 <= w < i ensures WordIn(rk', key, w) { assert WordIn(rk, key, w); }
  }

  lemma NextWord(key: Block, i: nat)
    requires i >= 4
    ensures Word(key, i) == XorColumn(Word(key, i - 4), Turned(Word(key, i - 1), i))
  {
  }

  method StoreWord(a: array<bv8>, i: nat, c: Column)
    requires 4 * i + 4 <= a.Length
    modifies a
    ensures Column(a[4 * i], a[4 * i + 1], a[4 * i + 2], a[4 * i + 3]) == c
    ensures forall j :: 0 <= j < a.Length && (j < 4 * i || 4 * i + 4 <= j) ==> a[j] == old(a[j])
  {
    a[4 * i], a[4 * i + 1], a[4 * i + 2], a[4 * i + 3] := c.a0, c.a1, c.a2, c.a3;
  }

  method CopyKey(a: array<bv8>, key: Block)
    requires a.Length == 176
    modifies a
    ensures forall w :: 0 <= w < 4 ==> WordIn(a[..], key, w)
  {
    for i := 0 to 16
      invariant forall j :: 0 <= j < i ==> a[j] == key[j]
    {
      a[i] := key[i];
    }
  }

  // ---- key wrap ----

  const IV: Half := [0xa6, 0xa6, 0xa6, 0xa6, 0xa6, 0xa6, 0xa6, 0xa6]

  /** The registers: the integrity check register and the n blocks. */
  datatype Regs = Regs(a: Half, r: seq<Half>)

  /** Byte k (from the right) of the 32-bit step counter. */
  function CountByte(t: nat, k: nat): bv8
    requires k < 4
  {
    ((if k == 0 then t else if k == 1 then t / 0x100 else if k == 2 then t / 0x1_0000
        else t / 0x100_0000) % 0x100) as bv8
  }

  /** A ^ t, with t as a big-endian 64-bit number (below 2^32 here). */
  function WithCount(a: Half, t: nat): Half {
    [a[0], a[1], a[2], a[3], Xor(a[4], CountByte(t, 3)), Xor(a[5], CountByte(t, 2)), Xor(a[6], CountByte(t, 1)),
        Xor(a[7], CountByte(t, 0))]
  }

  lemma CountTwice(a: Half, t: nat)
    ensures WithCount(WithCount(a, t), t) == a
  {
    hide Xor, CountByte;
    XorLaws(a[4], CountByte(t, 3), 0);
    XorLaws(a[5], CountByte(t, 2), 0);
    XorLaws(a[6], CountByte(t, 1), 0);
    XorLaws(a[7], CountByte(t, 0), 0);
  }

  function Join(a: Half, r: Half): Block { a + r }

  function High(b: Block): Half { b[..8] }

  function Low(b: Block): Half { b[8..] }

  lemma Joined(a: Half, r: Half, b: Block)
    ensures High(Join(a, r)) == a && Low(Join(a, r)) == r && Join(High(b), Low(b)) == b
  {
  }

  /** One step of wrapping (section 2.2.1): block i, step number t. */
  function WrapStep(rk: Schedule, x: Regs, i: nat, t: nat): (y: Regs)
    requires 1 <= i <= |x.r|
    ensures |y.r| == |x.r|
  {
    var b := Encrypt(rk, Join(x.a, x.r[i - 1]));
    Regs(WithCount(High(b), t), x.r[i - 1 := Low(b)])
  }

  /** One step of unwrapping (section 2.2.2). */
  function UnwrapStep(rk: Schedule, y: Regs, i: nat, t: nat): (x: Regs)
    requires 1 <= i <= |y.r|
    ensures |x.r| == |y.r|
  {
    var b := Decrypt(rk, Join(WithCount(y.a, t), y.r[i - 1]));
    Regs(High(b), y.r[i - 1 := Low(b)])
  }

  lemma StepInverse(rk: Schedule, x: Regs, i: nat, t: nat)
    requires 1 <= i <= |x.r|
    ensures UnwrapStep(rk, WrapStep(rk, x, i, t), i, t) == x
    ensures WrapStep(rk, UnwrapStep(rk, x, i, t), i, t) == x
  {
    hide Encrypt, Decrypt, WithCount, Join, High, Low;
    var p := Join(x.a, x.r[i - 1]);
    DecryptEncrypt(rk, p);
    Joined(x.a, x.r[i - 1], Encrypt(rk, p));
    CountTwice(High(Encrypt(rk, p)), t);
    var q := Join(WithCount(x.a, t), x.r[i - 1]);
    EncryptDecrypt(rk, q);
    Joined(WithCount(x.a, t), x.r[i - 1], Decrypt(rk, q));
    CountTwice(x.a, t);
    assert x.r[i - 1 := x.r[i - 1]] == x.r;
  }

  /** Steps are numbered from 1, pass by pass. */
  function StepNumber(n: nat, j: nat, i: nat): nat { n * j + i }

  /** The registers after steps (0, 1) to (j, i) of wrapping, six passes over the blocks. */
  function WrapTo(rk: Schedule, x: Regs, j: nat, i: nat): (y: Regs)
    requires i <= |x.r|
    ensures |y.r| == |x.r|
    decreases j, i
  {
    if i > 0 then WrapStep(rk, WrapTo(rk, x, j, i - 1), i, StepNumber(|x.r|, j, i))
    else if j > 0 then WrapTo(rk, x, j - 1, |x.r|)
    else x
  }

  function Wrap(rk: Schedule, p: seq<Half>): Regs {
    WrapTo(rk, Regs(IV, p), 5, |p|)
  }

  /** The registers with every step behind (j, i) undone. */
  function UnwrapFrom(rk: Schedule, y: Regs, j: nat, i: nat): (x: Regs)
    requires i <= |y.r| && j <= 5
    ensures |x.r| == |y.r|
    decreases 5 - j, |y.r| - i
  {
    if i < |y.r| then UnwrapStep(rk, UnwrapFrom(rk, y, j, i + 1), i + 1, StepNumber(|y.r|, j, i + 1))
    else if j < 5 then UnwrapFrom(rk, y, j + 1, 0)
    else y
  }

  function Unwrap(rk: Schedule, y: Regs): Regs {
    UnwrapFrom(rk, y, 0, 0)
  }

  lemma {:induction false} Undone(rk: Schedule, x: Regs, j: nat, i: nat)
    requires i <= |x.r| && j <= 5
    ensures UnwrapFrom(rk, WrapTo(rk, x, 5, |x.r|), j, i) == WrapTo(rk, x, j, i)
    decreases 5 - j, |x.r| - i
  {
    hide StepNumber, WrapStep, UnwrapStep;
    if i < |x.r| {
      Undone(rk, x, j, i + 1);
      StepInverse(rk, WrapTo(rk, x, j, i), i + 1, StepNumber(|x.r|, j, i + 1));
    } else if j < 5 {
      Undone(rk, x, j + 1, 0);
    }
  }

  lemma {:induction false} Redone(rk: Schedule, y: Regs, j: nat, i: nat)
    requires i <= |y.r| && j <= 5
    ensures WrapTo(rk, Unwrap(rk, y), j, i) == UnwrapFrom(rk, y, j, i)
    decreases j, i
  {
    hide StepNumber, WrapStep, UnwrapStep;
    if i > 0 {
      Redone(rk, y, j, i - 1);
      StepInverse(rk, UnwrapFrom(rk, y, j, i), i, StepNumber(|y.r|, j, i));
    } else if j > 0 {
      Redone(rk, y, j - 1, |y.r|);
    }
  }

  /** Unwrapping gives back what was wrapped, with the initial value intact, for every key and
      every number of blocks. */
  lemma UnwrapWrap(rk: Schedule, p: seq<Half>)
    ensures Unwrap(rk, Wrap(rk, p)) == Regs(IV, p)
  {
    hide StepNumber, WrapStep, UnwrapStep;
    Undone(rk, Regs(IV, p), 0, 0);
  }

  /** And whatever unwraps to the initial value is a wrap: nothing else is accepted. */
  lemma AcceptedIsWrap(rk: Schedule, y: Regs)
    ensures Unwrap(rk, y).a == IV <==> y == Wrap(rk, Unwrap(rk, y).r)
  {
    hide StepNumber, WrapStep, UnwrapStep, Unwrap, WrapTo, UnwrapFrom;
    LastSteps(rk, y);
    Redone(rk, y, 5, |y.r|);
    if y == Wrap(rk, Unwrap(rk, y).r) {
      UnwrapWrap(rk, Unwrap(rk, y).r);
    }
  }

  lemma LastSteps(rk: Schedule, y: Regs)
    ensures UnwrapFrom(rk, y, 5, |y.r|) == y && |Unwrap(rk, y).r| == |y.r|
  {
    hide StepNumber, WrapStep, UnwrapStep;
  }

  // ---- the standard's steps, counted from 1 to 6n ----

  /** The first t steps of section 2.2.1 of RFC 3394: step t takes block (t - 1) mod n + 1. */
  function WrapBy(rk: Schedule, x: Regs, t: nat): (y: Regs)
    ensures |y.r| == |x.r|
    decreases t
  {
    if t == 0 || x.r == [] then x
    else
      var z := WrapBy(rk, x, t - 1);
      var i := (t - 1) % |x.r|;
      var b := Encrypt(rk, z.a + z.r[i]);
      Regs(WithCount(b[..8], t), z.r[i := b[8..]])
  }

  lemma IndexOf(n: nat, j: nat, i: nat)
    requires i < n
    ensures (n * j + i) % n == i
    decreases j
  {
    if j > 0 {
      IndexOf(n, j - 1, i);
      assert n * j + i == n + (n * (j - 1) + i);
      ModBelow(n, n * (j - 1) + i);
    }
  }

  lemma ModBelow(n: nat, x: nat)
    requires n > 0
    ensures (n + x) % n == x % n
  {
    assert n + x == n * (1 + x / n) + x % n;
    Remainder(n, 1 + x / n, x % n);
  }

  lemma {:induction false} Apart(n: nat, q: nat, k: nat)
    ensures q < k ==> n * q + n <= n * k
    decreases k
  {
    if q < k {
      Apart(n, q, k - 1);
      assert n * k == n * (k - 1) + n;
    }
  }

  lemma Remainder(n: nat, q: nat, r: nat)
    requires r < n
    ensures (n * q + r) % n == r
  {
    var y := n * q + r;
    Apart(n, q, y / n);
    Apart(n, y / n, q);
  }

  lemma {:induction false} Counted(rk: Schedule, x: Regs, j: nat, i: nat)
    requires i <= |x.r|
    ensures WrapTo(rk, x, j, i) == WrapBy(rk, x, |x.r| * j + i)
    decreases j, i
  {
    hide WrapBy, WrapStep;
    var n := |x.r|;
    if i > 0 {
      Counted(rk, x, j, i - 1);
      IndexOf(n, j, i - 1);
      CountedStep(rk, x, WrapTo(rk, x, j, i - 1), n * j + i, i - 1);
    } else if j > 0 {
      Counted(rk, x, j - 1, n);
      assert n * (j - 1) + n == n * j;
    } else {
      assert WrapBy(rk, x, 0) == x by { NoSteps(rk, x); }
    }
  }

  lemma NoSteps(rk: Schedule, x: Regs)
    ensures WrapBy(rk, x, 0) == x
  {
  }

  lemma CountedStep(rk: Schedule, x: Regs, z: Regs, t: nat, i: nat)
    requires t > 0 && z == WrapBy(rk, x, t - 1) && i < |x.r| && i == (t - 1) % |x.r|
    ensures WrapBy(rk, x, t) == WrapStep(rk, z, i + 1, t)
  {
    hide Encrypt, WithCount;
  }

  /** The two nested loops of the wrap are the standard's 6n steps in order, from the initial
      value of section 2.2.3.1. */
  lemma WrapIsStandard(rk: Schedule, p: seq<Half>)
    ensures Wrap(rk, p) == WrapBy(rk, Regs([0xa6, 0xa6, 0xa6, 0xa6, 0xa6, 0xa6, 0xa6, 0xa6], p), 6 * |p|)
  {
    hide WrapTo, WrapBy;
    Counted(rk, Regs(IV, p), 5, |p|);
    assert |p| * 5 + |p| == 6 * |p|;
  }

  // ---- aes_unwrap ----

  /** The k-th 8-byte block of a buffer. */
  function Piece(s: seq<bv8>, k: nat): Half
    requires 8 * k + 8 <= |s|
  {
    s[8 * k..8 * k + 8]
  }

  function Pieces(s: seq<bv8>, n: nat): (r: seq<Half>)
    requires 8 * n <= |s|
    ensures |r| == n
  {
    seq(n, k requires 0 <= k < n => Piece(s, k))
  }

  /** The wrapped key as registers: the first block is the check register. */
  function Registers(wrapped: seq<bv8>, n: nat): Regs
    requires |wrapped| == 8 * n + 8
  {
    Regs(wrapped[..8], Pieces(wrapped[8..], n))
  }

  /** The step number fits the 32-bit word the code keeps it in. */
  lemma StepFits(n: nat, j: nat, i: nat)
    requires j <= 5 && i <= n && 6 * n < TWO32
    ensures U32(U32(n * j) + i) == StepNumber(n, j, i) < TWO32
  {
    if j == 0 {} else if j == 1 {} else if j == 2 {} else if j == 3 {} else if j == 4 {} else {}
  }

  /** One step on the buffers: block i of `out` and the register a. */
  method StepBack(rk: Schedule, a: array<bv8>, out: array<bv8>, n: nat, i: nat, t: nat)
    requires a.Length == 8 && out.Length == 8 * n && 1 <= i <= n && a != out
    modifies a, out
    ensures Regs(a[..], Pieces(out[..], n)) == UnwrapStep(rk, old(Regs(a[..], Pieces(out[..], n))), i, t)
  {
    hide Decrypt, WithCount, Join, High, Low, Pieces;
    ghost var r := Pieces(out[..], n);
    var blk, b := new bv8[16], new bv8[16];
    Load(blk, a, out, n, i - 1);
    Joined(a[..], r[i - 1], blk[..]);
    XorCount(blk, t);
    DecryptBlock(rk, blk, b);
    Store(a, out, b, n, i - 1);
  }

  /** The step number added into the last four bytes of the check register. */
  method XorCount(blk: array<bv8>, t: nat)
    requires blk.Length == 16
    modifies blk
    ensures blk[..] == Join(WithCount(High(old(blk[..])), t), Low(old(blk[..])))
  {
    hide Xor, CountByte;
    blk[7] := Xor(blk[7], CountByte(t, 0));
    blk[6] := Xor(blk[6], CountByte(t, 1));
    blk[5] := Xor(blk[5], CountByte(t, 2));
    blk[4] := Xor(blk[4], CountByte(t, 3));
  }

  /** memcpy */
  method Copy(dst: array<bv8>, at: nat, src: array<bv8>, from: nat, len: nat)
    requires at + len <= dst.Length && from + len <= src.Length && dst != src
    modifies dst
    ensures forall k :: at <= k < at + len ==> dst[k] == src[from + (k - at)]
    ensures forall k :: 0 <= k < dst.Length && (k < at || at + len <= k) ==> dst[k] == old(dst[k])
  {
    for i := 0 to len
      invariant forall k :: at <= k < at + i ==> dst[k] == src[from + (k - at)]
      invariant forall k :: 0 <= k < dst.Length && (k < at || at + i <= k) ==> dst[k] == old(dst[k])
    {
      dst[at + i] := src[from + i];
    }
  }

  /** blk becomes a followed by block k of out. */
  method Load(blk: array<bv8>, a: array<bv8>, out: array<bv8>, n: nat, k: nat)
    requires blk.Length == 16 && a.Length == 8 && out.Length == 8 * n && k < n && blk != a && blk != out
    modifies blk
    ensures blk[..] == Join(a[..], Pieces(out[..], n)[k])
  {
    Copy(blk, 0, a, 0, 8);
    Copy(blk, 8, out, 8 * k, 8);
  }

  /** The two halves of b go back to a and to block k of out. */
  method Store(a: array<bv8>, out: array<bv8>, b: array<bv8>, n: nat, k: nat)
    requires b.Length == 16 && a.Length == 8 && out.Length == 8 * n && k < n && a != out && b != a && b != out
    modifies a, out
    ensures a[..] == High(b[..]) && Pieces(out[..], n) == old(Pieces(out[..], n))[k := Low(b[..])]
  {
    ghost var before := out[..];
    Copy(a, 0, b, 0, 8);
    Copy(out, 8 * k, b, 8, 8);
    PieceStored(before, out[..], n, k, Low(b[..]));
  }

  lemma PieceStored(s: seq<bv8>, s': seq<bv8>, n: nat, k: nat, h: Half)
    requires |s| == 8 * n == |s'| && k < n
    requires forall m :: 8 * k <= m < 8 * k + 8 ==> s'[m] == h[m - 8 * k]
    requires forall j :: 0 <= j < |s| && (j < 8 * k || 8 * k + 8 <= j) ==> s'[j] == s[j]
    ensures Pieces(s', n) == Pieces(s, n)[k := h]
  {
    forall m | 0 <= m < n ensures Piece(s', m) == if m == k then h else Piece(s, m) {
      forall j | 0 <= j < 8 ensures Piece(s', m)[j] == (if m == k then h else Piece(s, m))[j] {
        if m < k { assert 8 * m + j < 8 * k; }
        if m > k { assert 8 * m + j >= 8 * k + 8; }
      }
    }
  }

  /** Unwraps n blocks into `out`; returns 0 when the check register came out as it should. */
  method AesUnwrap(kek: Block, n: nat, wrapped: seq<bv8>, out: array<bv8>) returns (rc: int)
    requires |wrapped| == 8 * n + 8 && out.Length == 8 * n && 6 * n < TWO32
    modifies out
    ensures var x := Unwrap(Expand(kek), Registers(wrapped, n));
            Pieces(out[..], n) == x.r && rc == (if x.a == IV then 0 else -1)
  {
    hide UnwrapStep, UnwrapFrom, StepNumber, Expand;
    var rk := ExpandKey(kek);
    ghost var y := Registers(wrapped, n);
    var a := new bv8[8](i requires 0 <= i < 8 => wrapped[i]);
    CopyBlocks(out, wrapped, n);
    UnrollFrom(rk, y);
    for j := 6 downto 0
      invariant j > 0 ==> Regs(a[..], Pieces(out[..], n)) == UnwrapFrom(rk, y, j - 1, n)
      invariant j == 0 ==> Regs(a[..], Pieces(out[..], n)) == UnwrapFrom(rk, y, 0, 0)
    {
      Pass(rk, a, out, n, j, y);
      if j > 0 { PassEnds(rk, y, j); }
    }
    rc := if AllA6(a[..]) then 0 else -1;
  }

  /** All n steps of pass j, from the last block to the first. */
  method Pass(rk: Schedule, a: array<bv8>, out: array<bv8>, n: nat, j: nat, ghost y: Regs)
    requires a.Length == 8 && out.Length == 8 * n && a != out && j <= 5 && |y.r| == n && 6 * n < TWO32
    requires Regs(a[..], Pieces(out[..], n)) == UnwrapFrom(rk, y, j, n)
    modifies a, out
    ensures Regs(a[..], Pieces(out[..], n)) == UnwrapFrom(rk, y, j, 0)
  {
    hide UnwrapStep, UnwrapFrom, StepNumber, Pieces;
    var i := n;
    while i >= 1
      invariant 0 <= i <= n && Regs(a[..], Pieces(out[..], n)) == UnwrapFrom(rk, y, j, i)
    {
      StepFits(n, j, i);
      FromStep(rk, y, j, i - 1);
      StepBack(rk, a, out, n, i, U32(U32(n * j) + i));
      i := i - 1;
    }
  }

  lemma FromStep(rk: Schedule, y: Regs, j: nat, i: nat)
    requires i < |y.r| && j <= 5
    ensures UnwrapFrom(rk, y, j, i) == UnwrapStep(rk, UnwrapFrom(rk, y, j, i + 1), i + 1, StepNumber(|y.r|, j, i + 1))
  {
    hide UnwrapStep, StepNumber;
  }

  lemma UnrollFrom(rk: Schedule, y: Regs)
    ensures UnwrapFrom(rk, y, 5, |y.r|) == y
  {
    hide UnwrapStep, StepNumber;
  }

  lemma PassEnds(rk: Schedule, y: Regs, j: nat)
    requires 0 < j <= 5
    ensures UnwrapFrom(rk, y, j - 1, |y.r|) == UnwrapFrom(rk, y, j, 0)
  {
    hide UnwrapStep, StepNumber;
  }

  predicate AllA6(a: Half)
    ensures AllA6(a) <==> a == IV
  {
    forall i :: 0 <= i < 8 ==> a[i] == 0xa6
  }

  method CopyBlocks(out: array<bv8>, wrapped: seq<bv8>, n: nat)
    requires |wrapped| == 8 * n + 8 && out.Length == 8 * n
    modifies out
    ensures out[..] == wrapped[8..]
  {
    for i := 0 to out.Length
      invariant forall j :: 0 <= j < i ==> out[j] == wrapped[8 + j]
    {
      out[i] := wrapped[8 + i];
    }
  }
}
