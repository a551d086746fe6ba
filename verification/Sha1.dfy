/** SHA-1: the compression function and padding of FIPS 180-4, and the streaming code proved
    to compute the hash of everything it was fed, however it was cut up. */
module Sha1 {
  import opened Config

  const BLOCK: int := 64

  // ---- FIPS 180-4, sections 4.1.1, 5.3.1 and 6.1.2 ----

  datatype Work = Work(a: bv32, b: bv32, c: bv32, d: bv32, e: bv32)

  const H0 := Work(0x67452301, 0xefcdab89, 0x98badcfe, 0x10325476, 0xc3d2e1f0)

  function Rol(x: bv32, n: nat): bv32
    requires 0 < n < 32
  {
    (x << n) | (x >> (32 - n))
  }

  function BigEndian(p0: bv8, p1: bv8, p2: bv8, p3: bv8): bv32 {
    ((p0 as bv32) << 24) | ((p1 as bv32) << 16) | ((p2 as bv32) << 8) | (p3 as bv32)
  }

  /** The message schedule. */
  function W(p: seq<bv8>, t: nat): bv32
    requires |p| == BLOCK
    decreases t
  {
    if t < 16 then BigEndian(p[4 * t], p[4 * t + 1], p[4 * t + 2], p[4 * t + 3])
    else Rol(Xor4(W(p, t - 3), W(p, t - 8), W(p, t - 14), W(p, t - 16)), 1)
  }

  function Xor4(a: bv32, b: bv32, c: bv32, d: bv32): bv32 { a ^ b ^ c ^ d }

  function Ch(x: bv32, y: bv32, z: bv32): bv32 { (x & y) ^ (!x & z) }
  function Parity(x: bv32, y: bv32, z: bv32): bv32 { x ^ y ^ z }
  function Maj(x: bv32, y: bv32, z: bv32): bv32 { (x & y) ^ (x & z) ^ (y & z) }

  function F(t: nat, x: bv32, y: bv32, z: bv32): bv32 {
    if t < 20 then Ch(x, y, z) else if t < 40 then Parity(x, y, z) else if t < 60 then Maj(x, y, z) else Parity(x, y, z)
  }

  function K(t: nat): bv32 {
    if t < 20 then 0x5a827999 else if t < 40 then 0x6ed9eba1 else if t < 60 then 0x8f1bbcdc else 0xca62c1d6
  }

  function Turn(s: Work, w: bv32, t: nat): Work {
    Work(Sum5(Rol(s.a, 5), F(t, s.b, s.c, s.d), s.e, K(t), w), s.a, Rol(s.b, 30), s.c, s.d)
  }

  function Sum5(a: bv32, b: bv32, c: bv32, d: bv32, e: bv32): bv32 { a + b + c + d + e }

  function Turns(s: Work, p: seq<bv8>, t: nat): Work
    requires |p| == BLOCK
    decreases t
  {
    if t == 0 then s else Turn(Turns(s, p, t - 1), W(p, t - 1), t - 1)
  }

  function Added(h: Work, s: Work): Work {
    Work(h.a + s.a, h.b + s.b, h.c + s.c, h.d + s.d, h.e + s.e)
  }

  function Compress(h: Work, p: seq<bv8>): Work
    requires |p| == BLOCK
  {
    Added(h, Turns(h, p, 80))
  }

  /** All whole blocks of a message. */
  function Fold(h: Work, m: seq<bv8>): Work
    decreases |m|
  {
    if |m| < BLOCK then h else Fold(Compress(h, m[..BLOCK]), m[BLOCK..])
  }

  // ---- padding (section 5.1.1) ----

  function Word32(x: int): seq<bv8>
    requires 0 <= x < TWO32
  {
    [(x / 0x100_0000 % 0x100) as bv8, (x / 0x1_0000 % 0x100) as bv8, (x / 0x100 % 0x100) as bv8, (x % 0x100) as bv8]
  }

  /** The message length in bits as a 64-bit number. */
  function Length64(n: nat): seq<bv8>
    requires 8 * n < TWO32 * TWO32
  {
    Word32(8 * n / TWO32) + Word32(8 * n % TWO32)
  }

  function Zeros(n: nat): (z: seq<bv8>)
    ensures |z| == n
  {
    seq(n, _ => 0)
  }

  /** How many zero bytes bring n + 1 bytes to 8 short of a whole block. */
  function Gap(n: nat): (k: nat)
    ensures k < BLOCK && (n + 1 + k) % BLOCK == 56
  {
    (119 - n % BLOCK) % BLOCK
  }

  /** The padding for a length of n bytes. */
  function Padding(n: nat): seq<bv8>
    requires 8 * n < TWO32 * TWO32
  {
    [0x80] + Zeros(Gap(n)) + Length64(n)
  }

  /** The hash of a message as one definition. */
  function Hash(m: seq<bv8>): Work
    requires 8 * |m| < TWO32 * TWO32
  {
    Fold(H0, m + Padding(|m|))
  }

  function Bytes(x: bv32): seq<bv8> {
    [((x >> 24) & 0xff) as bv8, ((x >> 16) & 0xff) as bv8, ((x >> 8) & 0xff) as bv8, (x & 0xff) as bv8]
  }

  function Digest(h: Work): seq<bv8> {
    Bytes(h.a) + Bytes(h.b) + Bytes(h.c) + Bytes(h.d) + Bytes(h.e)
  }

  // ---- what the constants and the turns are ----

  /** The constant of turn t is 2^30 times the square root of 2, 3, 5 or 10, rounded down. */
  lemma Roots(t: nat)
    requires t < 80
    ensures var n := if t < 20 then 2 else if t < 40 then 3 else if t < 60 then 5 else 10;
            var k := K(t) as int; k * k <= n * 0x1000_0000_0000_0000 < (k + 1) * (k + 1)
  {
    assert (0x5a827999 as bv32) as int == 0x5a827999 && (0x6ed9eba1 as bv32) as int == 0x6ed9eba1;
    assert (0x8f1bbcdc as bv32) as int == 0x8f1bbcdc && (0xca62c1d6 as bv32) as int == 0xca62c1d6;
  }

  /** The bytes of the initial value, each word from its low end: 01, 23 up to ef, down again to
      10, then f0 to c3. */
  lemma InitialBytes()
    ensures Bytes(H0.a) == [0x67, 0x45, 0x23, 0x01] && Bytes(H0.b) == [0xef, 0xcd, 0xab, 0x89]
    ensures Bytes(H0.c) == [0x98, 0xba, 0xdc, 0xfe] && Bytes(H0.d) == [0x10, 0x32, 0x54, 0x76]
    ensures Bytes(H0.e) == [0xc3, 0xd2, 0xe1, 0xf0]
  {
  }

  /** The compression is eighty turns, number 0 first, and adds the old value to the outcome. */
  lemma EightyTurns(h: Work, p: seq<bv8>, t: nat)
    requires |p| == 64
    ensures Turns(h, p, 0) == h && Turns(h, p, t + 1) == Turn(Turns(h, p, t), W(p, t), t)
    ensures Compress(h, p) == Added(h, Turns(h, p, 80))
  {
    hide W, Turn, Added;
  }

  /** Words are added modulo 2^32, each to its own. */
  lemma AddedWords()
    ensures Added(Work(0xffff_ffff, 2, 0x8000_0000, 4, 5), Work(1, 20, 0x8000_0001, 40, 50)) == Work(0, 22, 1, 44, 55)
    ensures Sum5(1, 20, 300, 4000, 0xffff_ffff) == 4320
  {
  }

  /** Bit by bit, the function of the first twenty turns is y where x is 1 and z where x is 0. */
  lemma ChBits(x: bv32, y: bv32, z: bv32)
    ensures (Ch(x, y, z) ^ y) & x == 0 && (Ch(x, y, z) ^ z) & !x == 0
  {
  }

  /** That of the third twenty is what its first two arguments are where they agree, and takes
      its arguments in any order. */
  lemma MajBits(x: bv32, y: bv32, z: bv32)
    ensures (Maj(x, y, z) ^ x) & !(x ^ y) == 0
  {
  }

  lemma MajTurned(x: bv32, y: bv32, z: bv32)
    ensures Maj(x, y, z) == Maj(y, z, x)
  {
  }

  /** Which turn uses which. */
  lemma FIs(t: nat, x: bv32, y: bv32, z: bv32)
    requires t < 80
    ensures t < 20 ==> F(t, x, y, z) == Ch(x, y, z)
    ensures 40 <= t < 60 ==> F(t, x, y, z) == Maj(x, y, z)
    ensures 20 <= t < 40 || 60 <= t < 80 ==> F(t, x, y, z) == x ^ y ^ z
  {
    ParityIs(x, y, z);
    hide Ch, Maj, Parity;
  }

  lemma ParityIs(x: bv32, y: bv32, z: bv32)
    ensures Parity(x, y, z) == x ^ y ^ z
  {
  }

  /** A turn: five words move on by one place, the second turned by 30 bits, and the new first
      is a sum of five terms. */
  lemma TurnIs(s: Work, w: bv32, t: nat)
    ensures var r := Turn(s, w, t);
            && r.a == Sum5(s.a.RotateLeft(5), F(t, s.b, s.c, s.d), s.e, K(t), w)
            && r.b == s.a && r.c == s.b.RotateLeft(30) && r.d == s.c && r.e == s.d
  {
    Rotations(s.a);
    Rotations(s.b);
    hide Rol, F, K, Sum5;
  }

  lemma Rotations(x: bv32)
    ensures Rol(x, 1) == x.RotateLeft(1) && Rol(x, 5) == x.RotateLeft(5) && Rol(x, 30) == x.RotateLeft(30)
  {
  }

  /** The schedule: the sixteen words of the block, big-endian, and from there on every word is
      made of the ones 3, 8, 14 and 16 before it, turned by one bit. */
  lemma ScheduleIs(p: seq<bv8>, t: nat)
    requires |p| == 64
    ensures t < 16 ==> Bytes(W(p, t)) == p[4 * t..4 * t + 4]
    ensures t >= 16 ==> W(p, t) == (W(p, t - 3) ^ W(p, t - 8) ^ W(p, t - 14) ^ W(p, t - 16)).RotateLeft(1)
  {
    if t < 16 {
      BytesBack(p[4 * t], p[4 * t + 1], p[4 * t + 2], p[4 * t + 3]);
      hide BigEndian, Bytes;
    } else {
      Rotations(W(p, t - 3) ^ W(p, t - 8) ^ W(p, t - 14) ^ W(p, t - 16));
      hide Rol;
    }
  }

  lemma BytesBack(a: bv8, b: bv8, c: bv8, d: bv8)
    ensures Bytes(BigEndian(a, b, c, d)) == [a, b, c, d]
  {
  }

  /** The padding: one bit, then zeros as far as a whole block less eight bytes, then the length
      in bits as a big-endian number, in at most one block more. */
  lemma PaddingIs(n: nat)
    requires 8 * n < TWO32 * TWO32
    ensures var p := Padding(n);
            && 9 <= |p| <= 72 && (n + |p|) % 64 == 0 && p[0] == 0x80
            && (forall i :: 1 <= i < |p| - 8 ==> p[i] == 0)
            && var hi, lo := p[|p| - 8..|p| - 4], p[|p| - 4..];
            WordNumber(hi) * TWO32 + WordNumber(lo) == 8 * n
  {
    WordBack(8 * n / TWO32);
    WordBack(8 * n % TWO32);
    var p, k := Padding(n), Gap(n);
    hide Gap, Word32, WordNumber;
    assert p[|p| - 8..|p| - 4] == Word32(8 * n / TWO32) && p[|p| - 4..] == Word32(8 * n % TWO32);
    WholeBlock(n, k);
  }

  lemma WholeBlock(n: nat, k: nat)
    requires k < BLOCK && (n + 1 + k) % BLOCK == 56
    ensures (n + (1 + k + 8)) % 64 == 0
  {
  }

  /** Four bytes read as a big-endian number. */
  function WordNumber(s: seq<bv8>): nat
    requires |s| == 4
  {
    0x100_0000 * s[0] as nat + 0x1_0000 * s[1] as nat + 0x100 * s[2] as nat + s[3] as nat
  }

  lemma WordBack(x: int)
    requires 0 <= x < TWO32
    ensures WordNumber(Word32(x)) == x
  {
    WordBytes(x);
    FourBytes(x);
    hide Word32;
  }

  lemma WordBytes(x: int)
    requires 0 <= x < TWO32
    ensures var s := Word32(x);
            && |s| == 4 && s[0] as nat == x / 0x100_0000 % 0x100 && s[1] as nat == x / 0x1_0000 % 0x100
            && s[2] as nat == x / 0x100 % 0x100 && s[3] as nat == x % 0x100
  {
    ByteBack(x / 0x100_0000 % 0x100);
    ByteBack(x / 0x1_0000 % 0x100);
    ByteBack(x / 0x100 % 0x100);
    ByteBack(x % 0x100);
  }

  // ---- folding in pieces ----

  /** The bytes behind the last whole block. */
  function Rest(m: seq<bv8>): (r: seq<bv8>)
    ensures |r| == |m| % BLOCK
  {
    m[|m| - |m| % BLOCK..]
  }

  /** More bytes that do not complete a block change nothing; the ones that do compress it. */
  lemma {:induction false} FoldMore(h: Work, m: seq<bv8>, d: seq<bv8>)
    requires |m| % BLOCK + |d| <= BLOCK
    ensures |m| % BLOCK + |d| < BLOCK ==> Fold(h, m + d) == Fold(h, m) && Rest(m + d) == Rest(m) + d
    ensures |m| % BLOCK + |d| == BLOCK ==> Fold(h, m + d) == Compress(Fold(h, m), Rest(m) + d) && Rest(m + d) == []
    decreases |m|
  {
    hide Compress;
    RestMore(m, d);
    if |m| < BLOCK {
      if |m| + |d| == BLOCK { assert (m + d)[..BLOCK] == m + d && (m + d)[BLOCK..] == []; }
      assert Rest(m) == m;
    } else {
      assert (m + d)[..BLOCK] == m[..BLOCK] && (m + d)[BLOCK..] == m[BLOCK..] + d;
      RestTail(m);
      FoldMore(Compress(h, m[..BLOCK]), m[BLOCK..], d);
    }
  }

  lemma RestTail(m: seq<bv8>)
    requires |m| >= BLOCK
    ensures Rest(m[BLOCK..]) == Rest(m) && |m[BLOCK..]| % BLOCK == |m| % BLOCK
  {
    assert |m[BLOCK..]| == |m| - BLOCK;
    assert (|m| - BLOCK) % BLOCK == |m| % BLOCK;
  }

  lemma RestMore(m: seq<bv8>, d: seq<bv8>)
    requires |m| % BLOCK + |d| <= BLOCK
    ensures Rest(m + d) == if |m| % BLOCK + |d| < BLOCK then Rest(m) + d else []
  {
    LengthMore(|m|, |d|);
    assert |m + d| == |m| + |d|;
  }

  /** A multiple of the block size does not count. */
  lemma Multiple(q: int, x: int)
    ensures (BLOCK * q + x) % BLOCK == x % BLOCK
  {
  }

  lemma LengthMore(n: nat, k: nat)
    requires n % BLOCK + k <= BLOCK
    ensures (n + k) % BLOCK == if n % BLOCK + k < BLOCK then n % BLOCK + k else 0
  {
    var q := n / BLOCK;
    assert n + k == BLOCK * q + (n % BLOCK + k);
    Multiple(q, n % BLOCK + k);
  }

  // ---- sha1_block ----

  /** The code's forms of the two bit functions. */
  function Choose(x: bv32, y: bv32, z: bv32): bv32 { (x & y) | (!x & z) }
  function Majority(x: bv32, y: bv32, z: bv32): bv32 { (x & y) | (x & z) | (y & z) }

  lemma ChooseForm(x: bv32, y: bv32, z: bv32)
    ensures Choose(x, y, z) == Ch(x, y, z)
  {
    assert (x & y) | (!x & z) == (x & y) ^ (!x & z);
  }

  lemma MajorityForm(x: bv32, y: bv32, z: bv32)
    ensures Majority(x, y, z) == Maj(x, y, z)
  {
    assert (x & y) | (x & z) | (y & z) == (x & y) ^ (x & z) ^ (y & z);
  }

  method Schedule(p: seq<bv8>) returns (w: array<bv32>)
    requires |p| == BLOCK
    ensures fresh(w) && w.Length == 80 && forall t :: 0 <= t < 80 ==> w[t] == W(p, t)
  {
    w := new bv32[80](_ => 0);
    FirstWords(w, p);
    hide Rol, BigEndian, Xor4, W;
    for i := 16 to 80
      invariant forall t :: 0 <= t < i ==> w[t] == W(p, t)
      modifies w
    {
      NextWord(p, i);
      w[i] := Rol(Xor4(w[i - 3], w[i - 8], w[i - 14], w[i - 16]), 1);
    }
  }

  method FirstWords(w: array<bv32>, p: seq<bv8>)
    requires |p| == BLOCK && w.Length == 80
    modifies w
    ensures forall t :: 0 <= t < 16 ==> w[t] == W(p, t)
  {
    hide BigEndian, Rol, Xor4;
    for i := 0 to 16
      invariant forall t :: 0 <= t < i ==> w[t] == W(p, t)
    {
      w[i] := BigEndian(p[4 * i], p[4 * i + 1], p[4 * i + 2], p[4 * i + 3]);
    }
  }

  lemma NextWord(p: seq<bv8>, t: nat)
    requires |p| == BLOCK && t >= 16
    ensures W(p, t) == Rol(Xor4(W(p, t - 3), W(p, t - 8), W(p, t - 14), W(p, t - 16)), 1)
  {
    hide Rol, Xor4, BigEndian;
  }

  method RoundFunction(i: nat, b: bv32, c: bv32, d: bv32) returns (f: bv32, k: bv32)
    requires i < 80
    ensures f == F(i, b, c, d) && k == K(i)
  {
    hide Ch, Maj, Choose, Majority, Parity;
    ChooseForm(b, c, d);
    MajorityForm(b, c, d);
    if i < 20 {
      f, k := Choose(b, c, d), 0x5a827999;
    } else if i < 40 {
      f, k := Parity(b, c, d), 0x6ed9eba1;
    } else if i < 60 {
      f, k := Majority(b, c, d), 0x8f1bbcdc;
    } else {
      f, k := Parity(b, c, d), 0xca62c1d6;
    }
  }

  method BlockTurn(s: Work, w: bv32, i: nat) returns (r: Work)
    requires i < 80
    ensures r == Turn(s, w, i)
  {
    hide Rol, Sum5, F, K;
    var f, k := RoundFunction(i, s.b, s.c, s.d);
    r := Work(Sum5(Rol(s.a, 5), f, s.e, k, w), s.a, Rol(s.b, 30), s.c, s.d);
  }

  method Sha1Block(h: Work, p: seq<bv8>) returns (r: Work)
    requires |p| == BLOCK
    ensures r == Compress(h, p)
  {
    hide W, Turn;
    var w := Schedule(p);
    var s := h;
    for i := 0 to 80
      invariant s == Turns(h, p, i)
      modifies {}
    {
      s := BlockTurn(s, w[i], i);
    }
    r := Added(h, s);
  }

  // ---- the stream ----

  /** The two words sha1_final stores are the bit length. */
  lemma LengthWords(n: nat)
    requires n < TWO32
    ensures 8 * n / TWO32 == n / 0x2000_0000 && 8 * n % TWO32 == U32(n * 8)
  {
  }

  /** From r bytes in the last block and the byte 0x80, the zeros that lead to 56 bytes. */
  lemma PadStops(q: int, r: nat, k: nat)
    requires r < BLOCK && k <= (if r < 56 then 55 - r else 119 - r)
    ensures (BLOCK * q + (r + 1 + k)) % BLOCK == 56 <==> k == if r < 56 then 55 - r else 119 - r
  {
    Multiple(q, r + 1 + k);
  }

  lemma GapOf(n: nat)
    ensures Gap(n) == var r := n % BLOCK; if r < 56 then 55 - r else 119 - r
  {
  }

  /** The length kept in 32 bits says how full the last block is. */
  lemma WordRest(n: nat)
    ensures U32(n) % BLOCK == n % BLOCK
  {
    assert n == BLOCK * (TWO32 / BLOCK * (n / TWO32)) + U32(n);
    Multiple(TWO32 / BLOCK * (n / TWO32), U32(n));
  }

  /** The padding loop runs exactly until the buffer holds 56 bytes. */
  lemma GapIs(n: nat, k: nat)
    requires k <= Gap(U32(n))
    ensures (n + 1 + k) % BLOCK == 56 <==> k == Gap(U32(n))
  {
    GapOf(U32(n));
    WordRest(n);
    hide Gap, U32;
    var q, r := n / BLOCK, n % BLOCK;
    assert n == BLOCK * q + r;
    PadStops(q, r, k);
  }

  /** sha1_ctx. `msg` is everything fed to it. */
  class Context {
    var h: Work
    var len: int
    const buf: array<bv8>
    var buflen: int
    ghost var msg: seq<bv8>

    ghost predicate Valid()
      reads this, buf
    {
      Held() && len == U32(|msg|)
    }

    /** The whole blocks of msg are folded, the rest is in the buffer. */
    ghost predicate Held()
      reads this`h, this`buflen, this`msg, buf
    {
      buf.Length == BLOCK && 0 <= buflen < BLOCK && h == Fold(H0, msg) && buf[..buflen] == Rest(msg)
    }

    constructor ()
      ensures Valid() && fresh(buf) && msg == []
    {
      h := H0;
      len, buflen := 0, 0;
      buf := new bv8[BLOCK](_ => 0);
      msg := [];
    }

    lemma HeldSize()
      requires Held()
      ensures buflen == |msg| % BLOCK
    {
      assert |buf[..buflen]| == buflen;
    }

    /** One turn of sha1_update's loop: as many bytes as the block still takes. */
    method Fill(data: seq<bv8>) returns (take: nat)
      requires Held() && data != []
      modifies this`h, this`buflen, this`msg, buf
      ensures Held() && 0 < take <= |data| && msg == old(msg) + data[..take]
    {
      hide Compress, Fold, Rest;
      take := BLOCK - buflen;
      if take > |data| { take := |data|; }
      CopyIn(data[..take]);
      FoldMore(H0, msg, data[..take]);
      buflen := buflen + take;
      if buflen == BLOCK {
        assert buf[..] == buf[..BLOCK];
        h := Sha1Block(h, buf[..]);
        buflen := 0;
      }
      msg := msg + data[..take];
    }

    /** memcpy behind what the buffer holds. */
    method CopyIn(d: seq<bv8>)
      requires buf.Length == BLOCK && 0 <= buflen && buflen + |d| <= BLOCK
      modifies buf
      ensures buf[..buflen + |d|] == old(buf[..buflen]) + d
    {
      for i := 0 to |d|
        invariant forall j :: 0 <= j < buflen ==> buf[j] == old(buf[j])
        invariant forall j :: buflen <= j < buflen + i ==> buf[j] == d[j - buflen]
      {
        buf[buflen + i] := d[i];
      }
    }

    /** sha1_update: the result depends on the bytes alone, not on how calls divide them. */
    method Update(data: seq<bv8>)
      requires Valid()
      modifies this, buf
      ensures Valid() && msg == old(msg) + data && buflen == |msg| % BLOCK
    {
      hide Held;
      WrapSum(|msg|, |data|);
      len := U32(len + |data|);
      ghost var before := msg;
      var off := 0;
      while off < |data|
        invariant 0 <= off <= |data| && msg == before + data[..off] && len == U32(|before| + |data|)
        invariant Held()
      {
        var take := Fill(data[off..]);
        assert data[..off] + data[off..][..take] == data[..off + take];
        off := off + take;
      }
      assert data[..off] == data;
      HeldSize();
    }
  
    /** sha1_final: what was fed, padded for the length kept in `len`, and folded. */
    method Final() returns (out: seq<bv8>)
      requires Valid()
      modifies this, buf
      ensures var m := old(msg); out == Digest(Fold(H0, m + Padding(U32(|m|))))
      ensures |old(msg)| < TWO32 ==> out == Digest(Hash(old(msg)))
    {
      hide Held, Fold, Gap, Word32, Digest, Zeros;
      ghost var m, n := msg, len;
      LengthWords(len);
      var bitsHi, bitsLo := len / 0x2000_0000, U32(len * 8);
      Update([0x80]);
      ghost var k := PadZeros(m);
      Update(Word32(bitsHi) + Word32(bitsLo));
      PaddingParts(m, n);
      out := Digest(h);
      Folded();
      SameLength(m);
    }

    lemma Folded()
      requires Held()
      ensures h == Fold(H0, msg)
    {
    }

    /** The zero bytes, one at a time until the buffer holds 56. */
    method PadZeros(ghost m: seq<bv8>) returns (ghost k: nat)
      requires Valid() && msg == m + [0x80] && buflen == |msg| % BLOCK
      modifies this, buf
      ensures Valid() && k == Gap(U32(|m|)) && msg == m + [0x80] + Zeros(k)
    {
      hide Held, Fold, Gap;
      k := 0;
      while buflen != 56
        invariant Valid() && msg == m + [0x80] + Zeros(k) && buflen == |msg| % BLOCK
        invariant k <= Gap(U32(|m|))
        decreases Gap(U32(|m|)) - k
      {
        GapIs(|m|, k);
        Update([0]);
        MoreZeros(m, k);
        k := k + 1;
      }
      GapIs(|m|, k);
    }
  }

  lemma MoreZeros(m: seq<bv8>, k: nat)
    ensures m + [0x80] + Zeros(k) + [0] == m + [0x80] + Zeros(k + 1)
  {
  }

  lemma PaddingParts(m: seq<bv8>, n: nat)
    requires 8 * n < TWO32 * TWO32
    ensures m + [0x80] + Zeros(Gap(n)) + (Word32(8 * n / TWO32) + Word32(8 * n % TWO32)) == m + Padding(n)
  {
    hide Word32, Gap;
  }

  lemma SameLength(m: seq<bv8>)
    ensures |m| < TWO32 ==> U32(|m|) == |m|
  {
  }
}
