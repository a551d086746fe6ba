/** Counter mode with CBC-MAC (RFC 3610) with an 8-byte check value and a 2-byte length field. */
module Ccm {
  import opened Config
  import opened AesTables
  import opened Aes
  import opened AesCipher
  import opened KeyWrap

  type Nonce = s: seq<bv8> | |s| == 13 witness seq(13, _ => 0)

  const ZERO: Block := [0, 0, 0, 0, 0, 0, 0, 0, 0, 0, 0, 0, 0, 0, 0, 0]

  // ---- the key stream (section 2.3) ----

  /** A_i: the counter's low 16 bits behind the nonce. */
  function CounterBlock(nonce: Nonce, i: nat): Block {
    [0x01] + nonce + [CountByte(i, 1), CountByte(i, 0)]
  }

  function KeyByte(rk: Schedule, nonce: Nonce, i: nat, k: nat): bv8 {
    Encrypt(rk, CounterBlock(nonce, i + k / 16))[k % 16]
  }

  function Crypt(rk: Schedule, nonce: Nonce, i: nat, s: seq<bv8>): (r: seq<bv8>)
    ensures |r| == |s|
  {
    seq(|s|, k requires 0 <= k < |s| => Xor(s[k], KeyByte(rk, nonce, i, k)))
  }

  lemma CryptTwice(rk: Schedule, nonce: Nonce, i: nat, s: seq<bv8>)
    ensures Crypt(rk, nonce, i, Crypt(rk, nonce, i, s)) == s
  {
    hide Xor, KeyByte;
    forall k | 0 <= k < |s| ensures Crypt(rk, nonce, i, Crypt(rk, nonce, i, s))[k] == s[k] {
      XorLaws(s[k], KeyByte(rk, nonce, i, k), 0);
    }
  }

  lemma SameCounter(nonce: Nonce, i: nat, j: nat)
    ensures CounterBlock(nonce, i) == CounterBlock(nonce, j) <==> i % 0x1_0000 == j % 0x1_0000
  {
    SameCount(i, j, 0);
    SameCount(i, j, 1);
    hide CountByte;
    var a, b := CounterBlock(nonce, i), CounterBlock(nonce, j);
    assert a == b <==> a[14] == b[14] && a[15] == b[15];
    LowBytes(i);
    LowBytes(j);
  }

  lemma SameCount(i: nat, j: nat, k: nat)
    requires k < 2
    ensures CountByte(i, k) == CountByte(j, k)
        <==> (if k == 0 then i % 0x100 == j % 0x100 else i / 0x100 % 0x100 == j / 0x100 % 0x100)
  {
    if CountByte(i, k) == CountByte(j, k) {
      if k == 0 { ByteEqual(i % 0x100, j % 0x100); } else { ByteEqual(i / 0x100 % 0x100, j / 0x100 % 0x100); }
    }
  }

  lemma LowBytes(i: nat)
    ensures i % 0x1_0000 == 0x100 * (i / 0x100 % 0x100) + i % 0x100
  {
    var q := i / 0x100;
    assert i == 0x100 * q + i % 0x100 && q == 0x100 * (q / 0x100) + q % 0x100;
    TwoLow(q / 0x100, 0x100 * (q % 0x100) + i % 0x100);
  }

  lemma TwoLow(q: nat, r: nat)
    requires r < 0x1_0000
    ensures (0x1_0000 * q + r) % 0x1_0000 == r
  {
  }

  lemma ByteEqual(x: nat, y: nat)
    requires x < 0x100 && y < 0x100 && x as bv8 == y as bv8
    ensures x == y
  {
    ByteBack(x);
    ByteBack(y);
  }

  /** The 32-bit counter may wrap: only its low 16 bits are used. */
  lemma CounterWraps(nonce: Nonce, i: nat)
    ensures CounterBlock(nonce, U32(i)) == CounterBlock(nonce, i)
  {
    hide CounterBlock;
    SameCounter(nonce, U32(i), i);
    LowOfWord(i);
  }

  lemma LowOfWord(i: nat)
    ensures U32(i) % 0x1_0000 == i % 0x1_0000
  {
    assert i == 0x1_0000 * (0x1_0000 * (i / TWO32)) + U32(i);
    Shifted(U32(i), 0x1_0000 * (i / TWO32));
  }

  lemma Shifted(x: nat, k: nat)
    ensures (0x1_0000 * k + x) % 0x1_0000 == x % 0x1_0000
  {
  }

  function BlockCount(n: nat): nat { (n + 15) / 16 }

  /** No counter block is used twice, the one behind the check value (number 0) included,
      exactly when the message has at most 65535 blocks. */
  lemma CountersDistinct(nonce: Nonce, len: nat)
    ensures (forall i: nat, j: nat :: i < j <= BlockCount(len) ==> CounterBlock(nonce, i) != CounterBlock(nonce, j))
        <==> len <= 16 * 0xffff
  {
    hide CounterBlock;
    forall i: nat, j: nat | i < j <= BlockCount(len)
        && len <= 16 * 0xffff ensures CounterBlock(nonce, i) != CounterBlock(nonce, j) {
      SameCounter(nonce, i, j);
    }
    if len > 16 * 0xffff {
      SameCounter(nonce, 0, 0x1_0000);
      assert 0 < 0x1_0000 <= BlockCount(len);
    }
  }

  // ---- the check value (section 2.2) ----

  /** A string cut into blocks, the last one filled up with zeros. */
  function Blocks(s: seq<bv8>): seq<Block> {
    if s == [] then [] else [FirstBlock(s)] + Blocks(s[if |s| < 16 then |s| else 16..])
  }

  function FirstBlock(s: seq<bv8>): Block {
    seq(16, k requires 0 <= k < 16 => if k < |s| then s[k] else 0)
  }

  function XorBlock(x: Block, b: Block): Block {
    seq(16, k requires 0 <= k < 16 => Xor(x[k], b[k]))
  }

  function Chain(rk: Schedule, x: Block, bs: seq<Block>): Block
    decreases |bs|
  {
    if bs == [] then x else Chain(rk, Encrypt(rk, XorBlock(x, bs[0])), bs[1..])
  }

  function TwoBytes(n: nat): seq<bv8> { [CountByte(n, 1), CountByte(n, 0)] }

  /** B_0, with the flag byte given. */
  function Header(flags: bv8, nonce: Nonce, len: nat): Block {
    [flags] + nonce + TwoBytes(len)
  }

  /** What ccm_mac chains after its header block. */
  function Chained(aad: seq<bv8>, msg: seq<bv8>): seq<Block> {
    Blocks(TwoBytes(|aad|) + aad) + Blocks(msg)
  }

  function Tag(rk: Schedule, nonce: Nonce, aad: seq<bv8>, msg: seq<bv8>): Block {
    Chain(rk, Encrypt(rk, Header(0x59, nonce, |msg|)), Chained(aad, msg))
  }

  // ---- what the standard chains ----

  /** The length of the associated data, in front of it (below 2^32 bytes). */
  function LengthField(n: nat): seq<bv8> {
    if n < 0xff00 then TwoBytes(n) else [0xff, 0xfe, CountByte(n, 3), CountByte(n, 2), CountByte(n, 1), CountByte(n, 0)]
  }

  /** All blocks from B_0 on. The Adata flag and the length field are there only with data; a
      message whose length does not fit two bytes has no encoding with this B_0. */
  function Standard(nonce: Nonce, aad: seq<bv8>, msg: seq<bv8>): Option<seq<Block>> {
    if |msg| >= 0x1_0000 then None
    else Some([Header(if aad == [] then 0x19 else 0x59, nonce, |msg|)]
              + (if aad == [] then [] else Blocks(LengthField(|aad|) + aad)) + Blocks(msg))
  }

  /** The code agrees with the standard exactly for associated data that is there and whose
      length fits the two-byte form, and a message of at most 65535 bytes. */
  lemma MatchesStandard(nonce: Nonce, aad: seq<bv8>, msg: seq<bv8>)
    requires |aad| < TWO32
    ensures Some([Header(0x59, nonce, |msg|)] + Chained(aad, msg)) == Standard(nonce, aad, msg) <==>
            0 < |aad| < 0xff00 && |msg| < 0x1_0000
  {
    hide CountByte;
    if |msg| < 0x1_0000 {
      var c, s := [Header(0x59, nonce, |msg|)] + Chained(aad, msg), Standard(nonce, aad, msg).value;
      if aad == [] {
        assert c[0][0] == 0x59 && s[0][0] == 0x19;
      } else if |aad| < 0xff00 {
        assert c == s;
      } else {
        LongData(aad);
        var x, y := Blocks(TwoBytes(|aad|) + aad), Blocks(LengthField(|aad|) + aad);
        assert |x| == |y| ==> c[1] == x[0] && s[1] == y[0];
        assert |c| == 1 + |x| + |Blocks(msg)| && |s| == 1 + |y| + |Blocks(msg)|;
      }
    }
  }

  lemma LongData(aad: seq<bv8>)
    requires |aad| >= 0xff00
    ensures var x, y := Blocks(TwoBytes(|aad|) + aad), Blocks(LengthField(|aad|) + aad);
            |x| > 0 && |y| > 0 && (|x| != |y| || x[0] != y[0])
  {
    var n := |aad|;
    BlocksCount(TwoBytes(n) + aad);
    BlocksCount(LengthField(n) + aad);
    var x, y := Blocks(TwoBytes(n) + aad), Blocks(LengthField(n) + aad);
    assert x[0] == FirstBlock(TwoBytes(n) + aad) && y[0] == FirstBlock(LengthField(n) + aad);
    if x[0] == y[0] {
      assert x[0][0] == CountByte(n, 1) && y[0][0] == 0xff && x[0][1] == CountByte(n, 0) && y[0][1] == 0xfe;
      ByteEqual(n / 0x100 % 0x100, 0xff);
      ByteEqual(n % 0x100, 0xfe);
      LowBytes(n);
      Multiple(n);
    }
  }

  /** With such a length the two-byte form ends on a block boundary and the long one does not. */
  lemma Multiple(n: nat)
    requires n % 0x1_0000 == 0xfffe
    ensures BlockCount(n + 2) < BlockCount(n + 6)
  {
    assert n + 2 == 16 * (0x1000 * (n / 0x1_0000) + 0x1000);
  }

  lemma {:induction false} BlocksCount(s: seq<bv8>)
    ensures |Blocks(s)| == BlockCount(|s|)
    decreases |s|
  {
    if |s| >= 16 { BlocksCount(s[16..]); }
  }

  // ---- sealing and opening ----

  function Mic(rk: Schedule, nonce: Nonce, aad: seq<bv8>, msg: seq<bv8>): Half {
    High(XorBlock(Tag(rk, nonce, aad, msg), Encrypt(rk, CounterBlock(nonce, 0))))
  }

  datatype Sealed = Sealed(cipher: seq<bv8>, mic: Half)

  function Seal(rk: Schedule, nonce: Nonce, aad: seq<bv8>, plain: seq<bv8>): Sealed {
    Sealed(Crypt(rk, nonce, 1, plain), Mic(rk, nonce, aad, plain))
  }

  function Open(rk: Schedule, nonce: Nonce, aad: seq<bv8>, s: Sealed): Option<seq<bv8>> {
    var plain := Crypt(rk, nonce, 1, s.cipher);
    if s.mic == Mic(rk, nonce, aad, plain) then Some(plain) else None
  }

  /** Opening gives back exactly what was sealed, and opens nothing else: for every key, nonce
      and associated data a message opens to p if and only if it is the sealing of p. */
  lemma OpensOnlySealed(rk: Schedule, nonce: Nonce, aad: seq<bv8>, s: Sealed, p: seq<bv8>)
    ensures Open(rk, nonce, aad, s) == Some(p) <==> s == Seal(rk, nonce, aad, p)
  {
    hide Mic, Crypt;
    CryptTwice(rk, nonce, 1, p);
    CryptTwice(rk, nonce, 1, s.cipher);
  }

  // ---- ccm_cbc_block, ccm_mac and ccm_ctr ----

  method CbcBlock(rk: Schedule, x: array<bv8>, b: array<bv8>)
    requires x.Length == 16 == b.Length && x != b
    modifies x
    ensures x[..] == Encrypt(rk, XorBlock(old(x[..]), b[..]))
  {
    hide Xor, Encrypt;
    ghost var before := x[..];
    for i := 0 to 16
      invariant forall k :: 0 <= k < i ==> x[k] == Xor(before[k], b[k])
      invariant forall k :: i <= k < 16 ==> x[k] == before[k]
    {
      x[i] := Xor(x[i], b[i]);
    }
    assert x[..] == XorBlock(before, b[..]);
    EncryptBlock(rk, x, x);
  }

  /** Bytes go from the source to the block until one is full or the other used up. */
  method Fill(b: array<bv8>, n: nat, src: seq<bv8>, off: nat) returns (n': nat, off': nat)
    requires b.Length == 16 && n <= 16 && off <= |src|
    modifies b
    ensures n <= n' <= 16 && off' == off + (n' - n) <= |src| && (n' == 16 || off' == |src|)
    ensures forall k :: 0 <= k < 16 ==> b[k] == if n <= k < n' then src[off + (k - n)] else old(b[k])
  {
    n', off' := n, off;
    while n' < 16 && off' < |src|
      invariant n <= n' <= 16 && off' == off + (n' - n) <= |src|
      invariant forall k :: 0 <= k < 16 ==> b[k] == if n <= k < n' then src[off + (k - n)] else old(b[k])
    {
      b[n'] := src[off'];
      n', off' := n' + 1, off' + 1;
    }
  }

  method Clear(b: array<bv8>)
    requires b.Length == 16
    modifies b
    ensures b[..] == ZERO
  {
    for i := 0 to 16
      invariant forall k :: 0 <= k < i ==> b[k] == 0
    {
      b[i] := 0;
    }
  }

  /** One block taken off the front of what is still to be chained. */
  lemma ChainStep(rk: Schedule, x: Block, s: seq<bv8>, b: Block, rest: seq<bv8>)
    requires s != [] && b == FirstBlock(s) && rest == s[if |s| < 16 then |s| else 16..]
    ensures Chain(rk, x, Blocks(s)) == Chain(rk, Encrypt(rk, XorBlock(x, b)), Blocks(rest))
  {
    hide Encrypt, XorBlock, FirstBlock;
    assert Blocks(s) == [b] + Blocks(rest);
    assert ([b] + Blocks(rest))[1..] == Blocks(rest);
  }

  lemma {:induction false} ChainBoth(rk: Schedule, x: Block, a: seq<Block>, b: seq<Block>)
    ensures Chain(rk, x, a + b) == Chain(rk, Chain(rk, x, a), b)
    decreases |a|
  {
    hide Encrypt, XorBlock;
    if a == [] {
      assert a + b == b;
    } else {
      assert (a + b)[0] == a[0] && (a + b)[1..] == a[1..] + b;
      ChainBoth(rk, Encrypt(rk, XorBlock(x, a[0])), a[1..], b);
    }
  }

  /** What Fill leaves in a zeroed block that held n bytes is the first block of what is to come. */
  lemma IsFirst(a: Block, n: nat, src: seq<bv8>, off: nat, b: Block, n': nat, off': nat)
    requires n <= n' <= 16 && off <= off' <= |src| && off' == off + (n' - n) && (n' == 16 || off' == |src|)
    requires forall k :: 0 <= k < 16 ==> b[k] == if n <= k < n' then src[off + (k - n)] else a[k]
    requires forall k :: n <= k < 16 ==> a[k] == 0
    ensures var s := a[..n] + src[off..]; b == FirstBlock(s) && src[off'..] == s[if |s| < 16 then |s| else 16..]
  {
  }

  /** The length of the associated data and the data itself, chained block by block. */
  method ChainData(rk: Schedule, x: array<bv8>, aad: seq<bv8>)
    requires x.Length == 16
    modifies x
    ensures x[..] == Chain(rk, old(x[..]), Blocks(TwoBytes(|aad|) + aad))
  {
    hide Encrypt, XorBlock, CountByte, Chain, Blocks, FirstBlock;
    ghost var x0 := x[..];
    var ab := new bv8[16];
    Clear(ab);
    ab[0], ab[1] := CountByte(|aad|, 1), CountByte(|aad|, 0);
    var n, off := 2, 0;
    assert ab[..2] + aad == TwoBytes(|aad|) + aad;
    while off < |aad|
      invariant off <= |aad| && n < 16 && (n == 0 || off == 0)
      invariant Chain(rk, x[..], Blocks(ab[..n] + aad[off..])) == Chain(rk, x0, Blocks(TwoBytes(|aad|) + aad))
      invariant forall k :: n <= k < 16 ==> ab[k] == 0
      decreases |aad| - off
    {
      ghost var todo, before, n0, off0 := ab[..n] + aad[off..], ab[..], n, off;
      n, off := Fill(ab, n, aad, off);
      IsFirst(before, n0, aad, off0, ab[..], n, off);
      ChainStep(rk, x[..], todo, ab[..], aad[off..]);
      CbcBlock(rk, x, ab);
      Clear(ab);
      n := 0;
      assert ab[..0] + aad[off..] == aad[off..];
    }
    if n > 0 {
      IsFirst(ab[..], n, aad, off, ab[..], n, off);
      ChainStep(rk, x[..], ab[..n] + aad[off..], ab[..], aad[off..]);
      CbcBlock(rk, x, ab);
    } else {
      assert ab[..n] + aad[off..] == [];
    }
    NoBlocks(rk, x[..]);
  }

  lemma NoBlocks(rk: Schedule, x: Block)
    ensures Chain(rk, x, Blocks([])) == x
  {
  }

  method ChainMessage(rk: Schedule, x: array<bv8>, msg: seq<bv8>)
    requires x.Length == 16
    modifies x
    ensures x[..] == Chain(rk, old(x[..]), Blocks(msg))
  {
    hide Encrypt, XorBlock, Chain, Blocks;
    ghost var x0 := x[..];
    var mb := new bv8[16];
    var off := 0;
    while off < |msg|
      invariant off <= |msg| && Chain(rk, x[..], Blocks(msg[off..])) == Chain(rk, x0, Blocks(msg))
    {
      ghost var todo := msg[off..];
      Clear(mb);
      var k;
      k, off := Fill(mb, 0, msg, off);
      ChainStep(rk, x[..], todo, mb[..], msg[off..]);
      CbcBlock(rk, x, mb);
    }
    assert msg[off..] == [];
    NoBlocks(rk, x[..]);
  }

  method Mac(rk: Schedule, nonce: Nonce, aad: seq<bv8>, msg: seq<bv8>) returns (t: Block)
    ensures t == Tag(rk, nonce, aad, msg)
  {
    hide Encrypt, Chain, Blocks, CountByte;
    var b := Header(0x59, nonce, |msg|);
    var x := new bv8[16](i requires 0 <= i < 16 => b[i]);
    assert x[..] == b;
    EncryptBlock(rk, x, x);
    ghost var x0 := x[..];
    ChainData(rk, x, aad);
    ChainMessage(rk, x, msg);
    ChainBoth(rk, x0, Blocks(TwoBytes(|aad|) + aad), Blocks(msg));
    t := x[..];
  }

  lemma Sixteenths(q: nat, k: nat)
    requires k < 16
    ensures (16 * q + k) / 16 == q && (16 * q + k) % 16 == k
  {
  }

  /** The counter block's key stream for the position off, which starts a block. */
  lemma StreamBlock(rk: Schedule, nonce: Nonce, i: nat, off: nat, k: nat)
    requires off % 16 == 0 && k < 16
    ensures KeyByte(rk, nonce, i, off + k) == Encrypt(rk, CounterBlock(nonce, i + off / 16))[k]
  {
    hide Encrypt, CounterBlock;
    var q := off / 16;
    assert off == 16 * q;
    Sixteenths(q, k);
  }

  method Ctr(rk: Schedule, nonce: Nonce, counter: nat, input: seq<bv8>, out: array<bv8>)
    requires out.Length == |input|
    modifies out
    ensures out[..] == Crypt(rk, nonce, counter, input)
  {
    hide Encrypt, Xor, KeyByte, CounterBlock;
    var s := new bv8[16];
    var off, ctr := 0, U32(counter);
    while off < |input|
      invariant off <= |input| && (off % 16 == 0 || off == |input|)
      invariant ctr == U32(counter + BlockCount(off))
      invariant forall k :: 0 <= k < off ==> out[k] == Xor(input[k], KeyByte(rk, nonce, counter, k))
    {
      assert BlockCount(off) == off / 16;
      CounterWraps(nonce, counter + off / 16);
      KeyBlock(rk, nonce, ctr, s);
      ghost var start := off;
      var k := 0;
      while k < 16 && off < |input|
        modifies out
        invariant k <= 16 && off == start + k <= |input|
        invariant s[..] == Encrypt(rk, CounterBlock(nonce, counter + start / 16))
        invariant forall m :: 0 <= m < off ==> out[m] == Xor(input[m], KeyByte(rk, nonce, counter, m))
      {
        StreamBlock(rk, nonce, counter, start, k);
        out[off] := Xor(input[off], s[k]);
        off, k := off + 1, k + 1;
      }
      WrapSum(counter + start / 16, 1);
      ctr := U32(ctr + 1);
      assert BlockCount(off) == start / 16 + 1;
    }
  }

  method KeyBlock(rk: Schedule, nonce: Nonce, i: nat, s: array<bv8>)
    requires s.Length == 16
    modifies s
    ensures s[..] == Encrypt(rk, CounterBlock(nonce, i))
  {
    hide Encrypt, CounterBlock;
    var b := CounterBlock(nonce, i);
    var a := new bv8[16](k requires 0 <= k < 16 => b[k]);
    assert a[..] == b;
    EncryptBlock(rk, a, s);
  }

  // ---- aes_ccm_encrypt and aes_ccm_decrypt ----

  method MicOf(rk: Schedule, nonce: Nonce, aad: seq<bv8>, msg: seq<bv8>) returns (mic: Half)
    ensures mic == Mic(rk, nonce, aad, msg)
  {
    hide Encrypt, Xor, CounterBlock, Tag;
    var t := Mac(rk, nonce, aad, msg);
    var s0 := new bv8[16];
    KeyBlock(rk, nonce, 0, s0);
    var mask := s0[..];
    mic := seq(8, i requires 0 <= i < 8 => Xor(t[i], mask[i]));
    assert mic == High(XorBlock(t, mask));
  }

  method CcmEncrypt(key: Block, nonce: Nonce, aad: seq<bv8>, plain: seq<bv8>, cipher: array<bv8>) returns (mic: Half)
    requires cipher.Length == |plain|
    modifies cipher
    ensures Sealed(cipher[..], mic) == Seal(Expand(key), nonce, aad, plain)
  {
    hide Expand, Crypt, Mic;
    var rk := ExpandKey(key);
    mic := MicOf(rk, nonce, aad, plain);
    Ctr(rk, nonce, 1, plain, cipher);
  }

  /** The plaintext is left in the buffer whether or not it is accepted. */
  method CcmDecrypt(key: Block, nonce: Nonce, aad: seq<bv8>, cipher: seq<bv8>, mic: Half,
      plain: array<bv8>) returns (rc: int)
    requires plain.Length == |cipher|
    modifies plain
    ensures plain[..] == Crypt(Expand(key), nonce, 1, cipher)
    ensures rc == (if Open(Expand(key), nonce, aad, Sealed(cipher, mic)) == Some(plain[..]) then 0 else -1)
  {
    hide Expand, Crypt, Mic;
    var rk := ExpandKey(key);
    Ctr(rk, nonce, 1, cipher, plain);
    var own := MicOf(rk, nonce, aad, plain[..]);
    for i := 0 to 8
      invariant forall k :: 0 <= k < i ==> own[k] == mic[k]
    {
      if own[i] != mic[i] { return -1; }
    }
    assert own == mic;
    rc := 0;
  }
}
