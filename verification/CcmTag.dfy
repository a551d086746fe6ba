/** What the check value of CCM depends on: every byte of the message and of the associated
    data, and the nonce; and how blocks are laid out (RFC 3610, sections 2.2 and 2.3). */
module CcmTag {
  import opened Config
  import opened Aes
  import opened AesCipher
  import opened KeyWrap
  import opened Ccm

  // ---- numbers in blocks ----

  /** A string of bytes read as a big-endian number. */
  function Number(s: seq<bv8>): nat
    decreases |s|
  {
    if s == [] then 0 else 0x100 * Number(s[..|s| - 1]) + s[|s| - 1] as nat
  }

  lemma NumberOfTwo(a: bv8, b: bv8)
    ensures Number([a, b]) == 0x100 * a as nat + b as nat
  {
    assert [a] == [] + [a] && [a, b] == [a] + [b];
    Push([], a);
    Push([a], b);
  }

  lemma TwoBytesNumber(n: nat)
    ensures Number(TwoBytes(n)) == n % 0x1_0000
  {
    NumberOfTwo(CountByte(n, 1), CountByte(n, 0));
    CountByteIs(n);
    LowBytes(n);
    hide CountByte;
  }

  lemma CountByteIs(n: nat)
    ensures CountByte(n, 0) as nat == n % 0x100 && CountByte(n, 1) as nat == n / 0x100 % 0x100
    ensures CountByte(n, 2) as nat == n / 0x1_0000 % 0x100 && CountByte(n, 3) as nat == n / 0x100_0000 % 0x100
  {
    ByteBack(n % 0x100);
    ByteBack(n / 0x100 % 0x100);
    ByteBack(n / 0x1_0000 % 0x100);
    ByteBack(n / 0x100_0000 % 0x100);
  }

  /** Counter block and header block: a flag byte, the nonce, and a big-endian number. */
  lemma Layout(nonce: Nonce, i: nat, flags: bv8)
    ensures CounterBlock(nonce, i)[0] == 0x01 && CounterBlock(nonce, i)[1..14] == nonce
    ensures Number(CounterBlock(nonce, i)[14..]) == i % 0x1_0000
    ensures Header(flags, nonce, i)[0] == flags && Header(flags, nonce, i)[1..14] == nonce
    ensures Number(Header(flags, nonce, i)[14..]) == i % 0x1_0000
  {
    TwoBytesNumber(i);
    hide CountByte, Number;
    assert CounterBlock(nonce, i)[14..] == TwoBytes(i) == Header(flags, nonce, i)[14..];
  }

  /** What aes_unwrap adds into the check register is the step number as a big-endian number of
      eight bytes. */
  lemma CountMask(a: Half, t: nat) returns (m: Half)
    requires t < TWO32
    ensures Number(m) == t && forall i :: 0 <= i < 8 ==> WithCount(a, t)[i] == Xor(a[i], m[i])
  {
    hide WithCount, CountByte, Number;
    m := MaskBytes(a, t);
    EightNumber(CountByte(t, 3), CountByte(t, 2), CountByte(t, 1), CountByte(t, 0));
    CountByteIs(t);
    FourBytes(t);
  }

  lemma MaskBytes(a: Half, t: nat) returns (m: Half)
    ensures m == [0, 0, 0, 0, CountByte(t, 3), CountByte(t, 2), CountByte(t, 1), CountByte(t, 0)]
    ensures forall i :: 0 <= i < 8 ==> WithCount(a, t)[i] == Xor(a[i], m[i])
  {
    hide CountByte, Xor;
    m := [0, 0, 0, 0, CountByte(t, 3), CountByte(t, 2), CountByte(t, 1), CountByte(t, 0)];
    XorLaws(a[0], 0, 0);
    XorLaws(a[1], 0, 0);
    XorLaws(a[2], 0, 0);
    XorLaws(a[3], 0, 0);
  }

  lemma EightNumber(a: bv8, b: bv8, c: bv8, d: bv8)
    ensures Number([0, 0, 0, 0, a, b, c, d])
         == 0x100_0000 * a as nat + 0x1_0000 * b as nat + 0x100 * c as nat + d as nat
  {
    var none: seq<bv8> := [];
    var s1 := none + [0];
    var s2 := s1 + [0];
    var s3 := s2 + [0];
    var s4 := s3 + [0];
    var s5 := s4 + [a];
    var s6 := s5 + [b];
    var s7 := s6 + [c];
    assert s7 + [d] == [0, 0, 0, 0, a, b, c, d];
    assert Number(none) == 0;
    Push(none, 0);
    Push(s1, 0);
    Push(s2, 0);
    Push(s3, 0);
    Push(s4, a);
    Push(s5, b);
    Push(s6, c);
    Push(s7, d);
    hide Number;
  }

  lemma Push(s: seq<bv8>, b: bv8)
    ensures Number(s + [b]) == 0x100 * Number(s) + b as nat
  {
    assert (s + [b])[..|s|] == s;
  }

  // ---- masks ----

  /** The check value is the first half of the tag under the key stream of counter 0, and the
      message is under that of counters 1, 2 and so on. */
  lemma Masks(rk: Schedule, nonce: Nonce, aad: seq<bv8>, msg: seq<bv8>, i: nat, k: nat)
    requires i < 8 && k < |msg|
    ensures var s := Seal(rk, nonce, aad, msg);
            && s.mic[i] ^ Encrypt(rk, CounterBlock(nonce, 0))[i] == Tag(rk, nonce, aad, msg)[i]
            && |s.cipher| == |msg| && s.cipher[k] ^ Encrypt(rk, CounterBlock(nonce, 1 + k / 16))[k % 16] == msg[k]
  {
    hide Encrypt, Tag, CounterBlock;
    XorForth(Tag(rk, nonce, aad, msg)[i], Encrypt(rk, CounterBlock(nonce, 0))[i]);
    XorForth(msg[k], KeyByte(rk, nonce, 1, k));
    hide Xor;
  }

  lemma XorForth(a: bv8, b: bv8)
    ensures Xor(a, b) ^ b == a
  {
  }

  // ---- the chain ----

  lemma XorBlockInjective(x: Block, y: Block, b: Block, d: Block)
    ensures XorBlock(x, b) == XorBlock(y, b) ==> x == y
    ensures XorBlock(x, b) == XorBlock(x, d) ==> b == d
  {
    if XorBlock(x, b) == XorBlock(y, b) {
      forall k | 0 <= k < 16 ensures x[k] == y[k] {
        XorAt(x, b, k);
        XorAt(y, b, k);
        Cancel(x[k], y[k], b[k]);
      }
    }
    if XorBlock(x, b) == XorBlock(x, d) {
      forall k | 0 <= k < 16 ensures b[k] == d[k] {
        XorAt(x, b, k);
        XorAt(x, d, k);
        Cancel(b[k], d[k], x[k]);
      }
    }
  }

  lemma XorAt(x: Block, b: Block, k: nat)
    requires k < 16
    ensures XorBlock(x, b)[k] == Xor(x[k], b[k])
  {
    hide Xor;
  }

  lemma Cancel(x: bv8, y: bv8, b: bv8)
    ensures Xor(x, b) == Xor(y, b) ==> x == y
    ensures Xor(b, x) == Xor(b, y) ==> x == y
  {
  }

  lemma EncryptInjective(rk: Schedule, x: Block, y: Block)
    ensures Encrypt(rk, x) == Encrypt(rk, y) ==> x == y
  {
    hide Encrypt, Decrypt;
    DecryptEncrypt(rk, x);
    DecryptEncrypt(rk, y);
  }

  /** Different states stay different, whatever is chained on. */
  lemma {:induction false} ChainFromDiffers(rk: Schedule, x: Block, y: Block, bs: seq<Block>)
    ensures Chain(rk, x, bs) == Chain(rk, y, bs) <==> x == y
    decreases |bs|
  {
    hide Encrypt, XorBlock;
    if bs != [] {
      XorBlockInjective(x, y, bs[0], bs[0]);
      EncryptInjective(rk, XorBlock(x, bs[0]), XorBlock(y, bs[0]));
      ChainFromDiffers(rk, Encrypt(rk, XorBlock(x, bs[0])), Encrypt(rk, XorBlock(y, bs[0])), bs[1..]);
    }
  }

  /** Two block strings that differ in at most one block chain to the same value only when they
      are equal. */
  lemma {:induction false} ChainDetects(rk: Schedule, x: Block, a: seq<Block>, b: seq<Block>, j: nat)
    requires |a| == |b| && forall k :: 0 <= k < |a| && k != j ==> a[k] == b[k]
    ensures Chain(rk, x, a) == Chain(rk, x, b) <==> a == b
    decreases |a|
  {
    hide Encrypt, XorBlock;
    if a != [] {
      assert a == [a[0]] + a[1..] && b == [b[0]] + b[1..];
      if j == 0 {
        assert a[1..] == b[1..];
        XorBlockInjective(x, x, a[0], b[0]);
        EncryptInjective(rk, XorBlock(x, a[0]), XorBlock(x, b[0]));
        ChainFromDiffers(rk, Encrypt(rk, XorBlock(x, a[0])), Encrypt(rk, XorBlock(x, b[0])), a[1..]);
      } else {
        ChainDetects(rk, Encrypt(rk, XorBlock(x, a[0])), a[1..], b[1..], j - 1);
      }
    }
  }

  // ---- bytes ----

  /** Byte k of block j is byte 16 j + k, or 0 behind the end. */
  lemma {:induction false} BlockAt(s: seq<bv8>, j: nat, k: nat)
    requires j < |Blocks(s)| && k < 16
    ensures Blocks(s)[j][k] == if 16 * j + k < |s| then s[16 * j + k] else 0
    decreases j
  {
    if j > 0 {
      var rest := s[if |s| < 16 then |s| else 16..];
      BlockAt(rest, j - 1, k);
      assert Blocks(s)[j] == Blocks(rest)[j - 1];
    }
  }

  /** Strings that differ within one block have blocks that differ in at most that one, and
      equal blocks only when equal. */
  lemma BlocksDiffer(s: seq<bv8>, t: seq<bv8>, j: nat)
    requires |s| == |t| && forall k :: 0 <= k < |s| && k / 16 != j ==> s[k] == t[k]
    ensures |Blocks(s)| == |Blocks(t)| && forall i :: 0 <= i < |Blocks(s)| && i != j ==> Blocks(s)[i] == Blocks(t)[i]
    ensures Blocks(s) == Blocks(t) ==> s == t
  {
    BlocksCount(s);
    BlocksCount(t);
    hide Blocks;
    forall i | 0 <= i < |Blocks(s)| && i != j ensures Blocks(s)[i] == Blocks(t)[i] {
      forall k | 0 <= k < 16 ensures Blocks(s)[i][k] == Blocks(t)[i][k] {
        BlockAt(s, i, k);
        BlockAt(t, i, k);
        Sixteenths(i, k);
      }
    }
    if Blocks(s) == Blocks(t) {
      forall k | 0 <= k < |s| ensures s[k] == t[k] {
        assert k == 16 * (k / 16) + k % 16;
        BlockAt(s, k / 16, k % 16);
        BlockAt(t, k / 16, k % 16);
      }
    }
  }

  /** A message changed within one block, however, has another tag. */
  lemma TagDetects(rk: Schedule, nonce: Nonce, aad: seq<bv8>, msg: seq<bv8>, other: seq<bv8>, j: nat)
    requires |msg| == |other| && forall k :: 0 <= k < |msg| && k / 16 != j ==> msg[k] == other[k]
    ensures Tag(rk, nonce, aad, msg) == Tag(rk, nonce, aad, other) <==> msg == other
  {
    hide Encrypt, Chain, Blocks, Header;
    var x := Encrypt(rk, Header(0x59, nonce, |msg|));
    var d := Blocks(TwoBytes(|aad|) + aad);
    ChainBoth(rk, x, d, Blocks(msg));
    ChainBoth(rk, x, d, Blocks(other));
    BlocksDiffer(msg, other, j);
    ChainDetects(rk, Chain(rk, x, d), Blocks(msg), Blocks(other), j);
  }

  /** So has associated data changed in one byte, and another nonce. */
  lemma TagDetectsData(rk: Schedule, nonce: Nonce, aad: seq<bv8>, msg: seq<bv8>, i: nat, v: bv8)
    requires i < |aad|
    ensures Tag(rk, nonce, aad[i := v], msg) == Tag(rk, nonce, aad, msg) <==> v == aad[i]
  {
    hide Encrypt, Chain, Blocks, Header, CountByte;
    var x := Encrypt(rk, Header(0x59, nonce, |msg|));
    var s, t := TwoBytes(|aad|) + aad, TwoBytes(|aad|) + aad[i := v];
    ChainBoth(rk, x, Blocks(s), Blocks(msg));
    ChainBoth(rk, x, Blocks(t), Blocks(msg));
    ChainFromDiffers(rk, Chain(rk, x, Blocks(s)), Chain(rk, x, Blocks(t)), Blocks(msg));
    BlocksDiffer(s, t, (i + 2) / 16);
    ChainDetects(rk, x, Blocks(s), Blocks(t), (i + 2) / 16);
    assert s[i + 2] == aad[i] && t[i + 2] == v;
    assert v == aad[i] ==> aad[i := v] == aad;
  }

  lemma TagDetectsNonce(rk: Schedule, nonce: Nonce, other: Nonce, aad: seq<bv8>, msg: seq<bv8>)
    ensures Tag(rk, nonce, aad, msg) == Tag(rk, other, aad, msg) <==> nonce == other
  {
    Layout(nonce, |msg|, 0x59);
    Layout(other, |msg|, 0x59);
    hide Encrypt, Chain, Blocks, Header, Number;
    EncryptInjective(rk, Header(0x59, nonce, |msg|), Header(0x59, other, |msg|));
    ChainFromDiffers(rk, Encrypt(rk, Header(0x59, nonce, |msg|)), Encrypt(rk, Header(0x59, other, |msg|)),
        Chained(aad, msg));
  }
}
