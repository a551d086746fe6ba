/** The Internet checksum (RFC 1071) as ipv4.c sums it: native words, carries folded last. */
module Checksum {
  import opened Config

  const ONES: int := 0xffff

  /** The sum of the 16-bit words of a region, low byte first; an odd last byte counts alone. */
  function WordSum(s: seq<Byte>): nat {
    if s == [] then 0 else if |s| == 1 then s[0] else s[0] + 256 * s[1] + WordSum(s[2..])
  }

  /** The same with the high byte first, as RFC 1071 adds. */
  function WordSumBig(s: seq<Byte>): nat {
    if s == [] then 0 else if |s| == 1 then 256 * s[0] else 256 * s[0] + s[1] + WordSumBig(s[2..])
  }

  /** The one's complement value of a sum: its residue, with full ones for a zero that was
      reached by carrying. */
  function Folded(x: nat): (r: nat)
    ensures r <= ONES && (r == 0 <==> x == 0) && (r - x) % ONES == 0
  {
    if x == 0 then 0
    else
      Residue(x);
      1 + (x - 1) % ONES
  }

  lemma Residue(x: nat)
    requires x > 0
    ensures (1 + (x - 1) % ONES - x) % ONES == 0
  {
    var q := (x - 1) / ONES;
    assert x - 1 == q * ONES + (x - 1) % ONES;
    assert 1 + (x - 1) % ONES - x == -q * ONES;
    Multiple(-q);
  }

  lemma Multiple(k: int)
    ensures (k * ONES) % ONES == 0
  {
  }

  /** Two values in range with the same residue, zero together, are the same. */
  lemma FoldedUnique(x: nat, r: nat)
    requires r <= ONES && (r == 0 <==> x == 0) && (r - x) % ONES == 0
    ensures r == Folded(x)
  {
    var f := Folded(x);
    SameResidue(r, f, x);
  }

  lemma SameResidue(r: int, f: int, x: int)
    requires (r - x) % ONES == 0 && (f - x) % ONES == 0
    ensures (r - f) % ONES == 0
  {
    assert r - x == (r - x) / ONES * ONES && f - x == (f - x) / ONES * ONES;
    assert r - f == ((r - x) / ONES - (f - x) / ONES) * ONES;
    Multiple((r - x) / ONES - (f - x) / ONES);
  }

  function Check(x: nat): nat {
    ONES - Folded(x)
  }

  // ---- the code ----

  /** Regions of up to 128 KiB, added to a 16-bit start, never overflow 32 bits. */
  lemma {:induction false} NoOverflow(s: seq<Byte>)
    ensures WordSum(s) <= (|s| + 1) / 2 * ONES
    decreases |s|
  {
    if |s| >= 2 {
      NoOverflow(s[2..]);
      assert (|s| + 1) / 2 == 1 + (|s| - 2 + 1) / 2;
    }
  }

  /** What the code's precondition allows: 128 KiB from any 16-bit start, and not a word more. */
  lemma Reach(n: nat, start: nat)
    requires n % 2 == 0
    ensures n <= 0x2_0000 && start <= ONES ==> start + (n + 1) / 2 * ONES < TWO32
    ensures n > 0x2_0000 && start == ONES ==> start + (n + 1) / 2 * ONES >= TWO32
  {
  }

  lemma {:induction false} EvenSplit(x: seq<Byte>, y: seq<Byte>)
    requires |x| % 2 == 0
    ensures WordSum(x + y) == WordSum(x) + WordSum(y)
    decreases |x|
  {
    if x == [] {
      assert x + y == y;
    } else {
      assert (x + y)[0] == x[0] && (x + y)[1] == x[1] && (x + y)[2..] == x[2..] + y;
      EvenSplit(x[2..], y);
    }
  }

  /** checksum_partial: sums of even pieces add up to the sum of the whole. */
  method Partial(start: nat, s: seq<Byte>) returns (sum: nat)
    requires start + (|s| + 1) / 2 * ONES < TWO32
    ensures sum == start + WordSum(s)
  {
    NoOverflow(s);
    sum := start;
    var p := 0;
    while |s| - p > 1
      invariant 0 <= p <= |s| && sum + WordSum(s[p..]) == start + WordSum(s) < TWO32
    {
      assert s[p..][2..] == s[p + 2..];
      var low: int, high: int := s[p], s[p + 1];
      sum := U32(sum + (low + 256 * high));
      p := p + 2;
    }
    if |s| - p > 0 {
      assert s[p..] == [s[p]];
      sum := U32(sum + s[p]);
    }
  }

  lemma CarryKeeps(x: nat)
    requires x >= 0x1_0000
    ensures 0 < x % 0x1_0000 + x / 0x1_0000 < x
    ensures Folded(x % 0x1_0000 + x / 0x1_0000) == Folded(x)
  {
    var y := x % 0x1_0000 + x / 0x1_0000;
    var q := x / 0x1_0000;
    assert x == q * 0x1_0000 + x % 0x1_0000;
    assert y - x == -q * ONES;
    Multiple(-q);
    SameResidue(Folded(y), x, y);
    FoldedUnique(x, Folded(y));
  }

  /** checksum: the complement of the one's complement sum. */
  method Compute(s: seq<Byte>, start: nat) returns (c: nat)
    requires start + (|s| + 1) / 2 * ONES < TWO32
    ensures c == Check(start + WordSum(s))
  {
    var sum := Partial(start, s);
    ghost var x := sum;
    while sum / 0x1_0000 != 0
      invariant Folded(sum) == Folded(x)
      decreases sum
    {
      CarryKeeps(sum);
      sum := sum % 0x1_0000 + sum / 0x1_0000;
    }
    SmallFolded(sum);
    c := ONES - sum;
  }

  lemma SmallFolded(x: nat)
    requires x <= ONES
    ensures Folded(x) == x
  {
    FoldedUnique(x, x);
  }

  // ---- what it is for ----

  /** The region with c stored, low byte first, in the two bytes at k. */
  function Stored(s: seq<Byte>, k: nat, c: nat): seq<Byte>
    requires k + 2 <= |s| && c <= ONES
  {
    s[k := c % 256][k + 1 := c / 256]
  }

  lemma StoredSum(s: seq<Byte>, k: nat, c: nat)
    requires k + 2 <= |s| && k % 2 == 0 && c <= ONES && s[k] == 0 && s[k + 1] == 0
    ensures WordSum(Stored(s, k, c)) == WordSum(s) + c
  {
    var t := Stored(s, k, c);
    assert s == s[..k] + s[k..] && t == s[..k] + t[k..];
    EvenSplit(s[..k], s[k..]);
    EvenSplit(s[..k], t[k..]);
    assert s[k..][2..] == s[k + 2..] && t[k..][2..] == s[k + 2..];
  }

  /** A region whose zeroed, aligned field holds the checksum checks to 0. */
  lemma StoredVerifies(s: seq<Byte>, k: nat, start: nat)
    requires k + 2 <= |s| && k % 2 == 0 && s[k] == 0 && s[k + 1] == 0
    ensures Check(start + WordSum(Stored(s, k, Check(start + WordSum(s))))) == 0
  {
    var x := start + WordSum(s);
    var f := Folded(x);
    StoredSum(s, k, ONES - f);
    var y := x + (ONES - f);
    assert (f - x) == (f - x) / ONES * ONES;
    assert ONES - y == (f - x) / ONES * ONES;
    Multiple((f - x) / ONES);
    FoldedUnique(y, ONES);
  }

  /** The two bytes of a 16-bit value exchanged. */
  function Swap(x: nat): (r: nat)
    requires x <= ONES
    ensures r <= ONES
  {
    x % 256 * 256 + x / 256
  }

  lemma {:induction false} BigIsShifted(s: seq<Byte>)
    ensures (WordSumBig(s) - 256 * WordSum(s)) % ONES == 0
    ensures WordSumBig(s) == 0 <==> WordSum(s) == 0
    decreases |s|
  {
    if |s| >= 2 {
      BigIsShifted(s[2..]);
      var d := WordSumBig(s[2..]) - 256 * WordSum(s[2..]);
      assert d == d / ONES * ONES;
      assert WordSumBig(s) - 256 * WordSum(s) == (d / ONES - s[1]) * ONES;
      Multiple(d / ONES - s[1]);
    }
  }

  lemma SwapShifts(f: nat)
    requires f <= ONES
    ensures (Swap(f) - 256 * f) % ONES == 0 && (Swap(f) == 0 <==> f == 0)
  {
    assert f == f / 256 * 256 + f % 256;
    assert Swap(f) - 256 * f == -(f / 256) * ONES;
    Multiple(-(f / 256));
  }

  /** Summing low byte first and storing low byte first puts the same two bytes in the field
      as summing and storing high byte first (section 2(B) of RFC 1071). */
  lemma ByteOrder(s: seq<Byte>)
    ensures Swap(Check(WordSum(s))) == Check(WordSumBig(s))
  {
    var x, b := WordSum(s), WordSumBig(s);
    var f := Folded(x);
    BigIsShifted(s);
    SwapShifts(f);
    assert f - x == (f - x) / ONES * ONES;
    assert 256 * f - 256 * x == (256 * ((f - x) / ONES)) * ONES;
    Multiple(256 * ((f - x) / ONES));
    var g := Swap(f);
    SumResidue(g - 256 * f, 256 * f - 256 * x);
    SameResidue(g, b, 256 * x);
    FoldedUnique(b, g);
    SwapComplement(f);
  }

  lemma SumResidue(a: int, b: int)
    requires a % ONES == 0 && b % ONES == 0
    ensures (a + b) % ONES == 0
  {
    assert a == a / ONES * ONES && b == b / ONES * ONES;
    assert a + b == (a / ONES + b / ONES) * ONES;
    Multiple(a / ONES + b / ONES);
  }

  lemma SwapComplement(f: nat)
    requires f <= ONES
    ensures Swap(ONES - f) == ONES - Swap(f)
  {
    var h, l := f / 256, f % 256;
    assert ONES - f == (255 - h) * 256 + (255 - l);
  }
}
