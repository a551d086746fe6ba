/** The sizes and limits the kernel is built with, and 32-bit arithmetic. */
module Config {

  const NUM_PROC: nat := 10
  const NSEM: nat := 16
  const NCOND: nat := 16
  const NUM_QUEUE: nat := 1 + NSEM + NCOND
  const NUM_QENT: nat := NUM_PROC + 2 * NUM_QUEUE
  const NULL_PROC: nat := 0

  const INT_MIN: int := -0x8000_0000
  const INT_MAX: int := 0x7fff_ffff
  const TWO31: int := 0x8000_0000
  const TWO32: int := 0x1_0000_0000

  /** The value an unsigned 32-bit register keeps of x. */
  function U32(x: int): int {
    x % TWO32
  }

  /** The value an unsigned 32-bit word has when read as a signed one. */
  function S32(x: int): int {
    if U32(x) < TWO31 then U32(x) else U32(x) - TWO32
  }

  function Pow2(n: nat): (p: nat)
    ensures p >= 1
    decreases n
  {
    if n == 0 then 1 else 2 * Pow2(n - 1)
  }

  type Byte = b: int | 0 <= b < 256

  datatype Option<+T> = None | Some(value: T)

  /** The signed 32-bit difference of two wrapped ticks is the true difference. */
  lemma SignedDifference(a: int, b: int)
    requires -TWO31 <= a - b < TWO31
    ensures S32(U32(a) - U32(b)) == a - b
  {
    assert U32(U32(a) - U32(b)) == U32(a - b) by {
      assert U32(a) - U32(b) == (a - b) - TWO32 * (a / TWO32 - b / TWO32);
      ModShift(a - b, a / TWO32 - b / TWO32);
    }
  }

  lemma ModShift(x: int, k: int)
    ensures U32(x - TWO32 * k) == U32(x)
  {
  }

  lemma WrapSum(a: int, b: int)
    ensures U32(U32(a) + b) == U32(a + b)
  {
    assert U32(a) + b == a + b - TWO32 * (a / TWO32);
    ModShift(a + b, a / TWO32);
  }

  /** A byte put into a bit vector comes back. */
  lemma {:induction false} ByteBack(x: nat)
    requires x < 0x100
    ensures (x as bv8) as int == x
    decreases x
  {
    if x > 0 {
      ByteBack(x - 1);
      NextByte(x - 1);
    }
  }

  lemma NextByte(x: nat)
    requires x < 0xff && (x as bv8) as int == x
    ensures ((x + 1) as bv8) as int == x + 1
  {
    assert (x as bv8 + 1) as int == x + 1;
  }

  lemma FourBytes(t: nat)
    requires t < TWO32
    ensures t == 0x100_0000 * (t / 0x100_0000 % 0x100) + 0x1_0000 * (t / 0x1_0000 % 0x100)
                 + 0x100 * (t / 0x100 % 0x100) + t % 0x100
  {
    var q1 := t / 0x100;
    var q2 := q1 / 0x100;
    assert q2 == t / 0x1_0000 && q2 / 0x100 == t / 0x100_0000;
  }
}
