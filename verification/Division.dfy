/** Software division: the bit loop of udivmod and the signed operations built on it. */
module Division {
  import opened Config

  lemma Powers()
    ensures Pow2(32) == TWO32
  {
    assert Pow2(4) == 16;
    assert Pow2(8) == 16 * Pow2(4);
    assert Pow2(12) == 16 * Pow2(8) && Pow2(16) == 16 * Pow2(12);
    assert Pow2(20) == 16 * Pow2(16) && Pow2(24) == 16 * Pow2(20);
    assert Pow2(28) == 16 * Pow2(24) && Pow2(32) == 16 * Pow2(28);
  }

  /** num without its last i bits: num >> i. */
  function Prefix(num: nat, i: nat): nat
    decreases i
  {
    if i == 0 then num else Prefix(num, i - 1) / 2
  }

  /** One bit further the prefix is doubled and the bit added. */
  lemma PrefixStep(num: nat, i: nat)
    ensures Prefix(num, i) == 2 * Prefix(num, i + 1) + Prefix(num, i) % 2
  {
  }

  lemma {:induction false} PrefixSmall(num: nat, i: nat)
    ensures Prefix(num, i) <= num
    decreases i
  {
    if i > 0 { PrefixSmall(num, i - 1); }
  }

  lemma {:induction false} PrefixBits(num: nat, i: nat)
    requires num < TWO32 && i <= 32
    ensures Prefix(num, i) < Pow2(32 - i)
    decreases i
  {
    if i == 0 {
      Powers();
    } else {
      PrefixBits(num, i - 1);
      assert Pow2(32 - (i - 1)) == 2 * Pow2(32 - i);
    }
  }

  lemma {:induction false} AtLeast(d: nat, k: nat)
    requires k >= 1
    ensures d * k >= d
  {
    if k > 1 {
      AtLeast(d, k - 1);
      assert d * k == d * (k - 1) + d;
    }
  }

  lemma Bigger(d: nat, a: nat, b: nat)
    requires a < b
    ensures d * b >= d * a + d
  {
    AtLeast(d, b - a);
    assert d * b == d * a + d * (b - a);
  }

  /** Quotient and remainder are unique. */
  lemma Quotient(num: nat, d: nat, q: nat, r: nat)
    requires d >= 1 && num == d * q + r && r < d
    ensures num / d == q && num % d == r
  {
    var q1, r1 := num / d, num % d;
    assert num == d * q1 + r1;
    if q1 < q { Bigger(d, q1, q); } else if q < q1 { Bigger(d, q, q1); }
  }

  // ---- udivmod ----

  /** What the loop has when the bits from i up are done. `k` is the quotient of the prefix;
      with a zero divisor nothing is ever subtracted and every bit of q is set. */
  ghost predicate Partway(num: nat, den: nat, i: nat, q: int, r: int, k: nat) {
    && q == k * Pow2(i) && 0 <= r <= Prefix(num, i)
    && (den > 0 ==> Prefix(num, i) == k * den + r && r < den)
    && (den == 0 ==> r == Prefix(num, i) && (k + 1) * Pow2(i) == TWO32)
  }

  /** The running remainder is no more than the prefix of the dividend, so doubling it never
      overflows, whatever the divisor. */
  lemma Turn(num: nat, den: nat, i: nat, q: int, r: int, k: nat)
    requires num < TWO32 && i < 32 && Partway(num, den, i + 1, q, r, k)
    ensures var r2 := 2 * r + Prefix(num, i) % 2;
            && 0 <= r2 < TWO32
            && Partway(num, den, i, if r2 >= den then q + Pow2(i) else q, if r2 >= den then r2 - den
                else r2, if r2 >= den then 2 * k + 1 else 2 * k)
  {
    var p := Pow2(i);
    PrefixStep(num, i);
    PrefixSmall(num, i);
    assert Pow2(i + 1) == 2 * p;
    Scale(k, p);
    Twice(k, den);
  }

  lemma Scale(k: nat, p: nat)
    ensures k * (2 * p) == (2 * k) * p
    ensures k * (2 * p) + p == (2 * k + 1) * p
    ensures (k + 1) * (2 * p) == (2 * k + 1 + 1) * p
  {
  }

  lemma Twice(k: nat, d: nat)
    ensures 2 * (k * d) == (2 * k) * d && 2 * (k * d) + d == (2 * k + 1) * d
  {
  }

  method UDivMod(num: nat, den: nat) returns (q: int, r: int)
    requires num < TWO32 && den < TWO32
    ensures den > 0 ==> q == num / den && r == num % den
    ensures den == 0 ==> q == TWO32 - 1 && r == num
  {
    hide Prefix, Pow2, Partway, U32;
    q, r := 0, 0;
    ghost var k: nat := 0;
    Begin(num, den);
    for i := 32 downto 0
      invariant Partway(num, den, i, q, r, k)
    {
      Turn(num, den, i, q, r, k);
      SmallWord(2 * r + Prefix(num, i) % 2);
      r := U32(2 * r + Prefix(num, i) % 2);
      if r >= den {
        r := r - den;
        q := q + Pow2(i);
        k := 2 * k + 1;
      } else {
        k := 2 * k;
      }
    }
    End(num, den, q, r, k);
  }

  lemma SmallWord(x: int)
    requires 0 <= x < TWO32
    ensures U32(x) == x
  {
  }

  lemma Begin(num: nat, den: nat)
    requires num < TWO32
    ensures Partway(num, den, 32, 0, 0, 0)
  {
    Powers();
    PrefixBits(num, 32);
  }

  lemma End(num: nat, den: nat, q: int, r: int, k: nat)
    requires Partway(num, den, 0, q, r, k)
    ensures den > 0 ==> q == num / den && r == num % den
    ensures den == 0 ==> q == TWO32 - 1 && r == num
  {
    assert Prefix(num, 0) == num && Pow2(0) == 1;
    if den > 0 { Quotient(num, den, k, r); }
  }

  // ---- the signed operations ----

  predicate IsLong(x: int) { INT_MIN <= x <= INT_MAX }

  function Abs(x: int): nat { if x < 0 then -x else x }

  /** Division that truncates toward zero. */
  function Trunc(a: int, b: int): int
    requires b != 0
  {
    if (a < 0) != (b < 0) then -(Abs(a) / Abs(b)) else Abs(a) / Abs(b)
  }

  function TruncRem(a: int, b: int): int
    requires b != 0
  {
    if a < 0 then -(Abs(a) % Abs(b)) else Abs(a) % Abs(b)
  }

  /** Euclid's pair for natural numbers. */
  lemma DivMod(x: nat, y: nat)
    requires y >= 1
    ensures x == y * (x / y) + x % y && 0 <= x % y < y && x / y >= 0
  {
  }

  /** C's meaning of / and %: the pair is determined by these properties. */
  lemma TruncMeans(a: int, b: int)
    requires b != 0
    ensures a == b * Trunc(a, b) + TruncRem(a, b)
    ensures Abs(TruncRem(a, b)) < Abs(b)
    ensures TruncRem(a, b) == 0 || (TruncRem(a, b) < 0 <==> a < 0)
  {
    DivMod(Abs(a), Abs(b));
    var q, r := Abs(a) / Abs(b), Abs(a) % Abs(b);
    assert a == b * (if (a < 0) != (b < 0) then -q else q) + (if a < 0 then -r else r) by { Signed(a, b, q, r); }
  }

  lemma Signed(a: int, b: int, q: int, r: int)
    requires b != 0 && Abs(a) == Abs(b) * q + r
    ensures a == b * (if (a < 0) != (b < 0) then -q else q) + (if a < 0 then -r else r)
  {
    assert (-b) * q == -(b * q) && b * (-q) == -(b * q);
  }

  /** The value -x or x as the code forms it on unsigned words. */
  lemma Magnitude(a: int)
    requires IsLong(a)
    ensures U32(if a < 0 then -U32(a) else U32(a)) == Abs(a)
  {
  }

  /** A word below 2^31 read back, with or without its sign; 2^31 itself wraps to INT_MIN. */
  lemma ReadBack(u: int)
    requires 0 <= u <= TWO31
    ensures u < TWO31 ==> S32(u) == u && S32(-S32(u)) == -u
    ensures u == TWO31 ==> S32(u) == INT_MIN && S32(-S32(u)) == INT_MIN
  {
  }

  /** A quotient is no larger than its dividend, and reaches 2^31 only from INT_MIN by 1 or -1. */
  lemma QuotientRange(a: int, b: int)
    requires IsLong(a) && IsLong(b) && b != 0
    ensures 0 <= Abs(a) / Abs(b) <= TWO31
    ensures Abs(a) / Abs(b) == TWO31 ==> a == INT_MIN && (b == 1 || b == -1)
  {
    DivMod(Abs(a), Abs(b));
    Bounded(Abs(a), Abs(b), Abs(a) / Abs(b), Abs(a) % Abs(b));
  }

  lemma Bounded(x: nat, y: nat, q: int, r: int)
    requires y >= 1 && x == y * q + r && 0 <= r < y && x <= TWO31 && q >= 0
    ensures q <= TWO31 && (q == TWO31 ==> y == 1 && x == TWO31)
  {
    if y >= 2 { Bigger(q, 1, y); }
  }

  /** __divsi3: truncating division; INT_MIN / -1, the one quotient that does not fit, wraps. */
  method DivSi3(a: int, b: int) returns (q: int)
    requires IsLong(a) && IsLong(b)
    ensures b != 0 && !(a == INT_MIN && b == -1) ==> q == Trunc(a, b)
    ensures a == INT_MIN && b == -1 ==> q == INT_MIN
    ensures b != 0 ==> IsLong(q)
  {
    hide S32, U32;
    Magnitude(a);
    Magnitude(b);
    var ua := U32(if a < 0 then -U32(a) else U32(a));
    var ub := U32(if b < 0 then -U32(b) else U32(b));
    var u, r := UDivMod(ua, ub);
    q := if (a < 0) != (b < 0) then S32(-S32(u)) else S32(u);
    if b != 0 {
      QuotientRange(a, b);
      ReadBack(u);
    }
  }

  /** __modsi3: the remainder with the sign of the dividend, for every divisor but zero. */
  method ModSi3(a: int, b: int) returns (r: int)
    requires IsLong(a) && IsLong(b)
    ensures b != 0 ==> r == TruncRem(a, b)
  {
    hide S32, U32;
    Magnitude(a);
    Magnitude(b);
    var ua := U32(if a < 0 then -U32(a) else U32(a));
    var ub := U32(if b < 0 then -U32(b) else U32(b));
    var q, u := UDivMod(ua, ub);
    r := if a < 0 then S32(-S32(u)) else S32(u);
    if b != 0 {
      DivMod(Abs(a), Abs(b));
      ReadBack(u);
    }
  }
}
