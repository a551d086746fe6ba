/** The heap as values: a free list of blocks and the blocks handed out. */
module HeapSpec {
  import opened Config

  const MIN_ALLOC: int := 16

  datatype Block = Block(addr: int, size: int)

  function End(b: Block): int { b.addr + b.size }

  predicate In(b: Block, a: int) { b.addr <= a < End(b) }

  /** ceil_memblk(size + 4) on 32-bit words, and no less than MIN_ALLOC. */
  function Rounded(size: int): (n: int)
    requires 0 <= size < TWO32
    ensures n >= MIN_ALLOC && n % 8 == 0
  {
    var r := U32(U32(size + 4) + 7) / 8 * 8;
    if r < MIN_ALLOC then MIN_ALLOC else r
  }

  /** The block asked for holds the header and the request exactly when the rounding does
      not wrap, and then it wastes fewer than 8 bytes beyond the minimum. */
  lemma RoundedFits(size: int)
    requires 0 <= size < TWO32
    ensures Rounded(size) >= size + 4 <==> size <= TWO32 - 12
    ensures size <= TWO32 - 12 ==> Rounded(size) < size + 12 || Rounded(size) == MIN_ALLOC
  {
    if size <= TWO32 - 12 {
      assert U32(U32(size + 4) + 7) == size + 11;
    }
  }

  /** Some block of the list holds byte a. */
  predicate Holds(fl: seq<Block>, a: int) {
    exists i :: 0 <= i < |fl| && In(fl[i], a)
  }

  predicate Fits(b: Block, lo: int, hi: int) {
    lo <= b.addr && End(b) <= hi && b.size >= MIN_ALLOC && b.size % 8 == 0 && (b.addr - lo) % 8 == 0
  }

  predicate AllFit(s: seq<Block>, lo: int, hi: int) {
    forall i :: 0 <= i < |s| ==> Fits(s[i], lo, hi)
  }

  /** In address order, with a gap between any two. */
  predicate Spaced(fl: seq<Block>) {
    forall i, j :: 0 <= i < j < |fl| ==> End(fl[i]) < fl[j].addr
  }

  predicate Canon(fl: seq<Block>, lo: int, hi: int) {
    AllFit(fl, lo, hi) && Spaced(fl)
  }

  function Sum(s: seq<Block>): int {
    if s == [] then 0 else s[0].size + Sum(s[1..])
  }

  lemma {:induction false} SumSplit(s: seq<Block>, t: seq<Block>)
    ensures Sum(s + t) == Sum(s) + Sum(t)
  {
    if s == [] {
      assert s + t == t;
    } else {
      assert (s + t)[1..] == s[1..] + t;
      SumSplit(s[1..], t);
    }
  }

  lemma SumAt(s: seq<Block>, i: nat)
    requires i < |s|
    ensures Sum(s) == Sum(s[..i]) + s[i].size + Sum(s[i + 1..])
  {
    assert s == s[..i] + s[i..];
    SumSplit(s[..i], s[i..]);
    assert s[i..][1..] == s[i + 1..];
  }

  lemma SumParts(s: seq<Block>, b: Block, t: seq<Block>)
    ensures Sum(s + [b] + t) == Sum(s) + b.size + Sum(t)
  {
    SumSplit(s + [b], t);
    SumSplit(s, [b]);
  }

  // ---- the free list is a canonical form of the free bytes ----

  lemma FreeTail(fl: seq<Block>, lo: int, hi: int, a: int)
    requires Canon(fl, lo, hi) && fl != []
    ensures Holds(fl[1..], a) <==> Holds(fl, a) && !In(fl[0], a)
  {
    if Holds(fl[1..], a) {
      var i :| 0 <= i < |fl[1..]| && In(fl[1..][i], a);
      assert In(fl[i + 1], a);
    }
    if Holds(fl, a) && !In(fl[0], a) {
      var i :| 0 <= i < |fl| && In(fl[i], a);
      assert In(fl[1..][i - 1], a);
    }
  }

  /** The first block starts at the least free byte. */
  lemma FirstByte(fl: seq<Block>, lo: int, hi: int, a: int)
    requires Canon(fl, lo, hi) && Holds(fl, a)
    ensures fl != [] && fl[0].addr <= a && Holds(fl, fl[0].addr)
  {
    assert In(fl[0], fl[0].addr);
  }

  /** It ends at the first byte above it that is not free. */
  lemma FirstGap(fl: seq<Block>, lo: int, hi: int)
    requires Canon(fl, lo, hi) && fl != []
    ensures !Holds(fl, End(fl[0]))
    ensures forall a :: In(fl[0], a) ==> Holds(fl, a)
  {
  }

  /** Two free lists with the same free bytes are the same list. */
  lemma {:induction false} Unique(x: seq<Block>, y: seq<Block>, lo: int, hi: int)
    requires Canon(x, lo, hi) && Canon(y, lo, hi)
    requires forall a :: Holds(x, a) <==> Holds(y, a)
    ensures x == y
    decreases |x|
  {
    if x == [] {
      if y != [] { FirstGap(y, lo, hi); assert Holds(y, y[0].addr); }
    } else {
      FirstGap(x, lo, hi);
      assert Holds(y, x[0].addr);
      FirstByte(y, lo, hi, x[0].addr);
      FirstByte(x, lo, hi, y[0].addr);
      FirstGap(y, lo, hi);
      SameFirst(x, y, lo, hi);
      forall a ensures Holds(x[1..], a) <==> Holds(y[1..], a) {
        FreeTail(x, lo, hi, a);
        FreeTail(y, lo, hi, a);
      }
      Unique(x[1..], y[1..], lo, hi);
    }
  }

  lemma SameFirst(x: seq<Block>, y: seq<Block>, lo: int, hi: int)
    requires Canon(x, lo, hi) && Canon(y, lo, hi) && x != [] && y != [] && x[0].addr == y[0].addr
    requires forall a :: Holds(x, a) <==> Holds(y, a)
    requires !Holds(x, End(x[0])) && !Holds(y, End(y[0]))
    ensures x[0] == y[0]
  {
    assert In(y[0], End(x[0])) || In(x[0], End(y[0])) || End(x[0]) == End(y[0]);
  }

  // ---- bytes of parts ----

  lemma Tail(s: seq<Block>, a: int)
    requires s != []
    ensures Holds(s, a) <==> In(s[0], a) || Holds(s[1..], a)
  {
    if Holds(s, a) && !In(s[0], a) {
      var i :| 0 <= i < |s| && In(s[i], a);
      assert In(s[1..][i - 1], a);
    }
    if Holds(s[1..], a) {
      var i :| 0 <= i < |s[1..]| && In(s[1..][i], a);
      assert In(s[i + 1], a);
    }
  }

  lemma Either(s: seq<Block>, t: seq<Block>, a: int)
    ensures Holds(s + t, a) <==> Holds(s, a) || Holds(t, a)
  {
    if Holds(s + t, a) {
      var i :| 0 <= i < |s + t| && In((s + t)[i], a);
      assert if i < |s| then In(s[i], a) else In(t[i - |s|], a);
    }
    if Holds(s, a) {
      var i :| 0 <= i < |s| && In(s[i], a);
      assert In((s + t)[i], a);
    }
    if Holds(t, a) {
      var i :| 0 <= i < |t| && In(t[i], a);
      assert In((s + t)[|s| + i], a);
    }
  }

  /** The bytes below, in and above the i-th block. */
  lemma Around(fl: seq<Block>, i: nat, a: int)
    requires i < |fl|
    ensures Holds(fl, a) <==> Holds(fl[..i], a) || In(fl[i], a) || Holds(fl[i + 1..], a)
  {
    assert fl == fl[..i] + fl[i..] && fl[i..][1..] == fl[i + 1..];
    hide Holds, In;
    Either(fl[..i], fl[i..], a);
    Tail(fl[i..], a);
  }

  lemma Between(fl: seq<Block>, i: nat, a: int)
    requires i < |fl| && Spaced(fl) && In(fl[i], a)
    ensures !Holds(fl[..i], a) && !Holds(fl[i + 1..], a)
  {
  }

  // ---- first fit and last fit ----

  /** Index of the first block of at least n bytes, or |fl|. */
  function FirstFit(fl: seq<Block>, n: int): (i: nat)
    ensures i <= |fl|
    ensures forall j :: 0 <= j < i ==> fl[j].size < n
    ensures i < |fl| ==> fl[i].size >= n
  {
    if fl == [] || fl[0].size >= n then 0 else 1 + FirstFit(fl[1..], n)
  }

  lemma FirstFitUnique(fl: seq<Block>, n: int, i: nat)
    requires i <= |fl| && (i < |fl| ==> fl[i].size >= n) && forall j :: 0 <= j < i ==> fl[j].size < n
    ensures FirstFit(fl, n) == i
  {
  }

  lemma LastFitUnique(fl: seq<Block>, n: int, i: int)
    requires -1 <= i < |fl| && (i >= 0 ==> fl[i].size >= n) && forall j :: i < j < |fl| ==> fl[j].size < n
    ensures LastFit(fl, n) == i
  {
  }

  /** Index of the last block of at least n bytes, or -1. */
  function LastFit(fl: seq<Block>, n: int): (i: int)
    ensures -1 <= i < |fl|
    ensures forall j :: i < j < |fl| ==> fl[j].size < n
    ensures i >= 0 ==> fl[i].size >= n
  {
    if fl == [] then -1
    else if fl[|fl| - 1].size >= n then |fl| - 1
    else LastFit(fl[..|fl| - 1], n)
  }

  /** A block too small to split is handed out whole; otherwise its low end is. */
  function CarveLow(fl: seq<Block>, i: nat, n: int): (Block, seq<Block>)
    requires i < |fl|
  {
    if fl[i].size < n + MIN_ALLOC then (fl[i], fl[..i] + fl[i + 1..])
    else (Block(fl[i].addr, n), fl[i := Block(fl[i].addr + n, fl[i].size - n)])
  }

  function CarveHigh(fl: seq<Block>, i: nat, n: int): (Block, seq<Block>)
    requires i < |fl|
  {
    if fl[i].size < n + MIN_ALLOC then (fl[i], fl[..i] + fl[i + 1..])
    else (Block(fl[i].addr + (fl[i].size - n), n), fl[i := Block(fl[i].addr, fl[i].size - n)])
  }

  /** b came out of fl, leaving g: the same bytes, split in two. */
  ghost predicate Carved(fl: seq<Block>, b: Block, g: seq<Block>, lo: int, hi: int) {
    && Canon(g, lo, hi) && Fits(b, lo, hi) && Sum(fl) == Sum(g) + b.size
    && (forall a :: Holds(fl, a) <==> Holds(g, a) || In(b, a))
    && (forall a :: !(Holds(g, a) && In(b, a)))
  }

  lemma TakeWhole(fl: seq<Block>, i: nat, lo: int, hi: int)
    requires Canon(fl, lo, hi) && i < |fl|
    ensures Carved(fl, fl[i], fl[..i] + fl[i + 1..], lo, hi)
  {
    var g := fl[..i] + fl[i + 1..];
    FewerCanon(fl, i, lo, hi);
    hide AllFit;
    SumAt(fl, i);
    SumSplit(fl[..i], fl[i + 1..]);
    forall a ensures (Holds(fl, a) <==> Holds(g, a) || In(fl[i], a)) && !(Holds(g, a) && In(fl[i], a)) {
      WholeBytes(fl, i, g, a);
    }
    hide Canon, Sum, Holds, In;
  }

  lemma FewerCanon(fl: seq<Block>, i: nat, lo: int, hi: int)
    requires Canon(fl, lo, hi) && i < |fl|
    ensures Canon(fl[..i] + fl[i + 1..], lo, hi) && Fits(fl[i], lo, hi)
  {
    var g := fl[..i] + fl[i + 1..];
    assert forall j :: 0 <= j < |g| ==> g[j] == fl[if j < i then j else j + 1];
  }

  lemma WholeBytes(fl: seq<Block>, i: nat, g: seq<Block>, a: int)
    requires Spaced(fl) && i < |fl| && g == fl[..i] + fl[i + 1..]
    ensures (Holds(fl, a) <==> Holds(g, a) || In(fl[i], a)) && !(Holds(g, a) && In(fl[i], a))
  {
    hide Holds, In, Spaced;
    Around(fl, i, a);
    Either(fl[..i], fl[i + 1..], a);
    if In(fl[i], a) { Between(fl, i, a); }
  }

  /** One block cut in two, b and rest, of which rest stays. */
  predicate Halves(f: Block, b: Block, rest: Block) {
    && b.size + rest.size == f.size && b.size > 0 && rest.size > 0
    && ((b.addr == f.addr && rest.addr == End(b)) || (rest.addr == f.addr && b.addr == End(rest)))
  }

  lemma PartBytes(fl: seq<Block>, i: nat, b: Block, rest: Block, a: int)
    requires Spaced(fl) && i < |fl| && Halves(fl[i], b, rest)
    ensures (Holds(fl, a) <==> Holds(fl[i := rest], a) || In(b, a)) && !(Holds(fl[i := rest], a) && In(b, a))
  {
    assert In(fl[i], a) <==> In(b, a) || In(rest, a);
    assert !(In(b, a) && In(rest, a));
    hide Holds, In, Spaced, Halves;
    Around(fl, i, a);
    Around(fl[i := rest], i, a);
    assert fl[i := rest][..i] == fl[..i] && fl[i := rest][i + 1..] == fl[i + 1..];
    if In(fl[i], a) { Between(fl, i, a); }
  }

  lemma TakePart(fl: seq<Block>, i: nat, b: Block, rest: Block, lo: int, hi: int)
    requires Canon(fl, lo, hi) && i < |fl| && Fits(b, lo, hi) && Fits(rest, lo, hi) && Halves(fl[i], b, rest)
    ensures Carved(fl, b, fl[i := rest], lo, hi)
  {
    var g := fl[i := rest];
    assert Canon(g, lo, hi);
    SumAt(fl, i);
    SumAt(g, i);
    assert g[..i] == fl[..i] && g[i + 1..] == fl[i + 1..];
    forall a ensures (Holds(fl, a) <==> Holds(g, a) || In(b, a)) && !(Holds(g, a) && In(b, a)) {
      PartBytes(fl, i, b, rest, a);
    }
    hide Canon, Sum, Holds, In, Fits;
  }

  lemma CarveSound(fl: seq<Block>, i: nat, n: int, lo: int, hi: int)
    requires Canon(fl, lo, hi) && i < |fl| && fl[i].size >= n >= MIN_ALLOC && n % 8 == 0
    ensures Carved(fl, CarveLow(fl, i, n).0, CarveLow(fl, i, n).1, lo, hi) && CarveLow(fl, i, n).0.size >= n
    ensures Carved(fl, CarveHigh(fl, i, n).0, CarveHigh(fl, i, n).1, lo, hi) && CarveHigh(fl, i, n).0.size >= n
  {
    hide Carved;
    var f := fl[i];
    if f.size < n + MIN_ALLOC {
      TakeWhole(fl, i, lo, hi);
    } else {
      TakePart(fl, i, Block(f.addr, n), Block(f.addr + n, f.size - n), lo, hi);
      TakePart(fl, i, Block(f.addr + (f.size - n), n), Block(f.addr, f.size - n), lo, hi);
    }
  }

  // ---- giving back ----

  /** How many free blocks lie below address a. */
  function Below(fl: seq<Block>, a: int): (k: nat)
    ensures k <= |fl|
    ensures forall j :: 0 <= j < k ==> fl[j].addr < a
    ensures k < |fl| ==> fl[k].addr >= a
  {
    if fl == [] || fl[0].addr >= a then 0 else 1 + Below(fl[1..], a)
  }

  lemma BelowUnique(fl: seq<Block>, a: int, k: nat)
    requires k <= |fl| && (forall j :: 0 <= j < k ==> fl[j].addr < a) && (k < |fl| ==> fl[k].addr >= a)
    ensures Below(fl, a) == k
  {
  }

  /** The block and what follows it, merged if they touch. */
  function JoinUp(b: Block, rest: seq<Block>): seq<Block> {
    if rest != [] && End(b) == rest[0].addr then [Block(b.addr, b.size + rest[0].size)] + rest[1..] else [b] + rest
  }

  /** What lies below and the list headed by the block, merged if they touch. */
  function JoinDown(lower: seq<Block>, s: seq<Block>): seq<Block>
    requires s != []
  {
    var n := |lower|;
    if n > 0 && End(lower[n - 1]) == s[0].addr
    then lower[..n - 1] + [Block(lower[n - 1].addr, lower[n - 1].size + s[0].size)] + s[1..]
    else lower + s
  }

  function InsertFree(fl: seq<Block>, b: Block): seq<Block> {
    var k := Below(fl, b.addr);
    JoinDown(fl[..k], JoinUp(b, fl[k..]))
  }

  /** No byte of b is free. */
  predicate Apart(fl: seq<Block>, b: Block) {
    forall i :: 0 <= i < |fl| ==> End(fl[i]) <= b.addr || End(b) <= fl[i].addr
  }

  lemma JoinUpSound(b: Block, rest: seq<Block>, lo: int, hi: int)
    requires Canon(rest, lo, hi) && Fits(b, lo, hi) && (rest != [] ==> End(b) <= rest[0].addr)
    ensures var s := JoinUp(b, rest);
            && Canon(s, lo, hi) && s[0].addr == b.addr && Sum(s) == b.size + Sum(rest)
            && (forall a :: Holds(s, a) <==> Holds(rest, a) || In(b, a))
  {
    var s := JoinUp(b, rest);
    assert s[1..] == if rest != [] && End(b) == rest[0].addr then rest[1..] else rest;
    assert Canon(s, lo, hi);
    forall a ensures Holds(s, a) <==> Holds(rest, a) || In(b, a) {
      UpBytes(b, rest, s, a);
    }
    hide Canon, Holds, In, Fits;
  }

  lemma UpBytes(b: Block, rest: seq<Block>, s: seq<Block>, a: int)
    requires s == JoinUp(b, rest) && b.size > 0 && (rest != [] ==> rest[0].size > 0)
    requires s[1..] == if rest != [] && End(b) == rest[0].addr then rest[1..] else rest
    ensures Holds(s, a) <==> Holds(rest, a) || In(b, a)
  {
    hide Holds;
    Tail(s, a);
    if rest != [] { Tail(rest, a); }
  }

  lemma JoinDownSound(lower: seq<Block>, s: seq<Block>, lo: int, hi: int)
    requires Canon(lower, lo, hi) && Canon(s, lo, hi) && s != []
    requires forall j :: 0 <= j < |lower| ==> End(lower[j]) <= s[0].addr
    ensures var r := JoinDown(lower, s);
            && Canon(r, lo, hi) && Sum(r) == Sum(lower) + Sum(s)
            && (forall a :: Holds(r, a) <==> Holds(lower, a) || Holds(s, a))
  {
    if lower != [] && End(lower[|lower| - 1]) == s[0].addr {
      DownJoined(lower, s, Block(lower[|lower| - 1].addr, lower[|lower| - 1].size + s[0].size), lo, hi);
    } else {
      assert Canon(lower + s, lo, hi) by { ApartCanon(lower, s, lo, hi); }
      SumSplit(lower, s);
      hide Canon, Sum, Holds, In;
      forall a ensures Holds(lower + s, a) <==> Holds(lower, a) || Holds(s, a) { Either(lower, s, a); }
    }
  }

  lemma ApartCanon(lower: seq<Block>, s: seq<Block>, lo: int, hi: int)
    requires Canon(lower, lo, hi) && Canon(s, lo, hi) && s != []
    requires forall j :: 0 <= j < |lower| ==> End(lower[j]) <= s[0].addr
    requires lower != [] ==> End(lower[|lower| - 1]) != s[0].addr
    ensures Canon(lower + s, lo, hi)
  {
    var r, n := lower + s, |lower|;
    assert forall j :: 0 <= j < |r| ==> r[j] == (if j < n then lower[j] else s[j - n]);
    assert forall j :: 0 <= j < n ==> End(lower[j]) < s[0].addr;
  }

  lemma DownJoined(lower: seq<Block>, s: seq<Block>, m: Block, lo: int, hi: int)
    requires Canon(lower, lo, hi) && Canon(s, lo, hi) && s != [] && lower != []
    requires m == Block(lower[|lower| - 1].addr, lower[|lower| - 1].size + s[0].size)
        && End(lower[|lower| - 1]) == s[0].addr
    ensures var r := lower[..|lower| - 1] + [m] + s[1..];
            && Canon(r, lo, hi) && Sum(r) == Sum(lower) + Sum(s)
            && (forall a :: Holds(r, a) <==> Holds(lower, a) || Holds(s, a))
  {
    var n, r := |lower|, lower[..|lower| - 1] + [m] + s[1..];
    DownCanon(lower, s, m, lo, hi);
    assert lower[n - 1].size > 0 && s[0].size > 0;
    hide Canon, Holds, In;
    SumAt(lower, n - 1);
    assert lower[n..] == [];
    SumParts(lower[..n - 1], m, s[1..]);
    assert r[..n - 1] == lower[..n - 1] && r[n..] == s[1..] && r[n - 1] == m;
    forall a ensures Holds(r, a) <==> Holds(lower, a) || Holds(s, a) {
      Around(r, n - 1, a);
      Around(lower, n - 1, a);
      Tail(s, a);
      JoinedBytes(lower[n - 1], s[0], m, a);
      Nothing(a);
    }
  }

  lemma Nothing(a: int)
    ensures !Holds([], a)
  {
  }

  lemma JoinedBytes(b: Block, c: Block, m: Block, a: int)
    requires End(b) == c.addr && m == Block(b.addr, b.size + c.size) && b.size > 0 && c.size > 0
    ensures In(m, a) <==> In(b, a) || In(c, a)
  {
  }

  lemma DownCanon(lower: seq<Block>, s: seq<Block>, m: Block, lo: int, hi: int)
    requires Canon(lower, lo, hi) && Canon(s, lo, hi) && s != [] && lower != []
    requires m == Block(lower[|lower| - 1].addr, lower[|lower| - 1].size + s[0].size)
        && End(lower[|lower| - 1]) == s[0].addr
    ensures Canon(lower[..|lower| - 1] + [m] + s[1..], lo, hi)
  {
    var n, r := |lower|, lower[..|lower| - 1] + [m] + s[1..];
    assert forall j :: 0 <= j < |r| ==>
                         r[j] == (if j < n - 1 then lower[j] else if j == n - 1 then m else s[j - n + 1]);
    assert End(m) == End(s[0]);
  }

  /** free() adds exactly the block's bytes, and the list stays canonical. */
  lemma InsertSound(fl: seq<Block>, b: Block, lo: int, hi: int)
    requires Canon(fl, lo, hi) && Fits(b, lo, hi) && Apart(fl, b)
    ensures var g := InsertFree(fl, b);
            && Canon(g, lo, hi) && Sum(g) == Sum(fl) + b.size
            && (forall a :: Holds(g, a) <==> Holds(fl, a) || In(b, a))
  {
    var k := Below(fl, b.addr);
    var lower, rest := fl[..k], fl[k..];
    assert fl == lower + rest;
    hide Below;
    SumSplit(lower, rest);
    JoinUpSound(b, rest, lo, hi);
    var s := JoinUp(b, rest);
    hide JoinUp;
    JoinDownSound(lower, s, lo, hi);
    hide JoinDown;
    forall a ensures Holds(JoinDown(lower, s), a) <==> Holds(fl, a) || In(b, a) { Either(lower, rest, a); }
  }
}
