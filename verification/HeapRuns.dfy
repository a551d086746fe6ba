/** The allocator over runs of alloc, alloc_stack and free. */
module HeapRuns {
  import opened Config
  import opened HeapSpec

  /** `live` lists the blocks handed out and not yet given back. */
  datatype State = State(fl: seq<Block>, live: seq<Block>)

  predicate Clear(b: Block, c: Block) {
    End(b) <= c.addr || End(c) <= b.addr
  }

  predicate Disjoint(s: seq<Block>) {
    forall i, j :: 0 <= i < j < |s| ==> Clear(s[i], s[j])
  }

  /** Every byte of the heap is free or live, never both. */
  ghost predicate Covered(s: State, lo: int, hi: int) {
    forall a :: lo <= a < hi ==> (Holds(s.fl, a) <==> !Holds(s.live, a))
  }

  ghost predicate Inv(s: State, lo: int, hi: int) {
    && Canon(s.fl, lo, hi) && AllFit(s.live, lo, hi) && Disjoint(s.live)
    && Covered(s, lo, hi) && Sum(s.fl) + Sum(s.live) == hi - lo
  }

  function Without(s: seq<Block>, i: nat): seq<Block>
    requires i < |s|
  {
    s[..i] + s[i + 1..]
  }

  function AllocLow(s: State, n: int): (r: (Option<int>, State)) {
    var i := FirstFit(s.fl, n);
    if i == |s.fl| then (None, s)
    else var (b, g) := CarveLow(s.fl, i, n); (Some(b.addr + 4), State(g, s.live + [b]))
  }

  function AllocHigh(s: State, n: int): (r: (Option<int>, State)) {
    var i := LastFit(s.fl, n);
    if i < 0 then (None, s)
    else var (b, g) := CarveHigh(s.fl, i, n); (Some(b.addr + 4), State(g, s.live + [b]))
  }

  function Release(s: State, i: nat): State
    requires i < |s.live|
  {
    State(InsertFree(s.fl, s.live[i]), Without(s.live, i))
  }

  // ---- one operation ----

  lemma ClearIff(b: Block, c: Block)
    requires b.size > 0 && c.size > 0
    ensures Clear(b, c) <==> forall a :: !(In(b, a) && In(c, a))
  {
    if !Clear(b, c) {
      var a := if b.addr < c.addr then c.addr else b.addr;
      assert In(b, a) && In(c, a);
    }
  }

  lemma CarvedKeeps(s: State, b: Block, g: seq<Block>, lo: int, hi: int)
    requires Inv(s, lo, hi) && Carved(s.fl, b, g, lo, hi)
    ensures Inv(State(g, s.live + [b]), lo, hi)
  {
    var live := s.live + [b];
    SumSplit(s.live, [b]);
    assert AllFit(live, lo, hi);
    forall i | 0 <= i < |s.live| ensures Clear(s.live[i], b) {
      ClearIff(s.live[i], b);
      forall a ensures !(In(s.live[i], a) && In(b, a)) {
        if In(s.live[i], a) { Exclusive(s, i, a, lo, hi); }
      }
    }
    assert Disjoint(live);
    forall a | lo <= a < hi ensures Holds(g, a) <==> !Holds(live, a) {
      Either(s.live, [b], a);
      Tail([b], a);
    }
  }

  lemma Exclusive(s: State, i: nat, a: int, lo: int, hi: int)
    requires Inv(s, lo, hi) && i < |s.live| && In(s.live[i], a)
    ensures !Holds(s.fl, a)
  {
    assert Fits(s.live[i], lo, hi);
    assert Holds(s.live, a);
  }

  lemma AllocKeeps(s: State, n: int, lo: int, hi: int)
    requires Inv(s, lo, hi) && n >= MIN_ALLOC && n % 8 == 0
    ensures Inv(AllocLow(s, n).1, lo, hi) && Inv(AllocHigh(s, n).1, lo, hi)
  {
    var i, k := FirstFit(s.fl, n), LastFit(s.fl, n);
    hide FirstFit, LastFit, Covered, Carved, CarveLow, CarveHigh, Sum;
    if i < |s.fl| {
      CarveSound(s.fl, i, n, lo, hi);
      CarvedKeeps(s, CarveLow(s.fl, i, n).0, CarveLow(s.fl, i, n).1, lo, hi);
    }
    if k >= 0 {
      CarveSound(s.fl, k, n, lo, hi);
      CarvedKeeps(s, CarveHigh(s.fl, k, n).0, CarveHigh(s.fl, k, n).1, lo, hi);
    }
  }

  /** The caller got the address just behind the header of a new live block of n bytes, or of
      fewer than 16 more where what would be left could not be a block. */
  predicate Granted(s: State, r: State, p: int, n: int) {
    && |r.live| == |s.live| + 1 && r.live[..|s.live|] == s.live
    && r.live[|s.live|].addr + 4 == p && n <= r.live[|s.live|].size < n + 16
  }

  /** alloc and alloc_stack fail together, exactly when no free block is large enough; then
      nothing changes. Otherwise each grants a block of the rounded size, with bounded waste. */
  lemma AllocGrants(s: State, n: int, lo: int, hi: int)
    requires Inv(s, lo, hi) && n >= MIN_ALLOC && n % 8 == 0
    ensures var low, high := AllocLow(s, n), AllocHigh(s, n);
            && (low.0 == None <==> forall j :: 0 <= j < |s.fl| ==> s.fl[j].size < n)
            && (high.0 == None <==> low.0 == None)
            && (low.0 == None ==> low.1 == s && high.1 == s)
            && (low.0.Some? ==> Granted(s, low.1, low.0.value, n) && Granted(s, high.1, high.0.value, n))
  {
    hide Inv;
  }

  /** alloc takes from the lowest block that fits, alloc_stack from the highest: every other
      block that fits lies between the two grants. */
  lemma AllocPlaces(s: State, n: int, lo: int, hi: int, j: nat)
    requires Inv(s, lo, hi) && n >= MIN_ALLOC && n % 8 == 0 && j < |s.fl| && s.fl[j].size >= n
    ensures AllocLow(s, n).0.Some? && AllocLow(s, n).0.value - 4 <= s.fl[j].addr
    ensures AllocHigh(s, n).0.Some? && End(s.fl[j]) <= End(AllocHigh(s, n).1.live[|s.live|])
  {
    var i, k := FirstFit(s.fl, n), LastFit(s.fl, n);
    assert i <= j <= k;
    hide FirstFit, LastFit, Covered, Sum;
    assert i < j ==> End(s.fl[i]) < s.fl[j].addr;
    assert j < k ==> End(s.fl[j]) < s.fl[k].addr;
    assert Fits(s.fl[i], lo, hi) && Fits(s.fl[k], lo, hi);
  }

  lemma ReleaseKeeps(s: State, i: nat, lo: int, hi: int)
    requires Inv(s, lo, hi) && i < |s.live|
    ensures Inv(Release(s, i), lo, hi)
  {
    var b, live := s.live[i], Without(s.live, i);
    assert Fits(b, lo, hi);
    LiveApart(s, i, lo, hi);
    InsertSound(s.fl, b, lo, hi);
    SumAt(s.live, i);
    SumSplit(s.live[..i], s.live[i + 1..]);
    FewerLive(s.live, i, lo, hi);
    hide Canon, AllFit, InsertFree, Holds;
    forall a | lo <= a < hi ensures Holds(InsertFree(s.fl, b), a) <==> !Holds(live, a) {
      LiveBytes(s.live, i, a);
    }
  }

  lemma LiveApart(s: State, i: nat, lo: int, hi: int)
    requires Inv(s, lo, hi) && i < |s.live|
    ensures Apart(s.fl, s.live[i])
  {
    var b := s.live[i];
    forall j | 0 <= j < |s.fl| ensures Clear(s.fl[j], b) {
      assert Fits(s.fl[j], lo, hi) && Fits(b, lo, hi);
      ClearIff(s.fl[j], b);
      forall a ensures !(In(s.fl[j], a) && In(b, a)) {
        if In(b, a) { Exclusive(s, i, a, lo, hi); }
      }
    }
  }

  lemma FewerLive(live: seq<Block>, i: nat, lo: int, hi: int)
    requires AllFit(live, lo, hi) && Disjoint(live) && i < |live|
    ensures AllFit(Without(live, i), lo, hi) && Disjoint(Without(live, i))
  {
    var t := Without(live, i);
    assert forall j :: 0 <= j < |t| ==> t[j] == live[if j < i then j else j + 1];
  }

  lemma LiveBytes(live: seq<Block>, i: nat, a: int)
    requires i < |live| && Disjoint(live)
    ensures Holds(Without(live, i), a) <==> Holds(live, a) && !In(live[i], a)
  {
    Around(live, i, a);
    Either(live[..i], live[i + 1..], a);
    if In(live[i], a) {
      assert !Holds(live[..i], a) && !Holds(live[i + 1..], a);
    }
  }

  // ---- the free list is determined by the live blocks ----

  /** Whatever led to it, the free list is the one canonical list of the bytes not live. */
  lemma Determined(s: State, t: State, lo: int, hi: int)
    requires Inv(s, lo, hi) && Inv(t, lo, hi)
    requires forall a :: Holds(s.live, a) <==> Holds(t.live, a)
    ensures s.fl == t.fl
  {
    forall a ensures Holds(s.fl, a) <==> Holds(t.fl, a) {
      if a < lo || hi <= a { Outside(s.fl, lo, hi, a); Outside(t.fl, lo, hi, a); }
    }
    Unique(s.fl, t.fl, lo, hi);
  }

  lemma Outside(s: seq<Block>, lo: int, hi: int, a: int)
    requires AllFit(s, lo, hi) && !(lo <= a < hi)
    ensures !Holds(s, a)
  {
  }

  lemma SameBlocks(s: seq<Block>, t: seq<Block>, a: int)
    requires multiset(s) == multiset(t) && Holds(s, a)
    ensures Holds(t, a)
  {
    var i :| 0 <= i < |s| && In(s[i], a);
    assert s[i] in multiset(s) && s[i] in multiset(t);
    var j :| 0 <= j < |t| && t[j] == s[i];
    assert In(t[j], a);
  }

  datatype Op = Alloc(size: int) | AllocStack(size: int) | Give(i: nat)

  predicate Legal(s: State, op: Op) {
    match op
    case Alloc(size) => 0 <= size < TWO32
    case AllocStack(size) => 0 <= size < TWO32
    case Give(i) => i < |s.live|
  }

  function Step(s: State, op: Op): State
    requires Legal(s, op)
  {
    match op
    case Alloc(size) => AllocLow(s, Rounded(size)).1
    case AllocStack(size) => AllocHigh(s, Rounded(size)).1
    case Give(i) => Release(s, i)
  }

  predicate IsRun(s: State, ops: seq<Op>)
    decreases |ops|
  {
    ops == [] || (Legal(s, ops[0]) && IsRun(Step(s, ops[0]), ops[1..]))
  }

  function Run(s: State, ops: seq<Op>): State
    requires IsRun(s, ops)
    decreases |ops|
  {
    if ops == [] then s else Run(Step(s, ops[0]), ops[1..])
  }

  /** initmem: one free block, the whole heap. */
  function Fresh(lo: int, hi: int): State {
    State([Block(lo, hi - lo)], [])
  }

  predicate HeapBounds(lo: int, hi: int) {
    0 < lo && hi < TWO32 && hi - lo >= MIN_ALLOC && (hi - lo) % 8 == 0
  }

  lemma FreshInv(lo: int, hi: int)
    requires HeapBounds(lo, hi)
    ensures Inv(Fresh(lo, hi), lo, hi)
  {
    assert Fits(Block(lo, hi - lo), lo, hi);
    forall a | lo <= a < hi ensures Holds(Fresh(lo, hi).fl, a) && !Holds([], a) { Tail([Block(lo, hi - lo)], a); }
  }

  lemma {:induction false} RunKeeps(s: State, ops: seq<Op>, lo: int, hi: int)
    requires Inv(s, lo, hi) && IsRun(s, ops)
    ensures Inv(Run(s, ops), lo, hi)
    decreases |ops|
  {
    hide Inv, AllocLow, AllocHigh, Release, Rounded;
    if ops != [] {
      match ops[0] {
        case Alloc(size) => AllocKeeps(s, Rounded(size), lo, hi);
        case AllocStack(size) => AllocKeeps(s, Rounded(size), lo, hi);
        case Give(i) => ReleaseKeeps(s, i, lo, hi);
      }
      RunKeeps(Step(s, ops[0]), ops[1..], lo, hi);
    }
  }

  /** After any run from boot the invariant holds, and no byte is lost: what is free and what
      is live add up to the heap. */
  lemma Reachable(lo: int, hi: int, ops: seq<Op>)
    requires HeapBounds(lo, hi) && IsRun(Fresh(lo, hi), ops)
    ensures var r := Run(Fresh(lo, hi), ops);
            Canon(r.fl, lo, hi) && Inv(r, lo, hi) && Sum(r.fl) + Sum(r.live) == hi - lo
  {
    FreshInv(lo, hi);
    RunKeeps(Fresh(lo, hi), ops, lo, hi);
  }

  /** Two histories with the same blocks still out have the same free list. */
  lemma HistoryFree(lo: int, hi: int, ops: seq<Op>, others: seq<Op>)
    requires HeapBounds(lo, hi) && IsRun(Fresh(lo, hi), ops) && IsRun(Fresh(lo, hi), others)
    requires multiset(Run(Fresh(lo, hi), ops).live) == multiset(Run(Fresh(lo, hi), others).live)
    ensures Run(Fresh(lo, hi), ops).fl == Run(Fresh(lo, hi), others).fl
  {
    hide Inv, Run, Canon;
    Reachable(lo, hi, ops);
    Reachable(lo, hi, others);
    var s, t := Run(Fresh(lo, hi), ops), Run(Fresh(lo, hi), others);
    forall a ensures Holds(s.live, a) <==> Holds(t.live, a) {
      if Holds(s.live, a) { SameBlocks(s.live, t.live, a); }
      if Holds(t.live, a) { SameBlocks(t.live, s.live, a); }
    }
    Determined(s, t, lo, hi);
  }

  /** Once everything has been given back, in whatever order, the heap is one block again. */
  lemma AllFreed(lo: int, hi: int, ops: seq<Op>)
    requires HeapBounds(lo, hi) && IsRun(Fresh(lo, hi), ops) && Run(Fresh(lo, hi), ops).live == []
    ensures Run(Fresh(lo, hi), ops) == Fresh(lo, hi)
  {
    hide Inv, Run, Canon;
    Reachable(lo, hi, ops);
    FreshInv(lo, hi);
    Determined(Run(Fresh(lo, hi), ops), Fresh(lo, hi), lo, hi);
  }

  /** Giving back what alloc or alloc_stack just handed out restores the state exactly. */
  lemma AllocThenFree(s: State, n: int, lo: int, hi: int)
    requires Inv(s, lo, hi) && n >= MIN_ALLOC && n % 8 == 0
    ensures AllocLow(s, n).0.Some? ==> Release(AllocLow(s, n).1, |s.live|) == s
    ensures AllocHigh(s, n).0.Some? ==> Release(AllocHigh(s, n).1, |s.live|) == s
  {
    hide Inv, AllocLow, AllocHigh, InsertFree;
    AllocGrants(s, n, lo, hi);
    AllocKeeps(s, n, lo, hi);
    if AllocLow(s, n).0.Some? { Undone(s, AllocLow(s, n).1, AllocLow(s, n).0.value, n, lo, hi); }
    if AllocHigh(s, n).0.Some? { Undone(s, AllocHigh(s, n).1, AllocHigh(s, n).0.value, n, lo, hi); }
  }

  lemma Undone(s: State, t: State, p: int, n: int, lo: int, hi: int)
    requires Inv(s, lo, hi) && Inv(t, lo, hi) && Granted(s, t, p, n)
    ensures Release(t, |s.live|) == s
  {
    hide Inv, InsertFree;
    ReleaseKeeps(t, |s.live|, lo, hi);
    assert Without(t.live, |s.live|) == s.live;
    Determined(Release(t, |s.live|), s, lo, hi);
  }
}
