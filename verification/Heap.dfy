/** alloc.c on the words of the heap itself: headers and links are written in place, and the
    list they spell out is the one HeapSpec computes. Entry a - lo of the memory is the word
    stored at byte address a. */
module Heap {
  import opened Config
  import opened HeapSpec
  import opened HeapRuns

  /** Address of the i-th block of s, NULL past the end. */
  function At(s: seq<Block>, i: nat): int {
    if i < |s| then s[i].addr else 0
  }

  /** The header of s[i]: its size, then the address of the next. */
  predicate Node(m: seq<int>, lo: int, s: seq<Block>, i: nat)
    requires i < |s|
  {
    var w := s[i].addr - lo;
    0 <= w && w + 4 < |m| && m[w] == s[i].size && m[w + 4] == At(s, i + 1)
  }

  /** Starting at `head` the links in m spell out s. */
  predicate Listed(m: seq<int>, lo: int, s: seq<Block>, head: int) {
    head == At(s, 0) && forall i :: 0 <= i < |s| ==> Node(m, lo, s, i)
  }

  predicate Headed(m: seq<int>, lo: int, live: seq<Block>) {
    forall i :: 0 <= i < |live| ==> 0 <= live[i].addr - lo < |m| && m[live[i].addr - lo] == live[i].size
  }

  /** Only words of free blocks have changed. */
  ghost predicate OnlyFree(m: seq<int>, m': seq<int>, lo: int, fl: seq<Block>) {
    |m| == |m'| && forall w :: 0 <= w < |m| && !Holds(fl, lo + w) ==> m'[w] == m[w]
  }

  function Linked(m: seq<int>, lo: int, prev: int, v: int): seq<int>
    requires prev != 0 ==> 0 <= prev - lo && prev - lo + 4 < |m|
  {
    if prev != 0 then m[prev - lo + 4 := v] else m
  }

  /** The block before position i, NULL at the front. */
  function Prev(s: seq<Block>, i: nat): int {
    if 0 < i <= |s| then s[i - 1].addr else 0
  }

  /** Headers of different blocks do not overlap. */
  lemma Separate(s: seq<Block>, lo: int, hi: int, i: nat, j: nat)
    requires Canon(s, lo, hi) && i < |s| && j < |s| && i != j
    ensures s[i].addr + 16 <= s[j].addr || s[j].addr + 16 <= s[i].addr
  {
    assert Fits(s[i], lo, hi) && Fits(s[j], lo, hi);
    if i < j { assert End(s[i]) < s[j].addr; } else { assert End(s[j]) < s[i].addr; }
  }

  lemma Inside(s: seq<Block>, lo: int, hi: int, i: nat)
    requires Canon(s, lo, hi) && i < |s|
    ensures lo <= s[i].addr && s[i].addr + 16 <= hi
  {
    assert Fits(s[i], lo, hi);
  }

  lemma NodeAt(m: seq<int>, lo: int, s: seq<Block>, head: int, i: nat)
    requires Listed(m, lo, s, head) && i < |s|
    ensures Node(m, lo, s, i)
  {
  }

  /** The link before position i redirected past the i-th block: that block is off the list. */
  lemma Unlink(m: seq<int>, lo: int, hi: int, s: seq<Block>, i: nat, head: int)
    requires Canon(s, lo, hi) && 0 < lo && |m| == hi - lo && Listed(m, lo, s, head) && i < |s|
    ensures var p := Prev(s, i);
            && (p != 0 ==> 0 <= p - lo && p - lo + 4 < |m|)
            && Listed(Linked(m, lo, p, At(s, i + 1)), lo, Without(s, i), if i > 0 then head else At(s, 1))
  {
    hide Canon, Node;
    if i > 0 { Inside(s, lo, hi, i - 1); }
    var t := Without(s, i);
    var m' := Linked(m, lo, Prev(s, i), At(s, i + 1));
    forall j | 0 <= j < |t| ensures Node(m', lo, t, j) {
      var k := if j < i then j else j + 1;
      NodeAt(m, lo, s, head, k);
      hide Listed;
      Inside(s, lo, hi, k);
      if i > 0 && k != i - 1 { Separate(s, lo, hi, i - 1, k); }
      UnlinkNode(m, m', lo, s, i, j);
    }
  }

  lemma UnlinkNode(m: seq<int>, m': seq<int>, lo: int, s: seq<Block>, i: nat, j: nat)
    requires i < |s| && j < |s| - 1 && Node(m, lo, s, if j < i then j else j + 1) && |m| == |m'|
    requires i > 0 ==> 0 <= s[i - 1].addr - lo && s[i - 1].addr - lo + 4 < |m|
    requires m' == if i > 0 then m[s[i - 1].addr - lo + 4 := At(s, i + 1)] else m
    requires var k := if j < i then j else j + 1;
             i > 0 && k != i - 1 ==> s[i - 1].addr + 16 <= s[k].addr || s[k].addr + 16 <= s[i - 1].addr
    ensures Node(m', lo, Without(s, i), j)
  {
  }

  predicate SameNode(m: seq<int>, m': seq<int>, lo: int, b: Block) {
    var w := b.addr - lo;
    0 <= w && w + 4 < |m| == |m'| && m'[w] == m[w] && m'[w + 4] == m[w + 4]
  }

  /** c put between the first i blocks of s and those from e on, its header written and the
      link before it pointed at it. */
  predicate Rehung(m: seq<int>, m': seq<int>, lo: int, s: seq<Block>, i: nat, c: Block, e: nat) {
    && i <= e <= |s| && |m| == |m'|
    && 0 <= c.addr - lo && c.addr - lo + 4 < |m|
    && m'[c.addr - lo] == c.size && m'[c.addr - lo + 4] == At(s, e)
    && (forall j :: 0 <= j < |s| && (j < i - 1 || e <= j) ==> SameNode(m, m', lo, s[j]))
    && (i > 0 ==> var w := s[i - 1].addr - lo; 0 <= w && w + 4 < |m| && m'[w] == m[w] && m'[w + 4] == c.addr)
  }

  lemma Rehang(m: seq<int>, m': seq<int>, lo: int, s: seq<Block>, i: nat, c: Block, e: nat, head: int)
    requires Listed(m, lo, s, head) && Rehung(m, m', lo, s, i, c, e)
    ensures Listed(m', lo, s[..i] + [c] + s[e..], if i > 0 then head else c.addr)
  {
    hide Node;
    var r := s[..i] + [c] + s[e..];
    forall j | 0 <= j < |r| ensures Node(m', lo, r, j) {
      if j != i { NodeAt(m, lo, s, head, if j < i then j else j - i - 1 + e); }
      hide Listed;
      RehungNode(m, m', lo, s, i, c, e, j);
    }
  }

  lemma RehungNode(m: seq<int>, m': seq<int>, lo: int, s: seq<Block>, i: nat, c: Block, e: nat, j: nat)
    requires Rehung(m, m', lo, s, i, c, e) && j < |s| - e + i + 1
    requires j != i ==> Node(m, lo, s, if j < i then j else j - i - 1 + e)
    ensures Node(m', lo, s[..i] + [c] + s[e..], j)
  {
    var r := s[..i] + [c] + s[e..];
    if j < i - 1 {
      assert SameNode(m, m', lo, s[j]);
    } else if j > i {
      assert r[j] == s[j - i - 1 + e] && SameNode(m, m', lo, s[j - i - 1 + e]);
    }
  }

  lemma OnlyFreeWrite(m: seq<int>, m': seq<int>, lo: int, fl: seq<Block>, w: int, v: int)
    requires OnlyFree(m, m', lo, fl) && 0 <= w < |m| && Holds(fl, lo + w)
    ensures OnlyFree(m, m'[w := v], lo, fl)
  {
    hide Holds;
  }

  /** The header words of a free block may be written. */
  lemma HeaderFree(fl: seq<Block>, lo: int, hi: int, i: nat)
    requires Canon(fl, lo, hi) && i < |fl|
    ensures Holds(fl, fl[i].addr) && Holds(fl, fl[i].addr + 4)
  {
    assert Fits(fl[i], lo, hi);
    assert In(fl[i], fl[i].addr) && In(fl[i], fl[i].addr + 4);
  }

  lemma PrevFree(fl: seq<Block>, lo: int, hi: int, i: nat)
    requires Canon(fl, lo, hi) && i <= |fl| && 0 < lo
    ensures Prev(fl, i) != 0 <==> i > 0
    ensures Prev(fl, i) != 0 ==> lo <= Prev(fl, i) && Prev(fl, i) + 16 <= hi && Holds(fl, Prev(fl, i) + 4)
  {
    if i > 0 { HeaderFree(fl, lo, hi, i - 1); Inside(fl, lo, hi, i - 1); }
  }

  /** Live headers survive whatever is written to free blocks. */
  lemma HeadsKept(m: seq<int>, m': seq<int>, s: State, lo: int, hi: int)
    requires Inv(s, lo, hi) && Headed(m, lo, s.live) && OnlyFree(m, m', lo, s.fl) && |m| == hi - lo
    ensures Headed(m', lo, s.live)
  {
    forall i | 0 <= i < |s.live| ensures m'[s.live[i].addr - lo] == m[s.live[i].addr - lo] {
      assert Fits(s.live[i], lo, hi);
      Exclusive(s, i, s.live[i].addr, lo, hi);
    }
  }

  /** What a client keeps in a live block survives every alloc, alloc_stack and free of
      other blocks. */
  lemma PayloadKept(m: seq<int>, m': seq<int>, s: State, lo: int, hi: int, j: nat, a: int)
    requires Inv(s, lo, hi) && |m| == hi - lo && j < |s.live| && In(s.live[j], a)
    requires
      || OnlyFree(m, m', lo, s.fl)
      || exists i :: 0 <= i < |s.live| && i != j && OnlyFree(m, m', lo, s.fl + [s.live[i]])
    ensures lo <= a < hi && |m'| == |m| && m'[a - lo] == m[a - lo]
  {
    assert Fits(s.live[j], lo, hi);
    Exclusive(s, j, a, lo, hi);
    if !OnlyFree(m, m', lo, s.fl) {
      var i :| 0 <= i < |s.live| && i != j && OnlyFree(m, m', lo, s.fl + [s.live[i]]);
      assert if i < j then Clear(s.live[i], s.live[j]) else Clear(s.live[j], s.live[i]);
      Either(s.fl, [s.live[i]], a);
      Tail([s.live[i]], a);
    }
  }

  /** The memory after a block at position i has been cut in two: the list's link goes to
      `rest`, whose header is new, and the size word of the part handed out is set. */
  function Split(m: seq<int>, lo: int, s: seq<Block>, i: nat, b: Block, rest: Block): seq<int>
    requires i < |s| && (Prev(s, i) != 0 ==> 0 <= Prev(s, i) - lo && Prev(s, i) - lo + 4 < |m|)
    requires 0 <= b.addr - lo < |m| && 0 <= rest.addr - lo && rest.addr - lo + 4 < |m|
  {
    Linked(m[rest.addr - lo := rest.size][rest.addr - lo + 4 := At(s, i + 1)][b.addr - lo := b.size], lo, Prev(s, i),
        rest.addr)
  }

  lemma SplitRehung(m: seq<int>, lo: int, hi: int, s: seq<Block>, i: nat, b: Block, rest: Block, head: int)
    requires Canon(s, lo, hi) && 0 < lo && |m| == hi - lo && Listed(m, lo, s, head) && i < |s|
    requires Halves(s[i], b, rest) && Fits(b, lo, hi) && Fits(rest, lo, hi)
    ensures Prev(s, i) != 0 ==> 0 <= Prev(s, i) - lo && Prev(s, i) - lo + 4 < |m|
    ensures Rehung(m, Split(m, lo, s, i, b, rest), lo, s, i, rest, i + 1)
    ensures Split(m, lo, s, i, b, rest)[b.addr - lo] == b.size
  {
    PrevFree(s, lo, hi, i);
    var m' := Split(m, lo, s, i, b, rest);
    if i > 0 { Gap(s, lo, hi, i - 1, i); Inside(s, lo, hi, i - 1); }
    forall j | 0 <= j < |s| && (j < i - 1 || i + 1 <= j) ensures SameNode(m, m', lo, s[j]) {
      SplitSame(m, lo, hi, s, i, b, rest, j);
    }
    hide Canon, Listed;
  }

  lemma SplitSame(m: seq<int>, lo: int, hi: int, s: seq<Block>, i: nat, b: Block, rest: Block, j: nat)
    requires Canon(s, lo, hi) && 0 < lo && |m| == hi - lo && i < |s| && j < |s| && (j < i - 1 || i + 1 <= j)
    requires Halves(s[i], b, rest) && Fits(b, lo, hi) && Fits(rest, lo, hi)
    ensures Prev(s, i) != 0 ==> 0 <= Prev(s, i) - lo && Prev(s, i) - lo + 4 < |m|
    ensures SameNode(m, Split(m, lo, s, i, b, rest), lo, s[j])
  {
    PrevFree(s, lo, hi, i);
    Gap(s, lo, hi, i, j);
    Inside(s, lo, hi, j);
    if i > 0 { Gap(s, lo, hi, i - 1, j); }
    hide Canon;
  }

  lemma Gap(s: seq<Block>, lo: int, hi: int, i: nat, j: nat)
    requires Canon(s, lo, hi) && i < |s| && j < |s| && i != j
    ensures (End(s[i]) < s[j].addr && i < j) || (End(s[j]) < s[i].addr && j < i)
    ensures s[i].addr + 16 <= End(s[i]) && s[j].addr + 16 <= End(s[j])
  {
    assert Fits(s[i], lo, hi) && Fits(s[j], lo, hi);
  }

  /** The header words of both halves lie in the block cut. */
  lemma HalvesHeld(s: seq<Block>, lo: int, hi: int, i: nat, b: Block, rest: Block)
    requires i < |s| && 0 < lo && Halves(s[i], b, rest) && Fits(b, lo, hi) && Fits(rest, lo, hi)
    ensures Holds(s, rest.addr) && Holds(s, rest.addr + 4) && Holds(s, b.addr)
    ensures lo <= rest.addr && rest.addr + 16 <= hi && lo <= b.addr && b.addr + 16 <= hi
  {
    assert In(s[i], rest.addr) && In(s[i], rest.addr + 4) && In(s[i], b.addr);
  }

  lemma SplitOnlyFree(m: seq<int>, lo: int, hi: int, s: seq<Block>, i: nat, b: Block, rest: Block)
    requires Canon(s, lo, hi) && 0 < lo && |m| == hi - lo && i < |s|
    requires Halves(s[i], b, rest) && Fits(b, lo, hi) && Fits(rest, lo, hi)
    ensures Prev(s, i) != 0 ==> 0 <= Prev(s, i) - lo && Prev(s, i) - lo + 4 < |m|
    ensures OnlyFree(m, Split(m, lo, s, i, b, rest), lo, s)
  {
    PrevFree(s, lo, hi, i);
    HalvesHeld(s, lo, hi, i, b, rest);
    hide Canon, Holds, Halves, Fits, At;
  }

  lemma OnlyFreeSelf(m: seq<int>, lo: int, fl: seq<Block>)
    ensures OnlyFree(m, m, lo, fl)
  {
  }

  /** What the search loops know about the block they stopped at. */
  lemma Found(m: seq<int>, s: State, lo: int, hi: int, i: nat, head: int)
    requires Inv(s, lo, hi) && 0 < lo && |m| == hi - lo && Listed(m, lo, s.fl, head) && i < |s.fl|
    ensures Fits(s.fl[i], lo, hi) && lo <= s.fl[i].addr && s.fl[i].addr + 16 <= End(s.fl[i]) <= hi
    ensures m[s.fl[i].addr - lo] == s.fl[i].size && m[s.fl[i].addr - lo + 4] == At(s.fl, i + 1)
    ensures Prev(s.fl, i) != 0 <==> i > 0
    ensures Prev(s.fl, i) != 0 ==> lo <= Prev(s.fl, i) && Prev(s.fl, i) + 16 <= s.fl[i].addr
  {
    assert Fits(s.fl[i], lo, hi) && Node(m, lo, s.fl, i);
    hide Holds;
    PrevFree(s.fl, lo, hi, i);
    if i > 0 { Gap(s.fl, lo, hi, i - 1, i); }
  }

  /** One step of a walk along the list. */
  lemma Walk(m: seq<int>, s: State, lo: int, hi: int, i: nat, head: int)
    requires Inv(s, lo, hi) && 0 < lo && |m| == hi - lo && Listed(m, lo, s.fl, head) && i <= |s.fl|
    ensures head == At(s.fl, 0) && (At(s.fl, i) != 0 <==> i < |s.fl|)
    ensures i < |s.fl| ==> lo <= s.fl[i].addr && s.fl[i].addr + 16 <= hi
    ensures i < |s.fl| ==> m[s.fl[i].addr - lo] == s.fl[i].size && m[s.fl[i].addr - lo + 4] == At(s.fl, i + 1)
    ensures i + 1 < |s.fl| ==> At(s.fl, i + 1) != 0
  {
    if i < |s.fl| {
      Found(m, s, lo, hi, i, head);
      if i + 1 < |s.fl| { Found(m, s, lo, hi, i + 1, head); }
    }
  }

  /** The tables agree again after an allocation that left `g` free and granted `b`. */
  ghost predicate Taken(m: seq<int>, m': seq<int>, s: State, g: seq<Block>, b: Block, lo: int, hi: int, head': int) {
    && Inv(State(g, s.live + [b]), lo, hi) && OnlyFree(m, m', lo, s.fl)
    && Listed(m', lo, g, head') && Headed(m', lo, s.live + [b])
  }

  lemma HeadedMore(m: seq<int>, lo: int, live: seq<Block>, b: Block)
    requires Headed(m, lo, live) && 0 <= b.addr - lo < |m| && m[b.addr - lo] == b.size
    ensures Headed(m, lo, live + [b])
  {
  }

  /** What is left of the list and what it is worth once a whole block is off it. */
  lemma WholeList(m: seq<int>, m': seq<int>, s: State, lo: int, hi: int, i: nat, head: int, head': int)
    requires Inv(s, lo, hi) && 0 < lo && |m| == hi - lo && Listed(m, lo, s.fl, head) && i < |s.fl|
    requires Prev(s.fl, i) != 0 ==> lo <= Prev(s.fl, i) && Prev(s.fl, i) - lo + 4 < |m|
    requires m' == Linked(m, lo, Prev(s.fl, i), At(s.fl, i + 1))
    requires head' == if i > 0 then head else At(s.fl, 1)
    ensures Inv(State(s.fl[..i] + s.fl[i + 1..], s.live + [s.fl[i]]), lo, hi)
    ensures Listed(m', lo, s.fl[..i] + s.fl[i + 1..], head')
  {
    hide Covered, Carved, Listed;
    TakeWhole(s.fl, i, lo, hi);
    Unlink(m, lo, hi, s.fl, i, head);
    hide Canon;
    CarvedKeeps(s, s.fl[i], s.fl[..i] + s.fl[i + 1..], lo, hi);
  }

  lemma Whole(m: seq<int>, m': seq<int>, s: State, lo: int, hi: int, i: nat, head: int, head': int)
    requires Inv(s, lo, hi) && 0 < lo && |m| == hi - lo && Listed(m, lo, s.fl, head) && Headed(m, lo, s.live)
        && i < |s.fl|
    requires Prev(s.fl, i) != 0 ==> lo <= Prev(s.fl, i) && Prev(s.fl, i) - lo + 4 < |m|
    requires m' == Linked(m, lo, Prev(s.fl, i), At(s.fl, i + 1))
    requires head' == if i > 0 then head else At(s.fl, 1)
    ensures Taken(m, m', s, s.fl[..i] + s.fl[i + 1..], s.fl[i], lo, hi, head')
  {
    assert Canon(s.fl, lo, hi);
    hide Inv, Canon, Listed, Headed, Holds, OnlyFree;
    Found(m, s, lo, hi, i, head);
    WholeList(m, m', s, lo, hi, i, head, head');
    PrevFree(s.fl, lo, hi, i);
    OnlyFreeSelf(m, lo, s.fl);
    if i > 0 { OnlyFreeWrite(m, m, lo, s.fl, Prev(s.fl, i) - lo + 4, At(s.fl, i + 1)); }
    HeadsKept(m, m', s, lo, hi);
    HeadedMore(m', lo, s.live, s.fl[i]);
  }

  lemma PartList(m: seq<int>, m': seq<int>, s: State, lo: int, hi: int, i: nat, b: Block, rest: Block, head: int,
      head': int)
    requires Inv(s, lo, hi) && 0 < lo && |m| == hi - lo && Listed(m, lo, s.fl, head) && i < |s.fl|
    requires Halves(s.fl[i], b, rest) && Fits(b, lo, hi) && Fits(rest, lo, hi)
    requires Prev(s.fl, i) != 0 ==> lo <= Prev(s.fl, i) && Prev(s.fl, i) - lo + 4 < |m|
    requires m' == Split(m, lo, s.fl, i, b, rest)
    requires head' == if i > 0 then head else rest.addr
    ensures Inv(State(s.fl[i := rest], s.live + [b]), lo, hi) && Listed(m', lo, s.fl[i := rest], head')
  {
    hide Covered, Carved, Split, Rehung, Listed;
    TakePart(s.fl, i, b, rest, lo, hi);
    SplitRehung(m, lo, hi, s.fl, i, b, rest, head);
    hide Halves, Canon;
    CarvedKeeps(s, b, s.fl[i := rest], lo, hi);
    Rehang(m, m', lo, s.fl, i, rest, i + 1, head);
    assert s.fl[..i] + [rest] + s.fl[i + 1..] == s.fl[i := rest];
  }

  lemma SplitHeads(m: seq<int>, lo: int, hi: int, s: seq<Block>, i: nat, b: Block, rest: Block)
    requires Canon(s, lo, hi) && 0 < lo && |m| == hi - lo && i < |s|
    requires Halves(s[i], b, rest) && Fits(b, lo, hi) && Fits(rest, lo, hi)
    requires Prev(s, i) != 0 ==> lo <= Prev(s, i) && Prev(s, i) - lo + 4 < |m|
    ensures 0 <= b.addr - lo < |m| && Split(m, lo, s, i, b, rest)[b.addr - lo] == b.size
  {
    if i > 0 { Gap(s, lo, hi, i - 1, i); }
    hide Canon;
  }

  lemma Part(m: seq<int>, m': seq<int>, s: State, lo: int, hi: int, i: nat, b: Block, rest: Block, head: int,
      head': int)
    requires Inv(s, lo, hi) && 0 < lo && |m| == hi - lo && Listed(m, lo, s.fl, head) && Headed(m, lo, s.live)
        && i < |s.fl|
    requires Halves(s.fl[i], b, rest) && Fits(b, lo, hi) && Fits(rest, lo, hi)
    requires Prev(s.fl, i) != 0 ==> lo <= Prev(s.fl, i) && Prev(s.fl, i) - lo + 4 < |m|
    requires m' == Split(m, lo, s.fl, i, b, rest)
    requires head' == if i > 0 then head else rest.addr
    ensures Taken(m, m', s, s.fl[i := rest], b, lo, hi, head')
  {
    assert Canon(s.fl, lo, hi);
    PartList(m, m', s, lo, hi, i, b, rest, head, head');
    hide Inv, Canon, Listed, Headed, OnlyFree, Halves;
    SplitOnlyFree(m, lo, hi, s.fl, i, b, rest);
    SplitHeads(m, lo, hi, s.fl, i, b, rest);
    hide Split, Fits;
    HeadsKept(m, m', s, lo, hi);
    HeadedMore(m', lo, s.live, b);
  }

  /** The order in which the code writes those words does not matter. */
  lemma SplitSteps(m: seq<int>, m': seq<int>, lo: int, s: seq<Block>, i: nat, b: Block, rest: Block)
    requires i < |s| && 0 <= b.addr - lo < |m| && 0 <= rest.addr - lo && rest.addr - lo + 4 < |m|
    requires Prev(s, i) != 0 ==> 0 <= Prev(s, i) - lo && Prev(s, i) + 16 <= b.addr && Prev(s, i) + 16 <= rest.addr
    requires b.addr + 8 <= rest.addr || rest.addr + 8 <= b.addr
    requires var m1 := Linked(m, lo, Prev(s, i), At(s, i + 1));
             m' == Linked(m1[rest.addr - lo := rest.size][b.addr - lo := b.size][rest.addr - lo + 4 := At(s, i + 1)],
                 lo, Prev(s, i), rest.addr)
    ensures m' == Split(m, lo, s, i, b, rest)
  {
  }

  lemma StoreKeeps(m: seq<int>, s: State, lo: int, hi: int, j: nat, a: int, v: int, head: int)
    requires Inv(s, lo, hi) && |m| == hi - lo && Listed(m, lo, s.fl, head) && Headed(m, lo, s.live)
    requires j < |s.live| && s.live[j].addr + 4 <= a < End(s.live[j])
    ensures lo <= a < hi && Listed(m[a - lo := v], lo, s.fl, head) && Headed(m[a - lo := v], lo, s.live)
  {
    assert Fits(s.live[j], lo, hi) && In(s.live[j], a);
    Exclusive(s, j, a, lo, hi);
    forall i | 0 <= i < |s.fl| ensures s.fl[i].addr != a && s.fl[i].addr + 4 != a { HeaderFree(s.fl, lo, hi, i); }
    forall i | 0 <= i < |s.live| ensures s.live[i].addr != a { LiveStart(s, lo, hi, i, j, a); }
    hide Inv;
    var m' := m[a - lo := v];
    forall i | 0 <= i < |s.fl| ensures Node(m', lo, s.fl, i) { assert Node(m, lo, s.fl, i); }
  }

  lemma LiveStart(s: State, lo: int, hi: int, i: nat, j: nat, a: int)
    requires Inv(s, lo, hi) && i < |s.live| && j < |s.live| && s.live[j].addr < a < End(s.live[j])
    ensures s.live[i].addr != a
  {
    assert Fits(s.live[i], lo, hi);
    if i < j { assert Clear(s.live[i], s.live[j]); } else if j < i { assert Clear(s.live[j], s.live[i]); }
  }

  // ---- giving a block back ----

  predicate JoinsUp(fl: seq<Block>, k: nat, b: Block) {
    k < |fl| && End(b) == fl[k].addr
  }

  predicate JoinsDown(fl: seq<Block>, k: nat, b: Block) {
    0 < k <= |fl| && End(fl[k - 1]) == b.addr
  }

  /** b and the free block above it, if they touch. */
  function Upper(fl: seq<Block>, k: nat, b: Block): Block {
    if JoinsUp(fl, k, b) then Block(b.addr, b.size + fl[k].size) else b
  }

  /** The one block that b ends up in. */
  function Middle(fl: seq<Block>, k: nat, b: Block): Block {
    var u := Upper(fl, k, b);
    if JoinsDown(fl, k, b) then Block(fl[k - 1].addr, fl[k - 1].size + u.size) else u
  }

  function From(fl: seq<Block>, k: nat, b: Block): (i: nat)
    ensures i <= k
  {
    if JoinsDown(fl, k, b) then k - 1 else k
  }

  function To(fl: seq<Block>, k: nat, b: Block): nat {
    if JoinsUp(fl, k, b) then k + 1 else k
  }

  lemma InsertShape(fl: seq<Block>, k: nat, b: Block)
    requires k == Below(fl, b.addr)
    ensures To(fl, k, b) <= |fl|
    ensures InsertFree(fl, b) == fl[..From(fl, k, b)] + [Middle(fl, k, b)] + fl[To(fl, k, b)..]
  {
    var u, rest := Upper(fl, k, b), fl[To(fl, k, b)..];
    UpperShape(fl, k, b);
    hide Below, JoinUp, To, Upper, JoinDown, InsertFree;
    JoinedShape(fl, k, b, u, rest);
    assert InsertFree(fl, b) == JoinDown(fl[..k], JoinUp(b, fl[k..])) by { InsertIs(fl, b); }
  }

  lemma InsertIs(fl: seq<Block>, b: Block)
    ensures InsertFree(fl, b) == JoinDown(fl[..Below(fl, b.addr)], JoinUp(b, fl[Below(fl, b.addr)..]))
  {
  }

  lemma JoinedShape(fl: seq<Block>, k: nat, b: Block, u: Block, rest: seq<Block>)
    requires k <= |fl| && u == Upper(fl, k, b) && u.addr == b.addr
    ensures JoinDown(fl[..k], [u] + rest) == fl[..From(fl, k, b)] + [Middle(fl, k, b)] + rest
  {
    hide Upper;
    DownShape(fl[..k], u, rest);
    hide JoinDown;
    if k > 0 { assert fl[..k][..k - 1] == fl[..k - 1] && fl[..k][k - 1] == fl[k - 1]; }
  }

  lemma DownShape(lower: seq<Block>, u: Block, rest: seq<Block>)
    ensures var n := |lower|;
            JoinDown(lower, [u] + rest) ==
              if n > 0 && End(lower[n - 1]) == u.addr
              then lower[..n - 1] + [Block(lower[n - 1].addr, lower[n - 1].size + u.size)] + rest
              else lower + [u] + rest
  {
    assert ([u] + rest)[1..] == rest;
    assert lower + ([u] + rest) == lower + [u] + rest;
  }

  lemma UpperShape(fl: seq<Block>, k: nat, b: Block)
    requires k <= |fl|
    ensures To(fl, k, b) <= |fl| && JoinUp(b, fl[k..]) == [Upper(fl, k, b)] + fl[To(fl, k, b)..]
    ensures Upper(fl, k, b).addr == b.addr
  {
    if k < |fl| { assert fl[k..][1..] == fl[k + 1..]; }
  }

  /** The memory after insert_free's writes. */
  function Merged(m: seq<int>, lo: int, fl: seq<Block>, k: nat, b: Block): seq<int>
    requires k <= |fl| && 0 <= b.addr - lo && b.addr - lo + 4 < |m|
    requires k > 0 ==> 0 <= fl[k - 1].addr - lo && fl[k - 1].addr - lo + 4 < |m|
  {
    var m1 := m[b.addr - lo := Upper(fl, k, b).size][b.addr - lo + 4 := At(fl, To(fl, k, b))];
    if JoinsDown(fl, k, b) then
      m1[fl[k - 1].addr - lo := Middle(fl, k, b).size][fl[k - 1].addr - lo + 4 := At(fl, To(fl, k, b))]
    else if k > 0 then m1[fl[k - 1].addr - lo + 4 := b.addr]
    else m1
  }

  /** Where a live block lies among the free ones. */
  lemma Neighbours(s: State, lo: int, hi: int, j: nat, k: nat)
    requires Inv(s, lo, hi) && j < |s.live| && k == Below(s.fl, s.live[j].addr)
    ensures Fits(s.live[j], lo, hi) && s.live[j].addr + 16 <= End(s.live[j])
    ensures k > 0 ==> lo <= s.fl[k - 1].addr && End(s.fl[k - 1]) <= s.live[j].addr
    ensures k > 0 ==> s.fl[k - 1].addr + 16 <= End(s.fl[k - 1])
    ensures k < |s.fl| ==> End(s.live[j]) <= s.fl[k].addr
  {
    var b := s.live[j];
    assert Fits(b, lo, hi);
    if k > 0 {
      assert Fits(s.fl[k - 1], lo, hi);
      if End(s.fl[k - 1]) > b.addr { assert In(s.fl[k - 1], b.addr); Exclusive(s, j, b.addr, lo, hi); }
    }
    if k < |s.fl| {
      assert Fits(s.fl[k], lo, hi);
      if End(b) > s.fl[k].addr { assert In(s.fl[k], s.fl[k].addr); Exclusive(s, j, s.fl[k].addr, lo, hi); }
    }
  }

  lemma MergedRehung(m: seq<int>, s: State, lo: int, hi: int, j: nat, k: nat, head: int)
    requires Inv(s, lo, hi) && 0 < lo && |m| == hi - lo && Listed(m, lo, s.fl, head)
    requires j < |s.live| && k == Below(s.fl, s.live[j].addr)
    requires k <= |s.fl| && 0 <= s.live[j].addr - lo && s.live[j].addr - lo + 4 < |m|
    requires k > 0 ==> 0 <= s.fl[k - 1].addr - lo && s.fl[k - 1].addr - lo + 4 < |m|
    ensures var b := s.live[j];
            Rehung(m, Merged(m, lo, s.fl, k, b), lo, s.fl, From(s.fl, k, b), Middle(s.fl, k, b), To(s.fl, k, b))
  {
    var b, fl := s.live[j], s.fl;
    Neighbours(s, lo, hi, j, k);
    hide Below, AllFit, Covered, Disjoint, Merged, Node, SameNode, Fits, Rehung, From, To, Middle;
    forall x | 0 <= x < |fl| ensures AwayFrom(m, lo, fl, k, b, x) {
      Inside(fl, lo, hi, x);
      if k > 0 && x != k - 1 { Gap(fl, lo, hi, k - 1, x); }
      if k < |fl| && x != k { Gap(fl, lo, hi, k, x); }
    }
    assert |m| == hi - lo && Listed(m, lo, fl, head);
    hide Inv;
    forall x | 0 <= x < |fl| ensures Node(m, lo, fl, x) { NodeAt(m, lo, fl, head, x); }
    hide Listed;
    MergedCase(m, lo, fl, k, b);
  }

  /** Block x of the list is clear of b, and of the block just below b unless it is that one. */
  predicate AwayFrom(m: seq<int>, lo: int, fl: seq<Block>, k: nat, b: Block, x: nat)
    requires x < |fl| && k <= |fl|
  {
    && 0 <= fl[x].addr - lo && fl[x].addr - lo + 4 < |m|
    && (if x < k then fl[x].addr + 16 <= b.addr else b.addr + 16 <= fl[x].addr)
    && (x < k - 1 ==> fl[x].addr + 16 <= fl[k - 1].addr)
  }

  lemma MergedCase(m: seq<int>, lo: int, fl: seq<Block>, k: nat, b: Block)
    requires k <= |fl| && 0 <= b.addr - lo && b.addr - lo + 4 < |m|
    requires forall x :: 0 <= x < |fl| ==> AwayFrom(m, lo, fl, k, b, x)
    requires forall x :: 0 <= x < |fl| ==> Node(m, lo, fl, x)
    ensures k > 0 ==> 0 <= fl[k - 1].addr - lo && fl[k - 1].addr - lo + 4 < |m|
    ensures Rehung(m, Merged(m, lo, fl, k, b), lo, fl, From(fl, k, b), Middle(fl, k, b), To(fl, k, b))
  {
    hide AwayFrom, Node;
    assert k > 0 ==> Node(m, lo, fl, k - 1);
    if k > 0 { BelowFacts(m, lo, fl, k, b); }
    var m', i, e := Merged(m, lo, fl, k, b), From(fl, k, b), To(fl, k, b);
    forall x | 0 <= x < |fl| && (x < i - 1 || e <= x) ensures SameNode(m, m', lo, fl[x]) {
      assert AwayFrom(m, lo, fl, k, b, x);
      SameAway(m, lo, fl, k, b, x);
    }
    if i > 0 && i < k { SecondBelow(m, lo, fl, k, b); }
    hide SameNode;
  }

  lemma SameAway(m: seq<int>, lo: int, fl: seq<Block>, k: nat, b: Block, x: nat)
    requires k <= |fl| && x < |fl| && 0 <= b.addr - lo && b.addr - lo + 4 < |m|
    requires AwayFrom(m, lo, fl, k, b, x) && (k > 0 ==> AwayFrom(m, lo, fl, k, b, k - 1))
    requires x < From(fl, k, b) - 1 || To(fl, k, b) <= x
    ensures k > 0 ==> 0 <= fl[k - 1].addr - lo && fl[k - 1].addr - lo + 4 < |m|
    ensures SameNode(m, Merged(m, lo, fl, k, b), lo, fl[x])
  {
  }

  lemma BelowFacts(m: seq<int>, lo: int, fl: seq<Block>, k: nat, b: Block)
    requires 0 < k <= |fl| && AwayFrom(m, lo, fl, k, b, k - 1) && Node(m, lo, fl, k - 1)
    ensures 0 <= fl[k - 1].addr - lo && fl[k - 1].addr + 16 <= b.addr && fl[k - 1].addr - lo + 4 < |m|
    ensures m[fl[k - 1].addr - lo] == fl[k - 1].size
  {
  }

  /** When b joins the block below, the link before that block already points at it. */
  lemma SecondBelow(m: seq<int>, lo: int, fl: seq<Block>, k: nat, b: Block)
    requires 1 < k <= |fl| && 0 <= b.addr - lo && b.addr - lo + 4 < |m| && JoinsDown(fl, k, b)
    requires forall x :: 0 <= x < |fl| ==> AwayFrom(m, lo, fl, k, b, x)
    requires Node(m, lo, fl, k - 2) && 0 <= fl[k - 1].addr - lo && fl[k - 1].addr - lo + 4 < |m|
    ensures var w, m' := fl[k - 2].addr - lo, Merged(m, lo, fl, k, b);
            0 <= w && w + 4 < |m| && m'[w] == m[w] && m'[w + 4] == fl[k - 1].addr
  {
    assert AwayFrom(m, lo, fl, k, b, k - 2) && AwayFrom(m, lo, fl, k, b, k - 1);
  }

  lemma LiveSize(m: seq<int>, s: State, lo: int, hi: int, j: nat)
    requires Inv(s, lo, hi) && |m| == hi - lo && Headed(m, lo, s.live) && j < |s.live|
    ensures m[s.live[j].addr - lo] == s.live[j].size
  {
  }

  /** The writes of insert_free, in the order the code makes them. */
  function Up(m: seq<int>, lo: int, blk: int, itr: int): (r: seq<int>)
    requires 0 <= blk - lo && blk - lo + 4 < |m| && (itr != 0 ==> blk + 8 <= itr && itr - lo + 4 < |m|)
    ensures |r| == |m|
  {
    if itr != 0 && blk + m[blk - lo] == itr then
      m[blk - lo := m[blk - lo] + m[itr - lo]][blk - lo + 4 := m[itr - lo + 4]]
    else m[blk - lo + 4 := itr]
  }

  function Down(m: seq<int>, lo: int, prev: int, blk: int): (r: seq<int>)
    requires 0 <= blk - lo && blk - lo + 4 < |m| && (prev != 0 ==> 0 <= prev - lo && prev + 8 <= blk)
    ensures |r| == |m|
  {
    if prev != 0 && prev + m[prev - lo] == blk then
      m[prev - lo := m[prev - lo] + m[blk - lo]][prev - lo + 4 := m[blk - lo + 4]]
    else Linked(m, lo, prev, blk)
  }

  /** The two merges of insert_free. */
  lemma JoinedIsMerged(m: seq<int>, s: State, lo: int, hi: int, j: nat, k: nat, head: int)
    requires Inv(s, lo, hi) && 0 < lo && |m| == hi - lo && Listed(m, lo, s.fl, head) && Headed(m, lo, s.live)
    requires j < |s.live| && k == Below(s.fl, s.live[j].addr)
    ensures var b, prev, itr := s.live[j], Prev(s.fl, k), At(s.fl, k);
            && 0 <= b.addr - lo && b.addr - lo + 4 < |m| && (itr != 0 ==> b.addr + 8 <= itr && itr - lo + 4 < |m|)
            && (prev != 0 ==> 0 <= prev - lo && prev + 8 <= b.addr)
            && (k > 0 ==> 0 <= s.fl[k - 1].addr - lo && s.fl[k - 1].addr - lo + 4 < |m|)
            && Down(Up(m, lo, b.addr, itr), lo, prev, b.addr) == Merged(m, lo, s.fl, k, b)
            && (if prev != 0 then head else b.addr) ==
               if From(s.fl, k, b) > 0 then head else Middle(s.fl, k, b).addr
  {
    hide Headed, Listed, Merged, Below;
    Neighbours(s, lo, hi, j, k);
    Walk(m, s, lo, hi, k, head);
    LiveSize(m, s, lo, hi, j);
    if k > 0 { Walk(m, s, lo, hi, k - 1, head); }
    hide Inv, Up, Down, Upper, Middle, To;
    var b := s.live[j];
    UpIs(m, lo, s.fl, k, b);
    DownIs(m, lo, s.fl, k, b);
    LinkIs(s.fl, k, b, head);
  }

  /** The memory after the first merge. */
  function Upped(m: seq<int>, lo: int, fl: seq<Block>, k: nat, b: Block): (r: seq<int>)
    requires k <= |fl| && 0 <= b.addr - lo && b.addr - lo + 4 < |m|
    ensures |r| == |m|
  {
    m[b.addr - lo := Upper(fl, k, b).size][b.addr - lo + 4 := At(fl, To(fl, k, b))]
  }

  lemma UpIs(m: seq<int>, lo: int, fl: seq<Block>, k: nat, b: Block)
    requires k <= |fl| && 0 <= b.addr - lo && b.addr - lo + 4 < |m| && m[b.addr - lo] == b.size
    requires (At(fl, k) != 0 <==> k < |fl|) && (k < |fl| ==> b.addr + 8 <= fl[k].addr && fl[k].addr - lo + 4 < |m|)
    requires k < |fl| ==> m[fl[k].addr - lo] == fl[k].size && m[fl[k].addr - lo + 4] == At(fl, k + 1)
    ensures Up(m, lo, b.addr, At(fl, k)) == Upped(m, lo, fl, k, b)
  {
    assert m[b.addr - lo := b.size] == m;
  }

  lemma DownIs(m: seq<int>, lo: int, fl: seq<Block>, k: nat, b: Block)
    requires k <= |fl| && 0 <= b.addr - lo && b.addr - lo + 4 < |m| && (Prev(fl, k) != 0 <==> k > 0)
    requires k > 0 ==> 0 <= fl[k - 1].addr - lo && fl[k - 1].addr + 16 <= b.addr
    requires k > 0 ==> m[fl[k - 1].addr - lo] == fl[k - 1].size
    ensures Down(Upped(m, lo, fl, k, b), lo, Prev(fl, k), b.addr) == Merged(m, lo, fl, k, b)
  {
    hide Upper, To, At;
  }

  lemma LinkIs(fl: seq<Block>, k: nat, b: Block, head: int)
    requires k <= |fl| && (Prev(fl, k) != 0 <==> k > 0) && (k > 0 ==> head == fl[0].addr)
    ensures (if Prev(fl, k) != 0 then head else b.addr) == if From(fl, k, b) > 0 then head else Middle(fl, k, b).addr
  {
  }

  lemma Returned(m: seq<int>, m': seq<int>, s: State, lo: int, hi: int, j: nat, k: nat, head: int, head': int)
    requires Inv(s, lo, hi) && 0 < lo && |m| == hi - lo && Listed(m, lo, s.fl, head) && Headed(m, lo, s.live)
    requires j < |s.live| && k == Below(s.fl, s.live[j].addr)
    requires 0 <= s.live[j].addr - lo && s.live[j].addr - lo + 4 < |m|
    requires k > 0 ==> 0 <= s.fl[k - 1].addr - lo && s.fl[k - 1].addr - lo + 4 < |m|
    requires m' == Merged(m, lo, s.fl, k, s.live[j])
    requires head' == if From(s.fl, k, s.live[j]) > 0 then head else Middle(s.fl, k, s.live[j]).addr
    ensures Inv(Release(s, j), lo, hi) && Listed(m', lo, InsertFree(s.fl, s.live[j]), head')
    ensures Headed(m', lo, Without(s.live, j)) && OnlyFree(m, m', lo, s.fl + [s.live[j]])
  {
    hide Merged, InsertFree, Below, OnlyFree;
    var b := s.live[j];
    ReleaseKeeps(s, j, lo, hi);
    InsertShape(s.fl, k, b);
    MergedRehung(m, s, lo, hi, j, k, head);
    MergedOnly(m, s, lo, hi, j, k);
    MergedHeads(m, m', s, lo, hi, j);
    hide Inv, Headed, From, To, Middle;
    Rehang(m, m', lo, s.fl, From(s.fl, k, b), Middle(s.fl, k, b), To(s.fl, k, b), head);
  }

  lemma MergedOnly(m: seq<int>, s: State, lo: int, hi: int, j: nat, k: nat)
    requires Inv(s, lo, hi) && 0 < lo && |m| == hi - lo
    requires j < |s.live| && k == Below(s.fl, s.live[j].addr)
    requires 0 <= s.live[j].addr - lo && s.live[j].addr - lo + 4 < |m|
    requires k > 0 ==> 0 <= s.fl[k - 1].addr - lo && s.fl[k - 1].addr - lo + 4 < |m|
    ensures OnlyFree(m, Merged(m, lo, s.fl, k, s.live[j]), lo, s.fl + [s.live[j]])
  {
    var b, all := s.live[j], s.fl + [s.live[j]];
    assert Holds(all, b.addr) && Holds(all, b.addr + 4) by { LastHeader(s.fl, b, lo, hi); }
    if k > 0 {
      HeaderFree(s.fl, lo, hi, k - 1);
      Either(s.fl, [b], s.fl[k - 1].addr);
      Either(s.fl, [b], s.fl[k - 1].addr + 4);
    }
    hide Inv, Holds, Below;
    MergedWrites(m, lo, s.fl, k, b);
  }

  lemma LastHeader(fl: seq<Block>, b: Block, lo: int, hi: int)
    requires b.size >= MIN_ALLOC
    ensures Holds(fl + [b], b.addr) && Holds(fl + [b], b.addr + 4)
  {
    assert (fl + [b])[|fl|] == b && In(b, b.addr) && In(b, b.addr + 4);
  }

  lemma MergedWrites(m: seq<int>, lo: int, fl: seq<Block>, k: nat, b: Block)
    requires k <= |fl| && 0 <= b.addr - lo && b.addr - lo + 4 < |m|
    requires k > 0 ==> 0 <= fl[k - 1].addr - lo && fl[k - 1].addr - lo + 4 < |m|
    requires Holds(fl + [b], b.addr) && Holds(fl + [b], b.addr + 4)
    requires k > 0 ==> Holds(fl + [b], fl[k - 1].addr) && Holds(fl + [b], fl[k - 1].addr + 4)
    ensures OnlyFree(m, Merged(m, lo, fl, k, b), lo, fl + [b])
  {
    hide Holds;
  }

  lemma MergedHeads(m: seq<int>, m': seq<int>, s: State, lo: int, hi: int, j: nat)
    requires Inv(s, lo, hi) && |m| == hi - lo && Headed(m, lo, s.live) && j < |s.live|
    requires OnlyFree(m, m', lo, s.fl + [s.live[j]])
    ensures Headed(m', lo, Without(s.live, j))
  {
    var t := Without(s.live, j);
    forall i | 0 <= i < |t| ensures 0 <= t[i].addr - lo < |m'| && m'[t[i].addr - lo] == t[i].size {
      var x := if i < j then i else i + 1;
      assert t[i] == s.live[x] && Fits(s.live[x], lo, hi) && Fits(s.live[j], lo, hi);
      Exclusive(s, x, s.live[x].addr, lo, hi);
      assert !In(s.live[j], s.live[x].addr) by {
        if x < j { assert Clear(s.live[x], s.live[j]); } else { assert Clear(s.live[j], s.live[x]); }
      }
      Either(s.fl, [s.live[j]], s.live[x].addr);
      Tail([s.live[j]], s.live[x].addr);
    }
  }

  /** The two ways of cutting n bytes off a block that is large enough, or of taking it whole. */
  lemma Parts(fl: seq<Block>, i: nat, n: int, lo: int, hi: int)
    requires i < |fl| && Fits(fl[i], lo, hi) && fl[i].size >= n >= MIN_ALLOC && n % 8 == 0
    ensures var f := fl[i]; var k := f.size - n;
            if k < MIN_ALLOC then CarveLow(fl, i, n) == CarveHigh(fl, i, n) == (f, fl[..i] + fl[i + 1..])
            else
              && CarveLow(fl, i, n) == (Block(f.addr, n), fl[i := Block(f.addr + n, k)])
              && CarveHigh(fl, i, n) == (Block(f.addr + k, n), fl[i := Block(f.addr, k)])
              && Halves(f, Block(f.addr, n), Block(f.addr + n, k)) && Halves(f, Block(f.addr + k, n), Block(f.addr, k))
              && Fits(Block(f.addr, n), lo, hi) && Fits(Block(f.addr + n, k), lo, hi)
              && Fits(Block(f.addr + k, n), lo, hi) && Fits(Block(f.addr, k), lo, hi)
  {
  }

  class Heap {
    const lo: int
    const hi: int
    const mem: array<int>
    var freelist: int
    ghost var fl: seq<Block>
    ghost var live: seq<Block>

    ghost function Abs(): State
      reads this
    {
      State(fl, live)
    }

    ghost predicate Valid()
      reads this, mem
    {
      && HeapBounds(lo, hi) && mem.Length == hi - lo && Inv(Abs(), lo, hi)
      && Listed(mem[..], lo, fl, freelist) && Headed(mem[..], lo, live)
    }

    /** initmem: the whole region, rounded down to a multiple of 8, is one free block. */
    constructor (start: int, end: int)
      requires 0 < start && end < TWO32 && end - start >= MIN_ALLOC
      ensures Valid() && fresh(mem) && lo == start && hi == start + (end - start) / 8 * 8
      ensures Abs() == Fresh(lo, hi)
    {
      var heapSize := (end - start) / 8 * 8;
      lo, hi := start, start + heapSize;
      mem := new int[heapSize](_ => 0);
      freelist := start;
      fl, live := [Block(start, heapSize)], [];
      new;
      mem[freelist - lo + 4] := 0;
      mem[freelist - lo] := heapSize;
      FreshInv(lo, hi);
    }

    method SetSize(a: int, v: int)
      requires 0 <= a - lo < mem.Length
      modifies mem
      ensures mem[..] == old(mem[..])[a - lo := v]
    {
      mem[a - lo] := v;
    }

    method SetNext(a: int, v: int)
      requires 0 <= a - lo && a - lo + 4 < mem.Length
      modifies mem
      ensures mem[..] == old(mem[..])[a - lo + 4 := v]
    {
      mem[a - lo + 4] := v;
    }

    /** `prev->next = v`, or `freelist = v` when there is no prev. */
    method SetLink(prev: int, v: int)
      requires prev != 0 ==> 0 <= prev - lo && prev - lo + 4 < mem.Length
      modifies this`freelist, mem
      ensures mem[..] == Linked(old(mem[..]), lo, prev, v)
      ensures freelist == if prev != 0 then old(freelist) else v
    {
      if prev != 0 { SetNext(prev, v); } else { freelist := v; }
    }

    /** Writes the headers of the two parts of a block already taken off the list, and puts
        the part that stays back where it was. */
    method Cut(prev: int, rem: int, left: int, ret: int, n: int, ghost i: nat, ghost m: seq<int>)
      requires i < |fl| && prev == Prev(fl, i) && (prev == 0 <==> i == 0) && |m| == mem.Length
      requires 0 <= ret - lo < |m| && 0 <= rem - lo && rem - lo + 4 < |m| && (ret + 8 <= rem || rem + 8 <= ret)
      requires prev != 0 ==> 0 <= prev - lo && prev + 16 <= ret && prev + 16 <= rem
      requires mem[..] == Linked(m, lo, prev, At(fl, i + 1)) && (prev == 0 ==> freelist == At(fl, i + 1))
      modifies this`freelist, mem
      ensures mem[..] == Split(m, lo, fl, i, Block(ret, n), Block(rem, left))
      ensures freelist == if prev != 0 then old(freelist) else rem
    {
      hide Split;
      SetSize(rem, left);
      SetSize(ret, n);
      SetNext(rem, if prev != 0 then mem[prev - lo + 4] else freelist);
      SetLink(prev, rem);
      SplitSteps(m, mem[..], lo, fl, i, Block(ret, n), Block(rem, left));
    }

    /** first_fit once the block has been found. */
    method TakeLow(prev: int, itr: int, n: int, ghost i: nat) returns (p: int)
      requires Valid() && i < |fl| && itr == fl[i].addr && prev == Prev(fl, i) && fl[i].size >= n >= MIN_ALLOC
          && n % 8 == 0
      modifies this, mem
      ensures Valid() && OnlyFree(old(mem[..]), mem[..], lo, old(fl))
      ensures p == CarveLow(old(fl), i, n).0.addr + 4 && p > 0
      ensures fl == CarveLow(old(fl), i, n).1 && live == old(live) + [CarveLow(old(fl), i, n).0]
    {
      hide Inv, Listed, Headed, Split, OnlyFree, Halves, Fits, CarveLow;
      ghost var m, s, head := mem[..], Abs(), freelist;
      Found(m, s, lo, hi, i, head);
      Parts(s.fl, i, n, lo, hi);
      SetLink(prev, mem[itr - lo + 4]);
      if mem[itr - lo] < n + MIN_ALLOC {
        Whole(m, mem[..], s, lo, hi, i, head, freelist);
      } else {
        var rem := itr + n;
        Cut(prev, rem, mem[itr - lo] - n, itr, n, i, m);
        Part(m, mem[..], s, lo, hi, i, Block(itr, n), Block(rem, s.fl[i].size - n), head, freelist);
      }
      fl, live := CarveLow(s.fl, i, n).1, s.live + [CarveLow(s.fl, i, n).0];
      p := itr + 4;
    }
  
    /** last_fit once the block has been found. */
    method TakeHigh(prev: int, poten: int, n: int, ghost i: nat) returns (p: int)
      requires Valid() && i < |fl| && poten == fl[i].addr && prev == Prev(fl, i) && fl[i].size >= n >= MIN_ALLOC
          && n % 8 == 0
      modifies this, mem
      ensures Valid() && OnlyFree(old(mem[..]), mem[..], lo, old(fl))
      ensures p == CarveHigh(old(fl), i, n).0.addr + 4 && p > 0
      ensures fl == CarveHigh(old(fl), i, n).1 && live == old(live) + [CarveHigh(old(fl), i, n).0]
    {
      hide Inv, Listed, Headed, Split, OnlyFree, Halves, Fits, CarveHigh;
      ghost var m, s, head := mem[..], Abs(), freelist;
      Found(m, s, lo, hi, i, head);
      Parts(s.fl, i, n, lo, hi);
      SetLink(prev, mem[poten - lo + 4]);
      if mem[poten - lo] < n + MIN_ALLOC {
        p := poten + 4;
        Whole(m, mem[..], s, lo, hi, i, head, freelist);
      } else {
        var ret := poten + (mem[poten - lo] - n);
        Cut(prev, poten, mem[poten - lo] - n, ret, n, i, m);
        Part(m, mem[..], s, lo, hi, i, Block(ret, n), Block(poten, s.fl[i].size - n), head, freelist);
        p := ret + 4;
      }
      fl, live := CarveHigh(s.fl, i, n).1, s.live + [CarveHigh(s.fl, i, n).0];
    }

    /** The request as a block size: header added, rounded up to 8, at least MIN_ALLOC. */
    method BlockSize(size: int) returns (n: int)
      requires 0 <= size < TWO32
      ensures n == Rounded(size)
    {
      n := U32(U32(size + 4) + 7) / 8 * 8;
      if n < MIN_ALLOC { n := MIN_ALLOC; }
    }

    /** alloc: the first block large enough, walking up. NULL when there is none. */
    method Alloc(size: int) returns (p: int)
      requires Valid() && 0 <= size < TWO32
      modifies this, mem
      ensures Valid() && OnlyFree(old(mem[..]), mem[..], lo, old(fl))
      ensures AllocLow(old(Abs()), Rounded(size)) == (if p == 0 then None else Some(p), Abs())
    {
      hide Inv, Headed, Listed, OnlyFree, Rounded, CarveLow;
      var n := BlockSize(size);
      var prev, itr := 0, freelist;
      ghost var i := 0;
      ghost var m := mem[..];
      Walk(m, Abs(), lo, hi, 0, freelist);
      while itr != 0
        invariant i <= |fl| && itr == At(fl, i) && prev == Prev(fl, i) && (itr != 0 <==> i < |fl|) && mem[..] == m
        invariant forall j :: 0 <= j < i ==> fl[j].size < n
        modifies {}
        decreases |fl| - i
      {
        Walk(m, Abs(), lo, hi, i, freelist);
        Walk(m, Abs(), lo, hi, i + 1, freelist);
        if mem[itr - lo] >= n { break; }
        prev, itr := itr, mem[itr - lo + 4];
        i := i + 1;
      }
      FirstFitUnique(fl, n, i);
      if itr == 0 {
        OnlyFreeSelf(mem[..], lo, fl);
        p := 0;
        return;
      }
      p := TakeLow(prev, itr, n, i);
    }

    /** alloc_stack: the last block large enough, so stacks collect at the top. */
    method AllocStack(size: int) returns (p: int)
      requires Valid() && 0 <= size < TWO32
      modifies this, mem
      ensures Valid() && OnlyFree(old(mem[..]), mem[..], lo, old(fl))
      ensures AllocHigh(old(Abs()), Rounded(size)) == (if p == 0 then None else Some(p), Abs())
    {
      hide Inv, Headed, Listed, OnlyFree, Rounded, CarveHigh;
      var n := BlockSize(size);
      var prev, itr, potenPrev, poten := 0, freelist, 0, 0;
      ghost var i, k := 0, -1;
      ghost var m := mem[..];
      Walk(m, Abs(), lo, hi, 0, freelist);
      while itr != 0
        invariant i <= |fl| && itr == At(fl, i) && prev == Prev(fl, i) && (itr != 0 <==> i < |fl|) && mem[..] == m
        invariant -1 <= k < i && (k < 0 <==> poten == 0)
        invariant k >= 0 ==> poten == fl[k].addr && potenPrev == Prev(fl, k) && fl[k].size >= n
        invariant forall j :: k < j < i ==> fl[j].size < n
        modifies {}
        decreases |fl| - i
      {
        Walk(m, Abs(), lo, hi, i, freelist);
        Walk(m, Abs(), lo, hi, i + 1, freelist);
        if mem[itr - lo] >= n {
          potenPrev, poten, k := prev, itr, i;
        }
        prev, itr := itr, mem[itr - lo + 4];
        i := i + 1;
      }
      LastFitUnique(fl, n, k);
      if poten == 0 {
        OnlyFreeSelf(mem[..], lo, fl);
        p := 0;
        return;
      }
      p := TakeHigh(potenPrev, poten, n, k);
    }

    /** insert_free's first merge: the block takes in the free one behind it, or points to it. */
    method JoinUp(blk: int, itr: int)
      requires 0 <= blk - lo && blk - lo + 4 < mem.Length
      requires itr != 0 ==> blk + 8 <= itr && itr - lo + 4 < mem.Length
      modifies mem
      ensures mem[..] == Up(old(mem[..]), lo, blk, itr)
    {
      if itr != 0 && blk + mem[blk - lo] == itr {
        SetSize(blk, mem[blk - lo] + mem[itr - lo]);
        SetNext(blk, mem[itr - lo + 4]);
      } else {
        SetNext(blk, itr);
      }
    }

    /** Its second: the free block before takes it in, or points to it, or the list starts
        with it. */
    method JoinDown(prev: int, blk: int)
      requires 0 <= blk - lo && blk - lo + 4 < mem.Length && (prev != 0 ==> 0 <= prev - lo && prev + 8 <= blk)
      modifies this`freelist, mem
      ensures mem[..] == Down(old(mem[..]), lo, prev, blk) && freelist == if prev != 0 then old(freelist) else blk
    {
      if prev != 0 && prev + mem[prev - lo] == blk {
        SetSize(prev, mem[prev - lo] + mem[blk - lo]);
        SetNext(prev, mem[blk - lo + 4]);
      } else {
        SetLink(prev, blk);
      }
    }

    /** free: the block goes back in address order and merges with the neighbours it touches. */
    method Free(p: int, ghost j: nat)
      requires Valid() && j < |live| && p == live[j].addr + 4
      modifies this, mem
      ensures Valid() && Abs() == Release(old(Abs()), j)
      ensures OnlyFree(old(mem[..]), mem[..], lo, old(fl) + [old(live)[j]])
    {
      hide Inv, Headed, Listed, OnlyFree, InsertFree, Merged, Up, Down, Below;
      ghost var m, s, b, head := mem[..], Abs(), live[j], freelist;
      var blk := p - 4;
      var prev, itr, k := FindPlace(blk);
      JoinedIsMerged(m, s, lo, hi, j, k, head);
      JoinUp(blk, itr);
      JoinDown(prev, blk);
      Returned(m, mem[..], s, lo, hi, j, k, head, freelist);
      fl, live := InsertFree(s.fl, b), Without(s.live, j);
    }

    /** The walk of insert_free to the first free block not below blk. */
    method FindPlace(blk: int) returns (prev: int, itr: int, ghost k: nat)
      requires Valid()
      ensures k == Below(fl, blk) && prev == Prev(fl, k) && itr == At(fl, k)
    {
      hide Inv, Headed, Listed;
      prev, itr, k := 0, freelist, 0;
      ghost var m := mem[..];
      Walk(m, Abs(), lo, hi, 0, freelist);
      while itr != 0 && itr < blk
        invariant k <= |fl| && itr == At(fl, k) && prev == Prev(fl, k) && (itr != 0 <==> k < |fl|)
        invariant forall j :: 0 <= j < k ==> fl[j].addr < blk
        decreases |fl| - k
      {
        Walk(mem[..], Abs(), lo, hi, k, freelist);
        if k + 1 <= |fl| { Walk(mem[..], Abs(), lo, hi, k + 1, freelist); }
        prev, itr := itr, mem[itr - lo + 4];
        k := k + 1;
      }
      BelowUnique(fl, blk, k);
    }

    /** heap_available. */
    method Available() returns (total: int)
      requires Valid()
      ensures total == Sum(fl) == hi - lo - Sum(live)
    {
      hide Headed, Listed, Covered, Canon;
      var itr := freelist;
      ghost var i := 0;
      total := 0;
      ghost var m := mem[..];
      Walk(m, Abs(), lo, hi, 0, freelist);
      while itr != 0
        invariant i <= |fl| && itr == At(fl, i) && (itr != 0 <==> i < |fl|) && mem[..] == m
        invariant total + Sum(fl[i..]) == Sum(fl)
        modifies {}
        decreases |fl| - i
      {
        Walk(m, Abs(), lo, hi, i, freelist);
        Walk(m, Abs(), lo, hi, i + 1, freelist);
        total := total + mem[itr - lo];
        itr := mem[itr - lo + 4];
        i := i + 1;
      }
    }

    /** A client writes a word of a block it holds: the allocator's tables do not notice. */
    method Store(ghost b: Block, a: int, v: int)
      requires Valid() && b in live && b.addr + 4 <= a < End(b)
      modifies mem
      ensures Valid() && mem[..] == old(mem[..])[a - lo := v]
    {
      ghost var j :| 0 <= j < |live| && live[j] == b;
      hide Listed, Headed;
      StoreKeeps(mem[..], Abs(), lo, hi, j, a, v, freelist);
      hide Inv;
      mem[a - lo] := v;
    }
  }
}
