/** sleep.c: sleepers linked in order of wake time. Wake times wrap at 32 bits and are
    compared as signed differences; the abstract value uses ticks that never wrap. */
module SleepList {
  import opened Config
  import opened ProcQueue

  const DELAY_LIMIT: int := TWO31

  /** Position behind every sleeper due no later than d. */
  function DueSlot(s: seq<nat>, d: nat, due: seq<nat>): (k: nat)
    requires InRange(s) && NUM_PROC <= |due|
    ensures k <= |s|
    ensures forall a :: 0 <= a < k ==> due[s[a]] <= d
    ensures k < |s| ==> due[s[k]] > d
  {
    if s == [] || due[s[0]] > d then 0 else 1 + DueSlot(s[1..], d, due)
  }

  function InsertDue(s: seq<nat>, p: nat, due: seq<nat>): seq<nat>
    requires InRange(s) && p < NUM_PROC <= |due|
  {
    InsertAt(s, DueSlot(s, due[p], due), p)
  }

  lemma DueSlotUnique(s: seq<nat>, d: nat, due: seq<nat>, k: nat)
    requires InRange(s) && NUM_PROC <= |due| && k <= |s|
    requires forall a :: 0 <= a < k ==> due[s[a]] <= d
    requires k < |s| ==> due[s[k]] > d
    ensures DueSlot(s, d, due) == k
  {
  }

  ghost predicate Distinct(s: seq<nat>) {
    forall a, b :: 0 <= a < b < |s| ==> s[a] != s[b]
  }

  ghost predicate DueOrder(s: seq<nat>, due: seq<nat>) {
    && InRange(s) && NUM_PROC <= |due|
    && forall a, b :: 0 <= a < b < |s| ==> due[s[a]] <= due[s[b]]
  }

  /** Wake times close to the clock: what the signed comparison needs. */
  ghost predicate InHorizon(s: seq<nat>, due: seq<nat>, now: nat) {
    && InRange(s) && NUM_PROC <= |due|
    && forall a :: 0 <= a < |s| ==> now <= due[s[a]] + 1 && due[s[a]] < now + TWO31
  }

  ghost predicate Wrapped(s: seq<nat>, due: seq<nat>, wakeAt: seq<int>) {
    && InRange(s) && NUM_PROC <= |due| && NUM_PROC <= |wakeAt|
    && forall a :: 0 <= a < |s| ==> wakeAt[s[a]] == U32(due[s[a]])
  }

  /** next spells out s from its position a onwards. */
  ghost predicate Chained(s: seq<nat>, next: seq<int>) {
    && InRange(s) && NUM_PROC <= |next|
    && forall a {:trigger next[s[a]]} :: 0 <= a < |s| ==> next[s[a]] == Entry(s, a + 1)
  }

  function Entry(s: seq<nat>, a: nat): int {
    if a < |s| then s[a] else NULL
  }

  /** Cutting the list down to its tail keeps the order. */
  lemma TailSound(s: seq<nat>, due: seq<nat>, now: nat)
    requires s != [] && Distinct(s) && DueOrder(s, due) && InHorizon(s, due, now)
    ensures Distinct(s[1..]) && DueOrder(s[1..], due) && InHorizon(s[1..], due, now)
    ensures forall x :: x in s[1..] <==> x in s && x != s[0]
  {
    var t := s[1..];
    assert forall a :: 0 <= a < |t| ==> t[a] == s[a + 1];
    forall x | x in s && x != s[0] ensures x in t {
      var a :| 0 <= a < |s| && s[a] == x;
      assert t[a - 1] == x;
    }
  }

  lemma WithoutSound(s: seq<nat>, p: nat, due: seq<nat>, now: nat)
    requires Distinct(s) && DueOrder(s, due) && InHorizon(s, due, now)
    ensures Distinct(Without(s, p)) && DueOrder(Without(s, p), due) && InHorizon(Without(s, p), due, now)
  {
    if p in s {
      var a :| 0 <= a < |s| && s[a] == p;
      WithoutAt(s, a);
      hide Without, RemoveAt, DueOrder, InHorizon;
      RemoveDistinct(s, a);
      RemoveOrder(s, a, due, now);
    }
  }

  lemma RemoveOrder(s: seq<nat>, k: nat, due: seq<nat>, now: nat)
    requires k < |s| && DueOrder(s, due) && InHorizon(s, due, now)
    ensures DueOrder(RemoveAt(s, k), due) && InHorizon(RemoveAt(s, k), due, now)
  {
    hide RemoveAt;
    var t := RemoveAt(s, k);
    assert forall a :: 0 <= a < |t| ==> t[a] == (if a < k then s[a] else s[a + 1]);
  }

  lemma InsertDueSlot(s: seq<nat>, p: nat, due: seq<nat>, d: nat, k: nat)
    requires InRange(s) && p < NUM_PROC == |due| && p !in s && k <= |s|
    requires forall a :: 0 <= a < k ==> due[s[a]] <= d
    requires k < |s| ==> due[s[k]] > d
    ensures InsertDue(s, p, due[p := d]) == InsertAt(s, k, p)
  {
    assert forall a :: 0 <= a < |s| ==> due[p := d][s[a]] == due[s[a]];
    DueSlotUnique(s, d, due[p := d], k);
  }

  lemma InsertDueOrder(s: seq<nat>, p: nat, due: seq<nat>, d: nat, k: nat)
    requires DueOrder(s, due) && p < NUM_PROC == |due| && p !in s && k <= |s|
    requires forall a :: 0 <= a < k ==> due[s[a]] <= d
    requires k < |s| ==> due[s[k]] > d
    ensures DueOrder(InsertAt(s, k, p), due[p := d])
  {
    var t, due' := InsertAt(s, k, p), due[p := d];
    forall a, b | 0 <= a < b < |t| ensures due'[t[a]] <= due'[t[b]] {
      assert t[a] == (if a < k then s[a] else if a == k then p else s[a - 1]);
      assert t[b] == (if b < k then s[b] else if b == k then p else s[b - 1]);
    }
  }

  lemma InsertHorizon(s: seq<nat>, p: nat, due: seq<nat>, d: nat, k: nat, now: nat)
    requires InHorizon(s, due, now) && |due| == NUM_PROC
    requires p < NUM_PROC && p !in s && k <= |s| && now <= d < now + TWO31
    ensures InHorizon(InsertAt(s, k, p), due[p := d], now)
  {
    var t := InsertAt(s, k, p);
    assert forall a :: 0 <= a < |t| ==> t[a] == (if a < k then s[a] else if a == k then p else s[a - 1]);
  }

  lemma InsertWrapped(s: seq<nat>, p: nat, due: seq<nat>, d: nat, k: nat, wakeAt: seq<int>)
    requires Wrapped(s, due, wakeAt) && |due| == NUM_PROC == |wakeAt|
    requires p < NUM_PROC && p !in s && k <= |s|
    ensures Wrapped(InsertAt(s, k, p), due[p := d], wakeAt[p := U32(d)])
  {
    var t := InsertAt(s, k, p);
    assert forall a :: 0 <= a < |t| ==> t[a] == (if a < k then s[a] else if a == k then p else s[a - 1]);
  }

  /** A new sleeper goes behind everyone due no later, and the order stays. */
  lemma InsertDueSound(s: seq<nat>, p: nat, due: seq<nat>, d: nat, now: nat)
    requires Distinct(s) && DueOrder(s, due) && InHorizon(s, due, now) && |due| == NUM_PROC
    requires p < NUM_PROC && p !in s && now <= d < now + TWO31
    ensures Distinct(InsertDue(s, p, due[p := d])) && DueOrder(InsertDue(s, p, due[p := d]), due[p := d])
    ensures InHorizon(InsertDue(s, p, due[p := d]), due[p := d], now)
    ensures forall x :: x in InsertDue(s, p, due[p := d]) <==> x == p || x in s
  {
    var m := DueSlot(s, d, due);
    hide InsertAt, DueSlot, InsertDue;
    InsertDueSlot(s, p, due, d, m);
    InsertDistinct(s, m, p);
    InsertDueOrder(s, p, due, d, m);
    InsertHorizon(s, p, due, d, m, now);
    InsertKeeps(s, m, p);
  }

  lemma InsertChain(s: seq<nat>, next: seq<int>, k: nat, p: nat)
    requires Chained(s, next) && Distinct(s) && p < NUM_PROC && p !in s && k <= |s|
    ensures Chained(InsertAt(s, k, p), Hooked(s, next, k, p))
  {
    var t, next' := InsertAt(s, k, p), Hooked(s, next, k, p);
    forall a | 0 <= a < |t| ensures t[a] < NUM_PROC && next'[t[a]] == Entry(t, a + 1) {
      if a != k {
        var b := if a < k then a else a - 1;
        assert t[a] == s[b] && s[b] in s && next[s[b]] == Entry(s, b + 1);
        if k > 0 && b != k - 1 { assert s[b] != s[k - 1]; }
      } else if k > 0 {
        assert s[k - 1] in s;
      }
    }
  }

  lemma RemoveChain(s: seq<nat>, next: seq<int>, k: nat)
    requires Chained(s, next) && Distinct(s) && k < |s|
    ensures Chained(RemoveAt(s, k), Bypassed(s, next, k))
  {
    var t, next' := RemoveAt(s, k), Bypassed(s, next, k);
    forall a | 0 <= a < |t| ensures t[a] < NUM_PROC && next'[t[a]] == Entry(t, a + 1) {
      var b := if a < k then a else a + 1;
      assert t[a] == s[b] && s[b] != s[k] && next[s[b]] == Entry(s, b + 1);
      assert next[s[k]] == Entry(s, k + 1);
      if k > 0 && a != k - 1 { assert s[b] != s[k - 1]; }
    }
  }

  /** The next fields once the k-th sleeper has been cut out. */
  ghost function Bypassed(s: seq<nat>, next: seq<int>, k: nat): seq<int>
    requires InRange(s) && NUM_PROC <= |next| && k < |s|
  {
    (if k > 0 then next[s[k - 1] := next[s[k]]] else next)[s[k] := NULL]
  }

  lemma RemoveFacts(s: seq<nat>, k: nat, due: seq<nat>, now: nat, wakeAt: seq<int>)
    requires k < |s| && DueOrder(s, due) && InHorizon(s, due, now) && Wrapped(s, due, wakeAt)
    ensures DueOrder(RemoveAt(s, k), due) && InHorizon(RemoveAt(s, k), due, now) && Wrapped(RemoveAt(s, k), due, wakeAt)
  {
    var t := RemoveAt(s, k);
    assert forall a :: 0 <= a < |t| ==> t[a] == (if a < k then s[a] else s[a + 1]);
  }

  /** s is the list the link fields spell out: ordered by true wake time, all of them near. */
  ghost predicate Sound(s: seq<nat>, next: seq<int>, due: seq<nat>, now: nat, wakeAt: seq<int>) {
    && |wakeAt| == NUM_PROC == |next| && |due| == NUM_PROC
    && Distinct(s) && DueOrder(s, due) && InHorizon(s, due, now)
    && Wrapped(s, due, wakeAt) && Chained(s, next)
  }

  lemma RemoveSleeper(s: seq<nat>, next: seq<int>, k: nat, due: seq<nat>, now: nat, wakeAt: seq<int>)
    requires k < |s| && Sound(s, next, due, now, wakeAt)
    ensures Sound(RemoveAt(s, k), Bypassed(s, next, k), due, now, wakeAt)
    ensures RemoveAt(s, k) == Without(s, s[k])
    ensures Entry(RemoveAt(s, k), 0) == (if k == 0 then next[s[0]] else s[0])
  {
    RemoveChain(s, next, k);
    RemoveFacts(s, k, due, now, wakeAt);
    RemoveDistinct(s, k);
    WithoutAt(s, k);
  }

  /** The next fields once p has been put in at position k. */
  ghost function Hooked(s: seq<nat>, next: seq<int>, k: nat, p: nat): seq<int>
    requires InRange(s) && p < NUM_PROC <= |next| && k <= |s|
  {
    if k > 0 then next[p := Entry(s, k)][s[k - 1] := p] else next[p := Entry(s, k)]
  }

  lemma InsertSleeper(s: seq<nat>, next: seq<int>, k: nat, p: nat, due: seq<nat>, d: nat, now: nat, wakeAt: seq<int>)
    requires k <= |s| && p < NUM_PROC && p !in s && now <= d < now + TWO31
    requires Sound(s, next, due, now, wakeAt)
    requires forall a :: 0 <= a < k ==> due[s[a]] <= d
    requires k < |s| ==> due[s[k]] > d
    ensures Sound(InsertAt(s, k, p), Hooked(s, next, k, p), due[p := d], now, wakeAt[p := U32(d)])
    ensures InsertAt(s, k, p) == InsertDue(s, p, due[p := d])
    ensures Entry(InsertAt(s, k, p), 0) == (if k == 0 then p else s[0])
  {
    InsertChain(s, next, k, p);
    InsertDistinct(s, k, p);
    InsertDueOrder(s, p, due, d, k);
    InsertHorizon(s, p, due, d, k, now);
    InsertWrapped(s, p, due, d, k, wakeAt);
    InsertDueSlot(s, p, due, d, k);
  }

  /** The comparison `(int)(x - y)` of two wrapped ticks x and y of true values a and b. */
  method SignedGap(x: int, y: int, ghost a: int, ghost b: int) returns (g: int)
    requires x == U32(a) && y == U32(b) && -TWO31 <= a - b < TWO31
    ensures g == S32(x - y) && g == a - b
  {
    SignedDifference(a, b);
    g := S32(x - y);
  }

  /** The static sleepers table, one row per process, and the list threaded through it. */
  class Sleepers {
    var wakeAt: seq<int>
    var next: seq<int>
    var head: int
    var tickCount: int
    ghost var s: seq<nat>
    ghost var due: seq<nat>
    ghost var now: nat

    ghost predicate Valid()
      reads this
    {
      && |wakeAt| == NUM_PROC == |next| && |due| == NUM_PROC
      && tickCount == U32(now) && head == Entry(s, 0) && Sound(s, next, due, now, wakeAt)
    }

    constructor ()
      ensures Valid() && s == [] && due == seq(NUM_PROC, _ => 0) && now == 0
    {
      wakeAt, next := seq(NUM_PROC, _ => 0), seq(NUM_PROC, _ => NULL);
      head, tickCount := NULL, 0;
      s, due, now := [], seq(NUM_PROC, _ => 0), 0;
    }

    method Enqueue(pid: nat, delay: nat)
      requires Valid() && pid < NUM_PROC && pid !in s && delay < DELAY_LIMIT
      modifies this
      ensures Valid() && now == old(now) && due == old(due)[pid := now + delay]
      ensures InRange(old(s)) && s == InsertDue(old(s), pid, due)
    {
      hide InsertAt, InsertDue, Sound, U32;
      ghost var wakeAt0 := wakeAt;
      WrapSum(now, delay);
      wakeAt := wakeAt[pid := U32(tickCount + delay)];
      var prev, cur, k := FindDue(pid, now + delay, wakeAt0);
      InsertSleeper(s, next, k, pid, due, now + delay, now, wakeAt0);
      next := next[pid := cur];
      if prev == NULL { head := pid; } else { next := next[prev := pid]; }
      s, due := InsertAt(s, k, pid), due[pid := now + delay];
    }

    /** Walks the link fields to the first sleeper due later than pid. `prev` stands for the
        pointer being followed: NULL for sleep_list itself, else the row whose next it is. */
    method FindDue(pid: nat, ghost d: nat, ghost wakeAt0: seq<int>) returns (prev: int, cur: int, ghost k: nat)
      requires head == Entry(s, 0) && Sound(s, next, due, now, wakeAt0)
      requires pid < NUM_PROC && pid !in s && now <= d < now + TWO31 && wakeAt == wakeAt0[pid := U32(d)]
      ensures k <= |s| && cur == Entry(s, k) && prev == (if k == 0 then NULL else s[k - 1])
      ensures InRange(s) && forall a :: 0 <= a < k ==> due[s[a]] <= d
      ensures k < |s| ==> due[s[k]] > d
    {
      prev, cur, k := NULL, head, 0;
      while cur != NULL
        invariant 0 <= k <= |s| && cur == Entry(s, k) && prev == (if k == 0 then NULL else s[k - 1])
        invariant forall a :: 0 <= a < k ==> due[s[a]] <= d
        decreases |s| - k
      {
        var later := SignedGap(wakeAt[cur], wakeAt[pid], due[cur], d);
        if later > 0 { break; }
        prev, cur := cur, next[cur];
        k := k + 1;
      }
    }

    /** Takes pid off the list; a process that is not on it is left alone. */
    method Remove(pid: nat)
      requires Valid() && pid < NUM_PROC
      modifies this
      ensures Valid() && now == old(now) && due == old(due) && s == Without(old(s), pid)
    {
      hide RemoveAt, Without;
      var prev, cur, k := Find(pid);
      if cur == pid {
        RemoveSleeper(s, next, k, due, now, wakeAt);
        if prev == NULL { head := next[pid]; } else { next := next[prev := next[pid]]; }
        next := next[pid := NULL];
        s := RemoveAt(s, k);
      }
    }

    /** Follows the link fields to pid, or to the end. */
    method Find(pid: nat) returns (prev: int, cur: int, ghost k: nat)
      requires |next| == NUM_PROC && head == Entry(s, 0) && Chained(s, next)
      ensures k <= |s| && cur == Entry(s, k) && prev == (if k == 0 then NULL else s[k - 1])
      ensures if cur == pid then k < |s| else pid !in s
    {
      prev, cur, k := NULL, head, 0;
      while cur != NULL && cur != pid
        invariant 0 <= k <= |s| && cur == Entry(s, k) && prev == (if k == 0 then NULL else s[k - 1])
        invariant forall a :: 0 <= a < k ==> s[a] != pid
        decreases |s| - k
      {
        prev, cur := cur, next[cur];
        k := k + 1;
      }
    }

    method Advance()
      requires Valid() && forall a :: 0 <= a < |s| ==> now <= due[s[a]]
      modifies this`tickCount, this`now
      ensures Valid() && now == old(now) + 1
    {
      WrapSum(now, 1);
      tickCount := U32(tickCount + 1);
      now := now + 1;
    }

    /** The first sleeper when its time has come, taken off the list; NULL otherwise. */
    method PopExpired() returns (pid: int)
      requires Valid()
      modifies this
      ensures Valid() && now == old(now) && due == old(due)
      ensures if |old(s)| > 0 && old(s)[0] < NUM_PROC && due[old(s)[0]] <= now
              then pid == old(s)[0] && s == old(s)[1..] else pid == NULL && s == old(s)
    {
      if head == NULL { return NULL; }
      var left := SignedGap(wakeAt[head], tickCount, due[head], now);
      if left > 0 { return NULL; }
      RemoveSleeper(s, next, 0, due, now, wakeAt);
      pid := head;
      head := next[pid];
      next := next[pid := NULL];
      assert RemoveAt(s, 0) == s[1..];
      s := RemoveAt(s, 0);
    }
  }
}
