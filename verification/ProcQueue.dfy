/** proc_queue.c: every kernel queue is a doubly linked list threaded through one
    static table. Row p < NUM_PROC belongs to process p; queue i owns the two rows
    Head(i) and Tail(i). The abstract value is one sequence of pids per queue. */
module ProcQueue {
  import opened Config

  const NULL: int := -1
  const MAX_KEY: int := INT_MAX
  const MIN_KEY: int := INT_MIN

  datatype QueueEntry = QueueEntry(key: int, pid: int, prev: int, next: int)

  type Queues = seq<seq<nat>>

  function Head(i: nat): nat { NUM_PROC + 2 * i }

  function Tail(i: nat): nat { NUM_PROC + 2 * i + 1 }

  /** Row visited after k steps from the head of queue i. */
  function Node(qs: Queues, i: nat, k: nat): int
    requires i < |qs| && k <= |qs[i]| + 1
  {
    if k == 0 then Head(i) else if k == |qs[i]| + 1 then Tail(i) else qs[i][k - 1]
  }

  /** at[p] names the one queue that holds p, or is NULL when none does. */
  ghost predicate Members(qs: Queues, at: seq<int>) {
    && |at| == NUM_PROC
    && (forall i, a :: 0 <= i < |qs| && 0 <= a < |qs[i]| ==> qs[i][a] < NUM_PROC && at[qs[i][a]] == i)
    && (forall i, a, b :: 0 <= i < |qs| && 0 <= a < b < |qs[i]| ==> qs[i][a] != qs[i][b])
    && (forall p :: 0 <= p < NUM_PROC && at[p] != NULL ==> 0 <= at[p] < |qs| && p in qs[at[p]])
  }

  ghost predicate Ends(es: seq<QueueEntry>, i: nat)
    requires |es| == NUM_QENT && i < NUM_QUEUE
  {
    && es[Head(i)].prev == NULL && es[Head(i)].key == MAX_KEY
    && es[Tail(i)].next == NULL && es[Tail(i)].key == MIN_KEY
  }

  ghost predicate AllEnds(es: seq<QueueEntry>, n: nat)
    requires |es| == NUM_QENT && n <= NUM_QUEUE
  {
    forall i :: 0 <= i < n ==> Ends(es, i)
  }

  ghost predicate Row(es: seq<QueueEntry>, at: seq<int>, p: nat)
    requires |es| == NUM_QENT && |at| == NUM_PROC && p < NUM_PROC
  {
    if at[p] == NULL then es[p].next == NULL && es[p].prev == NULL
    else es[p].pid == p && MIN_KEY < es[p].key <= MAX_KEY
  }

  ghost predicate Step(es: seq<QueueEntry>, x: int, y: int) {
    0 <= x < |es| && 0 <= y < |es| && es[x].next == y && es[y].prev == x
  }

  /** The step from the k-th row of queue i to the next one is threaded both ways. */
  ghost predicate Joined(es: seq<QueueEntry>, qs: Queues, i: nat, k: nat)
    requires i < |qs| && k <= |qs[i]|
  {
    Step(es, Node(qs, i, k), Node(qs, i, k + 1))
  }

  ghost predicate AllJoined(es: seq<QueueEntry>, qs: Queues) {
    forall i, k :: 0 <= i < |qs| && 0 <= k <= |qs[i]| ==> Joined(es, qs, i, k)
  }

  ghost predicate Sorted(es: seq<QueueEntry>, s: seq<nat>) {
    && (forall a :: 0 <= a < |s| ==> s[a] < |es|)
    && (forall a, b :: 0 <= a < b < |s| ==> es[s[a]].key >= es[s[b]].key)
  }

  ghost predicate AllSorted(es: seq<QueueEntry>, qs: Queues) {
    forall i :: 0 <= i < |qs| ==> Sorted(es, qs[i])
  }

  /** The link fields of the table spell out exactly the sequences qs. */
  ghost predicate Linked(es: seq<QueueEntry>, qs: Queues, at: seq<int>) {
    && |es| == NUM_QENT && |qs| <= NUM_QUEUE && Members(qs, at)
    && AllEnds(es, |qs|)
    && AllJoined(es, qs)
    && (forall p :: 0 <= p < NUM_PROC ==> Row(es, at, p))
    && AllSorted(es, qs)
  }

  lemma NodeRange(qs: Queues, at: seq<int>, i: nat, k: nat)
    requires Members(qs, at) && i < |qs| <= NUM_QUEUE && k <= |qs[i]| + 1
    ensures 0 <= Node(qs, i, k) < NUM_QENT
    ensures Node(qs, i, k) < NUM_PROC ==> 1 <= k <= |qs[i]| && at[Node(qs, i, k)] == i
  {
    if 1 <= k <= |qs[i]| { assert at[qs[i][k - 1]] == i; }
  }

  lemma NodeInjective(qs: Queues, at: seq<int>, i: nat, k: nat, j: nat, l: nat)
    requires Members(qs, at) && i < |qs| && j < |qs| && k <= |qs[i]| + 1 && l <= |qs[j]| + 1
    ensures Node(qs, i, k) == Node(qs, j, l) ==> i == j && k == l
  {
    if 1 <= k <= |qs[i]| { assert at[qs[i][k - 1]] == i; }
    if 1 <= l <= |qs[j]| { assert at[qs[j][l - 1]] == j; }
  }

  // ---- what the operations do to one sequence ----

  predicate InRange(s: seq<nat>) {
    forall a :: 0 <= a < |s| ==> s[a] < NUM_PROC
  }

  function InsertAt(s: seq<nat>, k: nat, p: nat): (r: seq<nat>)
    requires k <= |s|
    ensures |r| == |s| + 1 && r[k] == p
    ensures forall a :: 0 <= a < k ==> r[a] == s[a]
    ensures forall a :: k < a <= |s| ==> r[a] == s[a - 1]
    ensures forall a :: k <= a < |s| ==> r[a + 1] == s[a]
  {
    s[..k] + [p] + s[k..]
  }

  function RemoveAt(s: seq<nat>, a: nat): (r: seq<nat>)
    requires a < |s|
    ensures |r| == |s| - 1
    ensures forall b :: 0 <= b < a ==> r[b] == s[b]
    ensures forall b :: a <= b < |r| ==> r[b] == s[b + 1]
    ensures forall b :: a < b < |s| ==> r[b - 1] == s[b]
  {
    s[..a] + s[a + 1..]
  }

  /** Where proc_enqueue's walk stops: the first pid whose key is below `key`. */
  function Slot(s: seq<nat>, key: int, keys: seq<int>): (k: nat)
    requires InRange(s) && NUM_PROC <= |keys|
    ensures k <= |s|
    ensures forall a :: 0 <= a < k ==> keys[s[a]] >= key
    ensures k < |s| ==> keys[s[k]] < key
  {
    if s == [] || keys[s[0]] < key then 0 else 1 + Slot(s[1..], key, keys)
  }

  function Insert(s: seq<nat>, p: nat, key: int, keys: seq<int>): seq<nat>
    requires InRange(s) && NUM_PROC <= |keys|
  {
    InsertAt(s, Slot(s, key, keys), p)
  }

  function Without(s: seq<nat>, p: nat): (r: seq<nat>)
    ensures p !in s ==> r == s
    ensures forall x :: x in r <==> x in s && x != p
  {
    if s == [] then [] else if s[0] == p then Without(s[1..], p) else [s[0]] + Without(s[1..], p)
  }

  lemma SlotUnique(s: seq<nat>, key: int, keys: seq<int>, k: nat)
    requires InRange(s) && NUM_PROC <= |keys|
    requires k <= |s|
    requires forall a :: 0 <= a < k ==> keys[s[a]] >= key
    requires k < |s| ==> keys[s[k]] < key
    ensures Slot(s, key, keys) == k
  {
  }

  lemma RemoveTail(s: seq<nat>, a: nat)
    requires a < |s|
    ensures RemoveAt(s, a) == if a == 0 then s[1..] else [s[0]] + RemoveAt(s[1..], a - 1)
  {
    if a > 0 { assert s[..a] == [s[0]] + s[1..][..a - 1]; }
  }

  lemma {:induction false} WithoutAt(s: seq<nat>, a: nat)
    requires a < |s| && forall b, c :: 0 <= b < c < |s| ==> s[b] != s[c]
    ensures Without(s, s[a]) == RemoveAt(s, a)
  {
    var t := s[1..];
    assert forall b :: 0 <= b < |t| ==> t[b] == s[b + 1];
    RemoveTail(s, a);
    hide RemoveAt;
    if a == 0 {
      assert s[0] !in t;
    } else {
      WithoutAt(t, a - 1);
    }
  }

  // ---- threading a process into a queue ----

  ghost function Spliced(es: seq<QueueEntry>, p: nat, key: int, before: int, after: int): (r: seq<QueueEntry>)
    requires p < |es| && 0 <= before < |es| && 0 <= after < |es|
    ensures |r| == |es|
    ensures p != before && p != after && before != after ==>
              r[p] == QueueEntry(key, p, before, after)
              && r[before] == es[before].(next := p) && r[after] == es[after].(prev := p)
    ensures forall x :: 0 <= x < |es| && x != p && x != before && x != after ==> r[x] == es[x]
  {
    var e1 := es[p := QueueEntry(key, p, before, after)];
    var e2 := e1[before := e1[before].(next := p)];
    e2[after := e2[after].(prev := p)]
  }

  lemma InsertMembers(qs: Queues, at: seq<int>, i: nat, k: nat, p: nat)
    requires Members(qs, at) && i < |qs| && k <= |qs[i]| && p < NUM_PROC && at[p] == NULL
    ensures Members(qs[i := InsertAt(qs[i], k, p)], at[p := i])
  {
    hide InsertAt;
    var s := qs[i];
    var t := InsertAt(s, k, p);
    var at' := at[p := i];
    assert forall a :: 0 <= a < |s| ==> at[s[a]] == i;
    forall a | 0 <= a < |t| ensures t[a] < NUM_PROC && at'[t[a]] == i {
      if a != k { assert at[s[if a < k then a else a - 1]] == i; }
    }
    InsertDistinct(s, k, p);
    InsertKeeps(s, k, p);
  }

  lemma InsertDistinct(s: seq<nat>, k: nat, p: nat)
    requires (forall a, b :: 0 <= a < b < |s| ==> s[a] != s[b]) && p !in s && k <= |s|
    ensures forall a, b :: 0 <= a < b < |s| + 1 ==> InsertAt(s, k, p)[a] != InsertAt(s, k, p)[b]
  {
    hide InsertAt;
    var t := InsertAt(s, k, p);
    forall a, b | 0 <= a < b < |t| ensures t[a] != t[b] {
      assert t[a] == (if a < k then s[a] else if a == k then p else s[a - 1]);
      assert t[b] == (if b < k then s[b] else if b == k then p else s[b - 1]);
    }
  }

  lemma InsertKeeps(s: seq<nat>, k: nat, p: nat)
    requires k <= |s|
    ensures forall r :: r in InsertAt(s, k, p) <==> r == p || r in s
  {
    forall r ensures r in InsertAt(s, k, p) <==> r == p || r in s {
      if r in s {
        var a :| 0 <= a < |s| && s[a] == r;
        assert InsertAt(s, k, p)[if a < k then a else a + 1] == r;
      }
      if r == p { assert InsertAt(s, k, p)[k] == p; }
    }
  }

  /** Row m of queue j after p was put at position k of queue i, in terms of the rows before. */
  lemma InsertNodes(qs: Queues, i: nat, k: nat, p: nat, j: nat, m: nat)
    requires i < |qs| && k <= |qs[i]| && j < |qs|
    requires m <= |qs[i := InsertAt(qs[i], k, p)][j]| + 1
    ensures Node(qs[i := InsertAt(qs[i], k, p)], j, m)
            == if j != i || m <= k then Node(qs, j, m) else if m == k + 1 then p else Node(qs, j, m - 1)
  {
  }

  lemma SplicedSteps(es: seq<QueueEntry>, p: nat, key: int, before: int, after: int, x: int, y: int)
    requires p < |es| && 0 <= before < |es| && 0 <= after < |es|
    requires p != before && p != after && before != after
    requires Step(es, x, y) && x != p && y != p && x != before && y != after
    ensures Step(Spliced(es, p, key, before, after), x, y)
  {
  }

  lemma InsertJoined(es: seq<QueueEntry>, qs: Queues, at: seq<int>, i: nat, k: nat, p: nat, key: int, j: nat, m: nat)
    requires |es| == NUM_QENT && |qs| <= NUM_QUEUE && Members(qs, at) && AllJoined(es, qs)
    requires i < |qs| && k <= |qs[i]| && p < NUM_PROC && at[p] == NULL
    requires 0 <= Node(qs, i, k) < NUM_QENT && 0 <= Node(qs, i, k + 1) < NUM_QENT
    requires j < |qs| && m <= |qs[i := InsertAt(qs[i], k, p)][j]|
    ensures Joined(Spliced(es, p, key, Node(qs, i, k), Node(qs, i, k + 1)), qs[i := InsertAt(qs[i], k, p)], j, m)
  {
    InsertNodes(qs, i, k, p, j, m);
    InsertNodes(qs, i, k, p, j, m + 1);
    if j == i && (m == k || m == k + 1) {
      NodeRange(qs, at, i, k);
      NodeRange(qs, at, i, k + 1);
      NodeInjective(qs, at, i, k, i, k + 1);
    } else {
      InsertStep(es, qs, at, i, k, p, key, j, if j != i || m <= k then m else m - 1);
    }
  }

  lemma InsertStep(es: seq<QueueEntry>, qs: Queues, at: seq<int>, i: nat, k: nat, p: nat, key: int, j: nat, n: nat)
    requires |es| == NUM_QENT && |qs| <= NUM_QUEUE && Members(qs, at) && AllJoined(es, qs)
    requires i < |qs| && k <= |qs[i]| && p < NUM_PROC && at[p] == NULL
    requires 0 <= Node(qs, i, k) < NUM_QENT && 0 <= Node(qs, i, k + 1) < NUM_QENT
    requires j < |qs| && n <= |qs[j]| && (j != i || n != k)
    ensures Step(Spliced(es, p, key, Node(qs, i, k), Node(qs, i, k + 1)), Node(qs, j, n), Node(qs, j, n + 1))
  {
    assert Joined(es, qs, j, n);
    NodeRange(qs, at, i, k);
    NodeRange(qs, at, i, k + 1);
    NodeRange(qs, at, j, n);
    NodeRange(qs, at, j, n + 1);
    NodeInjective(qs, at, i, k, i, k + 1);
    NodeInjective(qs, at, j, n, i, k);
    NodeInjective(qs, at, j, n + 1, i, k + 1);
    SplicedSteps(es, p, key, Node(qs, i, k), Node(qs, i, k + 1), Node(qs, j, n), Node(qs, j, n + 1));
  }

  lemma InsertSorted(es: seq<QueueEntry>, es': seq<QueueEntry>, s: seq<nat>, k: nat, p: nat)
    requires Sorted(es, s) && k <= |s| && p < |es| == |es'|
    requires forall a :: 0 <= a < |s| ==> es'[s[a]].key == es[s[a]].key
    requires forall a :: 0 <= a < k ==> es[s[a]].key >= es'[p].key
    requires forall a :: k <= a < |s| ==> es[s[a]].key < es'[p].key
    ensures Sorted(es', InsertAt(s, k, p))
  {
    var t := InsertAt(s, k, p);
    forall a, b | 0 <= a < b < |t| ensures es'[t[a]].key >= es'[t[b]].key {
      assert t[a] == if a < k then s[a] else if a == k then p else s[a - 1];
      assert t[b] == if b < k then s[b] else if b == k then p else s[b - 1];
    }
  }

  lemma SortedElsewhere(es: seq<QueueEntry>, es': seq<QueueEntry>, s: seq<nat>)
    requires Sorted(es, s) && |es| == |es'|
    requires forall a :: 0 <= a < |s| ==> es'[s[a]].key == es[s[a]].key
    ensures Sorted(es', s)
  {
  }

  lemma SplicedRows(es: seq<QueueEntry>, at: seq<int>, p: nat, key: int, before: int, after: int, i: nat, r: nat)
    requires |es| == NUM_QENT && |at| == NUM_PROC && 0 <= before < NUM_QENT && 0 <= after < NUM_QENT
    requires p < NUM_PROC && r < NUM_PROC && p != before && p != after && before != after
    requires MIN_KEY < key <= MAX_KEY && Row(es, at, r)
    requires before < NUM_PROC ==> at[before] == i
    requires after < NUM_PROC ==> at[after] == i
    ensures Row(Spliced(es, p, key, before, after), at[p := i], r)
  {
  }

  lemma InsertEnds(es: seq<QueueEntry>, qs: Queues, at: seq<int>, i: nat, k: nat, p: nat, key: int)
    requires |es| == NUM_QENT && |qs| <= NUM_QUEUE && i < |qs| && k <= |qs[i]| && p < NUM_PROC
    requires 0 <= Node(qs, i, k) < NUM_QENT && 0 <= Node(qs, i, k + 1) < NUM_QENT
    requires p != Node(qs, i, k) && p != Node(qs, i, k + 1) && Node(qs, i, k) != Node(qs, i, k + 1)
    requires AllEnds(es, |qs|) && InRange(qs[i])
    ensures AllEnds(Spliced(es, p, key, Node(qs, i, k), Node(qs, i, k + 1)), |qs|)
  {
    var es' := Spliced(es, p, key, Node(qs, i, k), Node(qs, i, k + 1));
    forall j | 0 <= j < |qs| ensures Ends(es', j) {
      assert Ends(es, j);
    }
  }

  /** Threading p between two neighbours of queue i keeps every queue linked. */
  lemma InsertLinks(es: seq<QueueEntry>, qs: Queues, at: seq<int>, i: nat, k: nat, p: nat, key: int)
    requires Linked(es, qs, at) && i < |qs| && k <= |qs[i]| && InRange(qs[i])
    requires p < NUM_PROC && at[p] == NULL && MIN_KEY < key <= MAX_KEY
    requires forall a :: 0 <= a < k ==> es[qs[i][a]].key >= key
    requires forall a :: k <= a < |qs[i]| ==> es[qs[i][a]].key < key
    ensures 0 <= Node(qs, i, k) < NUM_QENT && 0 <= Node(qs, i, k + 1) < NUM_QENT
    ensures Linked(Spliced(es, p, key, Node(qs, i, k), Node(qs, i, k + 1)),
                   qs[i := InsertAt(qs[i], k, p)], at[p := i])
  {
    NodeRange(qs, at, i, k);
    NodeRange(qs, at, i, k + 1);
    NodeInjective(qs, at, i, k, i, k + 1);
    var before, after := Node(qs, i, k), Node(qs, i, k + 1);
    var qs' := qs[i := InsertAt(qs[i], k, p)];
    var es' := Spliced(es, p, key, before, after);
    InsertMembers(qs, at, i, k, p);
    forall j, m | 0 <= j < |qs'| && 0 <= m <= |qs'[j]| ensures Joined(es', qs', j, m) {
      InsertJoined(es, qs, at, i, k, p, key, j, m);
    }
    var at' := at[p := i];
    forall r | 0 <= r < NUM_PROC ensures Row(es', at', r) {
      SplicedRows(es, at, p, key, before, after, i, r);
    }
    InsertEnds(es, qs, at, i, k, p, key);
    InsertAllSorted(es, es', qs, at, i, k, p);
  }

  /** Between two neighbours of a queue there is a gap for a pid on none. */
  lemma WalkGap(es: seq<QueueEntry>, qs: Queues, at: seq<int>, i: nat, k: nat, p: nat)
    requires Linked(es, qs, at) && i < |qs| && k <= |qs[i]| && p < NUM_PROC && at[p] == NULL
    ensures Gap(es, p, Node(qs, i, k), Node(qs, i, k + 1))
  {
    Advance(es, qs, at, i, k);
    hide Members, AllJoined, AllEnds, AllSorted;
  }

  /** InsertLinks with the place where keys say the pid belongs. */
  lemma SpliceLinks(es: seq<QueueEntry>, qs: Queues, at: seq<int>, keys: seq<int>, i: nat, k: nat, p: nat, key: int)
    requires Linked(es, qs, at) && i < |qs| && k <= |qs[i]| && InRange(qs[i]) && Keys(es, keys)
    requires p < NUM_PROC && at[p] == NULL && MIN_KEY < key <= MAX_KEY
    requires forall a :: 0 <= a < k ==> es[qs[i][a]].key >= key
    requires forall a :: k <= a < |qs[i]| ==> es[qs[i][a]].key < key
    ensures 0 <= Node(qs, i, k) < NUM_QENT && 0 <= Node(qs, i, k + 1) < NUM_QENT
    ensures Linked(Spliced(es, p, key, Node(qs, i, k), Node(qs, i, k + 1)),
                   qs[i := Insert(qs[i], p, key, keys[p := key])], at[p := i])
  {
    assert Members(qs, at);
    hide Linked, Members, Insert, InsertAt, Spliced, Node;
    InsertLinks(es, qs, at, i, k, p, key);
    EnqueueSlot(es, qs, at, keys, i, k, p, key);
  }

  /** What proc_enqueue leaves behind once its walk has stopped at row k of queue i. */
  lemma EnqueueLinks(es: seq<QueueEntry>, qs: Queues, at: seq<int>, keys: seq<int>, i: nat, k: nat, p: nat, key: int)
    requires Linked(es, qs, at) && i < |qs| && 1 <= k <= |qs[i]| + 1
    requires p < NUM_PROC && at[p] == NULL && MIN_KEY < key <= MAX_KEY
    requires Keys(es, keys) && InRange(qs[i])
    requires forall a :: 0 <= a < k - 1 ==> es[qs[i][a]].key >= key
    requires forall a :: k - 1 <= a < |qs[i]| ==> es[qs[i][a]].key < key
    ensures Gap(es, p, Node(qs, i, k - 1), Node(qs, i, k))
    ensures Linked(Spliced(es, p, key, Node(qs, i, k - 1), Node(qs, i, k)),
                   qs[i := Insert(qs[i], p, key, keys[p := key])], at[p := i])
  {
    WalkGap(es, qs, at, i, k - 1, p);
    SpliceLinks(es, qs, at, keys, i, k - 1, p, key);
  }

  /** Two rows joined to each other, neither of them p. */
  ghost predicate Gap(es: seq<QueueEntry>, p: nat, before: int, after: int) {
    Step(es, before, after) && p < |es| && p != before && p != after && before != after
  }

  lemma SplicedKeys(es: seq<QueueEntry>, keys: seq<int>, p: nat, key: int, before: int, after: int)
    requires Gap(es, p, before, after) && Keys(es, keys) && p < NUM_PROC
    ensures Keys(Spliced(es, p, key, before, after), keys[p := key])
  {
  }

  lemma EnqueueSlot(es: seq<QueueEntry>, qs: Queues, at: seq<int>, keys: seq<int>, i: nat, k: nat, p: nat, key: int)
    requires Members(qs, at) && i < |qs| && k <= |qs[i]| && InRange(qs[i]) && Keys(es, keys)
    requires p < NUM_PROC && at[p] == NULL
    requires forall a :: 0 <= a < k ==> es[qs[i][a]].key >= key
    requires forall a :: k <= a < |qs[i]| ==> es[qs[i][a]].key < key
    ensures Insert(qs[i], p, key, keys[p := key]) == InsertAt(qs[i], k, p)
  {
    assert forall a :: 0 <= a < |qs[i]| ==> at[qs[i][a]] == i;
    SlotUnique(qs[i], key, keys[p := key], k);
  }

  /** One step of a walk along queue i. */
  lemma Advance(es: seq<QueueEntry>, qs: Queues, at: seq<int>, i: nat, k: nat)
    requires |qs| <= NUM_QUEUE && Members(qs, at) && AllJoined(es, qs) && |es| == NUM_QENT
    requires i < |qs| && k <= |qs[i]|
    ensures Step(es, Node(qs, i, k), Node(qs, i, k + 1)) && Node(qs, i, k) != Node(qs, i, k + 1)
    ensures Node(qs, i, k) < NUM_PROC ==> at[Node(qs, i, k)] == i
    ensures Node(qs, i, k + 1) < NUM_PROC ==> at[Node(qs, i, k + 1)] == i
  {
    assert Joined(es, qs, i, k);
    NodeRange(qs, at, i, k);
    NodeRange(qs, at, i, k + 1);
    NodeInjective(qs, at, i, k, i, k + 1);
  }

  ghost predicate Keys(es: seq<QueueEntry>, keys: seq<int>) {
    |keys| == NUM_PROC <= |es| && forall p :: 0 <= p < NUM_PROC ==> keys[p] == es[p].key
  }

  lemma QueueFacts(es: seq<QueueEntry>, qs: Queues, at: seq<int>, i: nat)
    requires |es| == NUM_QENT && |qs| <= NUM_QUEUE && Members(qs, at) && i < |qs|
    requires AllEnds(es, |qs|) && AllSorted(es, qs)
    ensures InRange(qs[i]) && Ends(es, i) && Sorted(es, qs[i])
  {
  }

  lemma InsertAllSorted(es: seq<QueueEntry>, es': seq<QueueEntry>, qs: Queues, at: seq<int>, i: nat, k: nat, p: nat)
    requires Members(qs, at) && |es| == |es'| == NUM_QENT && i < |qs| && k <= |qs[i]|
    requires AllSorted(es, qs)
    requires p < NUM_PROC && at[p] == NULL
    requires forall x :: 0 <= x < |es| && x != p ==> es'[x].key == es[x].key
    requires forall a :: 0 <= a < k ==> es[qs[i][a]].key >= es'[p].key
    requires forall a :: k <= a < |qs[i]| ==> es[qs[i][a]].key < es'[p].key
    ensures AllSorted(es', qs[i := InsertAt(qs[i], k, p)])
  {
    var qs' := qs[i := InsertAt(qs[i], k, p)];
    forall j | 0 <= j < |qs| ensures Sorted(es', qs'[j]) {
      assert Sorted(es, qs[j]);
      assert forall a :: 0 <= a < |qs[j]| ==> at[qs[j][a]] == j;
      if j == i { InsertSorted(es, es', qs[i], k, p); } else { SortedElsewhere(es, es', qs[j]); }
    }
  }

  // ---- unthreading a process ----

  ghost function Unspliced(es: seq<QueueEntry>, p: nat): (r: seq<QueueEntry>)
    requires Neighbourly(es, p)
    ensures |r| == |es|
    ensures r[es[p].prev] == es[es[p].prev].(next := es[p].next)
    ensures r[es[p].next] == es[es[p].next].(prev := es[p].prev)
    ensures r[p] == es[p].(next := NULL, prev := NULL)
    ensures forall x :: 0 <= x < |es| && x != p && x != es[p].prev && x != es[p].next ==> r[x] == es[x]
  {
    es[es[p].prev := es[es[p].prev].(next := es[p].next)]
      [es[p].next := es[es[p].next].(prev := es[p].prev)]
      [p := es[p].(next := NULL, prev := NULL)]
  }

  lemma RemoveMembers(qs: Queues, at: seq<int>, i: nat, a: nat)
    requires Members(qs, at) && i < |qs| && a < |qs[i]|
    ensures Members(qs[i := RemoveAt(qs[i], a)], at[qs[i][a] := NULL])
  {
    var s := qs[i];
    var t := RemoveAt(s, a);
    var qs', at' := qs[i := t], at[s[a] := NULL];
    assert at[s[a]] == i;
    forall b | 0 <= b < |t| ensures t[b] < NUM_PROC && at'[t[b]] == i {
      assert at[s[if b < a then b else b + 1]] == i;
    }
    RemoveKeeps(s, a);
    RemoveDistinct(s, a);
  }

  lemma RemoveKeeps(s: seq<nat>, a: nat)
    requires a < |s|
    ensures forall r :: r in s && r != s[a] ==> r in RemoveAt(s, a)
  {
    forall r | r in s && r != s[a] ensures r in RemoveAt(s, a) {
      var b :| 0 <= b < |s| && s[b] == r;
      assert RemoveAt(s, a)[if b < a then b else b - 1] == r;
    }
  }

  lemma RemoveDistinct(s: seq<nat>, a: nat)
    requires a < |s| && forall b, c :: 0 <= b < c < |s| ==> s[b] != s[c]
    ensures forall b, c :: 0 <= b < c < |s| - 1 ==> RemoveAt(s, a)[b] != RemoveAt(s, a)[c]
  {
    var t := RemoveAt(s, a);
    forall b, c | 0 <= b < c < |t| ensures t[b] != t[c] {
      assert t[b] == s[if b < a then b else b + 1] && t[c] == s[if c < a then c else c + 1];
    }
  }

  lemma RemoveNodes(qs: Queues, i: nat, a: nat, j: nat, m: nat)
    requires i < |qs| && a < |qs[i]| && j < |qs|
    requires m <= |qs[i := RemoveAt(qs[i], a)][j]| + 1
    ensures Node(qs[i := RemoveAt(qs[i], a)], j, m) == Node(qs, j, if j != i || m <= a then m else m + 1)
  {
  }

  /** The link fields of a queued process name its two neighbours. */
  lemma Neighbours(es: seq<QueueEntry>, qs: Queues, at: seq<int>, i: nat, a: nat)
    requires Linked(es, qs, at) && i < |qs| && a < |qs[i]|
    ensures Neighbourly(es, qs[i][a]) && qs[i][a] < NUM_PROC && at[qs[i][a]] == i
    ensures es[qs[i][a]].prev == Node(qs, i, a) && es[qs[i][a]].next == Node(qs, i, a + 2)
  {
    assert Joined(es, qs, i, a) && Joined(es, qs, i, a + 1);
    NodeRange(qs, at, i, a + 1);
    NodeInjective(qs, at, i, a, i, a + 1);
    NodeInjective(qs, at, i, a + 1, i, a + 2);
    NodeInjective(qs, at, i, a, i, a + 2);
  }

  lemma UnsplicedSteps(es: seq<QueueEntry>, p: nat, x: int, y: int)
    requires Neighbourly(es, p) && Step(es, x, y) && x != p && y != p
    requires x != es[p].prev && y != es[p].next
    ensures Step(Unspliced(es, p), x, y)
  {
  }

  lemma RemoveJoined(es: seq<QueueEntry>, qs: Queues, at: seq<int>, i: nat, a: nat, j: nat, m: nat)
    requires Members(qs, at) && AllJoined(es, qs) && i < |qs| && a < |qs[i]| && j < |qs|
    requires m <= |qs[i := RemoveAt(qs[i], a)][j]|
    requires Neighbourly(es, qs[i][a])
    requires es[qs[i][a]].prev == Node(qs, i, a) && es[qs[i][a]].next == Node(qs, i, a + 2)
    ensures Joined(Unspliced(es, qs[i][a]), qs[i := RemoveAt(qs[i], a)], j, m)
  {
    RemoveNodes(qs, i, a, j, m);
    RemoveNodes(qs, i, a, j, m + 1);
    if !(j == i && m == a) {
      RemoveStep(es, qs, at, i, a, j, if j != i || m <= a then m else m + 1);
    }
  }

  lemma RemoveStep(es: seq<QueueEntry>, qs: Queues, at: seq<int>, i: nat, a: nat, j: nat, n: nat)
    requires Members(qs, at) && AllJoined(es, qs) && i < |qs| && a < |qs[i]| && j < |qs|
    requires n <= |qs[j]| && (j != i || (n != a && n != a + 1))
    requires Neighbourly(es, qs[i][a])
    requires es[qs[i][a]].prev == Node(qs, i, a) && es[qs[i][a]].next == Node(qs, i, a + 2)
    ensures Step(Unspliced(es, qs[i][a]), Node(qs, j, n), Node(qs, j, n + 1))
  {
    assert Joined(es, qs, j, n);
    assert Node(qs, i, a + 1) == qs[i][a];
    NodeInjective(qs, at, j, n, i, a);
    NodeInjective(qs, at, j, n, i, a + 1);
    NodeInjective(qs, at, j, n + 1, i, a + 1);
    NodeInjective(qs, at, j, n + 1, i, a + 2);
    UnsplicedSteps(es, qs[i][a], Node(qs, j, n), Node(qs, j, n + 1));
  }

  ghost predicate Neighbourly(es: seq<QueueEntry>, p: nat) {
    && p < |es| && 0 <= es[p].prev < |es| && 0 <= es[p].next < |es|
    && p != es[p].prev && p != es[p].next && es[p].prev != es[p].next
  }

  lemma RemoveAllSorted(es: seq<QueueEntry>, es': seq<QueueEntry>, qs: Queues, i: nat, a: nat)
    requires |es| == |es'| && i < |qs| && a < |qs[i]|
    requires AllSorted(es, qs)
    requires forall x :: 0 <= x < |es| ==> es'[x].key == es[x].key
    ensures AllSorted(es', qs[i := RemoveAt(qs[i], a)])
  {
    var qs' := qs[i := RemoveAt(qs[i], a)];
    forall j | 0 <= j < |qs| ensures Sorted(es', qs'[j]) {
      assert Sorted(es, qs[j]);
    }
  }

  lemma UnsplicedRows(es: seq<QueueEntry>, at: seq<int>, p: nat, i: nat, r: nat)
    requires |es| == NUM_QENT && |at| == NUM_PROC && p < NUM_PROC && r < NUM_PROC
    requires Neighbourly(es, p) && Row(es, at, r)
    requires es[p].prev < NUM_PROC ==> at[es[p].prev] == i
    requires es[p].next < NUM_PROC ==> at[es[p].next] == i
    ensures Row(Unspliced(es, p), at[p := NULL], r)
  {
  }

  /** Unthreading the pid at position a of queue i keeps every queue linked. */
  lemma RemoveLinks(es: seq<QueueEntry>, qs: Queues, at: seq<int>, i: nat, a: nat)
    requires Linked(es, qs, at) && i < |qs| && a < |qs[i]|
    ensures Neighbourly(es, qs[i][a])
    ensures Linked(Unspliced(es, qs[i][a]), qs[i := RemoveAt(qs[i], a)], at[qs[i][a] := NULL])
  {
    var p := qs[i][a];
    Neighbours(es, qs, at, i, a);
    var qs', es' := qs[i := RemoveAt(qs[i], a)], Unspliced(es, p);
    RemoveMembers(qs, at, i, a);
    NodeRange(qs, at, i, a);
    NodeRange(qs, at, i, a + 2);
    forall j, m | 0 <= j < |qs'| && 0 <= m <= |qs'[j]| ensures Joined(es', qs', j, m) {
      RemoveJoined(es, qs, at, i, a, j, m);
    }
    var at' := at[p := NULL];
    forall r | 0 <= r < NUM_PROC ensures Row(es', at', r) {
      UnsplicedRows(es, at, p, i, r);
    }
    forall j | 0 <= j < |qs'| ensures Ends(es', j) {
      assert Ends(es, j);
    }
    RemoveAllSorted(es, es', qs, i, a);
  }

  // ---- opening a queue ----

  lemma NewLinks(es: seq<QueueEntry>, es': seq<QueueEntry>, qs: Queues, at: seq<int>)
    requires Linked(es, qs, at) && |qs| < NUM_QUEUE && |es'| == NUM_QENT
    requires forall x :: 0 <= x < NUM_QENT && x != Head(|qs|) && x != Tail(|qs|) ==> es'[x] == es[x]
    requires Ends(es', |qs|) && Step(es', Head(|qs|), Tail(|qs|))
    ensures Linked(es', qs + [[]], at)
  {
    var qs' := qs + [[]];
    forall i, k | 0 <= i < |qs'| && 0 <= k <= |qs'[i]| ensures Joined(es', qs', i, k) {
      if i < |qs| {
        assert Joined(es, qs, i, k);
        NodeRange(qs, at, i, k);
        NodeRange(qs, at, i, k + 1);
        assert Node(qs', i, k) == Node(qs, i, k) && Node(qs', i, k + 1) == Node(qs, i, k + 1);
      }
    }
    forall i | 0 <= i < |qs'| ensures Ends(es', i) {
      if i < |qs| { assert Ends(es, i); }
    }
    forall p | 0 <= p < NUM_PROC ensures Row(es', at, p) {
      assert Row(es, at, p);
    }
    forall i | 0 <= i < |qs'| ensures Sorted(es', qs'[i]) {
      if i < |qs| {
        assert forall a :: 0 <= a < |qs[i]| ==> at[qs[i][a]] == i;
        SortedElsewhere(es, es', qs[i]);
      }
    }
  }

  // ---- the C functions ----

  class ProcQueues {
    const entries: array<QueueEntry>
    var currQueueId: int
    ghost var qs: Queues
    ghost var at: seq<int>
    ghost var keys: seq<int>

    ghost predicate Valid()
      reads this, entries
    {
      && entries.Length == NUM_QENT && |at| == NUM_PROC
      && currQueueId == NUM_PROC + 2 * |qs|
      && Keys(entries[..], keys)
      && Linked(entries[..], qs, at)
    }

    constructor ()
      ensures Valid() && fresh(entries) && qs == [] && at == seq(NUM_PROC, _ => NULL)
    {
      entries := new QueueEntry[NUM_QENT](_ => QueueEntry(0, 0, NULL, NULL));
      currQueueId := NUM_PROC;
      qs, at, keys := [], seq(NUM_PROC, _ => NULL), seq(NUM_PROC, _ => 0);
    }

    /** NULL once the table is used up, else the head of a fresh empty queue. */
    method NewQueue() returns (queue: int)
      requires Valid()
      modifies this, entries
      ensures Valid() && at == old(at) && keys == old(keys)
      ensures if old(|qs|) == NUM_QUEUE then queue == NULL && qs == old(qs)
              else queue == Head(old(|qs|)) && qs == old(qs) + [[]]
    {
      if currQueueId + 1 >= NUM_QENT { return NULL; }
      var h, t := currQueueId, currQueueId + 1;
      currQueueId := currQueueId + 2;
      ghost var es0 := entries[..];
      entries[h] := QueueEntry(MAX_KEY, entries[h].pid, NULL, t);
      entries[t] := QueueEntry(MIN_KEY, entries[t].pid, h, NULL);
      NewLinks(es0, entries[..], qs, at);
      qs := qs + [[]];
      queue := h;
    }

    /** Walks past every key not below `key`, so equal keys stay first come, first served.
        A process met on the way is already queued there and is left alone. */
    method Enqueue(queue: nat, pid: nat, key: int)
      requires Valid() && queue < |qs| && pid < NUM_PROC && MIN_KEY < key <= MAX_KEY
      requires at[pid] == NULL || (at[pid] == queue && keys[pid] == key)
      modifies this`qs, this`at, this`keys, entries
      ensures Valid() && keys == old(keys)[pid := key] && at == old(at)[pid := queue]
      ensures InRange(old(qs)[queue])
      ensures qs == if old(at)[pid] == queue then old(qs)
                    else old(qs)[queue := Insert(old(qs)[queue], pid, key, keys)]
    {
      hide Insert, InsertAt, Spliced, AllEnds, AllSorted, AllJoined, Members;
      ghost var es0 := entries[..];
      entries[pid] := entries[pid].(pid := pid, key := key);
      var itr, met, k := FindSlot(queue, pid, key, es0);
      if met {
        MetAgain(es0, at, keys, queue, pid, key);
        return;
      }
      EnqueueLinks(es0, qs, at, keys, queue, k, pid, key);
      SplicedKeys(es0, keys, pid, key, Node(qs, queue, k - 1), itr);
      Thread(itr, pid, key, es0, Node(qs, queue, k - 1));
      keys := keys[pid := key];
      qs := qs[queue := Insert(qs[queue], pid, key, keys)];
      at := at[pid := queue];
    }

    /** The four link assignments of proc_enqueue: pid goes in just before row `itr`. */
    method Thread(itr: int, pid: nat, key: int, ghost es0: seq<QueueEntry>, ghost before: int)
      requires Gap(es0, pid, before, itr)
      requires entries[..] == es0[pid := es0[pid].(pid := pid, key := key)]
      modifies entries
      ensures entries[..] == Spliced(es0, pid, key, before, itr)
    {
      entries[pid] := entries[pid].(next := entries[entries[itr].prev].next);
      entries[entries[itr].prev] := entries[entries[itr].prev].(next := pid);
      entries[pid] := entries[pid].(prev := entries[itr].prev);
      entries[itr] := entries[itr].(prev := pid);
    }

    /** The search loop of proc_enqueue: stops at the first row whose key is below `key`,
        or at the row of pid itself. */
    method FindSlot(queue: nat, pid: nat, key: int, ghost es0: seq<QueueEntry>)
      returns (itr: int, met: bool, ghost k: nat)
      requires |es0| == NUM_QENT && |qs| <= NUM_QUEUE && Members(qs, at) && AllJoined(es0, qs)
      requires AllEnds(es0, |qs|) && AllSorted(es0, qs)
      requires queue < |qs| && pid < NUM_PROC && |at| == NUM_PROC && MIN_KEY < key <= MAX_KEY
      requires at[pid] == NULL || (at[pid] == queue && es0[pid].key == key)
      requires entries.Length == NUM_QENT && entries[..] == es0[pid := es0[pid].(pid := pid, key := key)]
      ensures InRange(qs[queue]) && (met <==> at[pid] == queue)
      ensures !met ==> 1 <= k <= |qs[queue]| + 1 && itr == Node(qs, queue, k) && 0 <= itr < NUM_QENT && itr != pid
      ensures !met ==> forall a :: 0 <= a < k - 1 ==> es0[qs[queue][a]].key >= key
      ensures !met ==> forall a :: k - 1 <= a < |qs[queue]| ==> es0[qs[queue][a]].key < key
    {
      hide AllEnds, AllSorted, AllJoined, Members;
      ghost var s := qs[queue];
      QueueFacts(es0, qs, at, queue);
      itr := Head(queue);
      k := 0;
      while entries[itr].key >= key
        invariant 0 <= k <= |s| + 1 && itr == Node(qs, queue, k) && 0 <= itr < NUM_QENT
        invariant itr == pid ==> at[pid] == queue
        invariant forall a :: 0 <= a < k - 1 && a < |s| ==> es0[s[a]].key >= key && s[a] != pid
        decreases |s| + 1 - k
      {
        if itr == pid { return itr, true, k; }
        Advance(es0, qs, at, queue, k);
        itr := entries[itr].next;
        k := k + 1;
      }
      met := false;
      NotMet(es0, qs, at, queue, k, pid, key);
    }

    /** Takes pid off whichever queue holds it; nothing happens when none does. */
    method Remove(pid: nat)
      requires Valid() && pid < NUM_PROC
      modifies this`qs, this`at, entries
      ensures Valid() && keys == old(keys)
      ensures at == old(at)[pid := NULL]
      ensures old(at)[pid] != NULL ==> 0 <= old(at)[pid] < |old(qs)|
      ensures qs == if old(at)[pid] == NULL then old(qs)
                    else old(qs)[old(at)[pid] := Without(old(qs)[old(at)[pid]], pid)]
    {
      hide RemoveAt, Without, AllEnds, AllSorted, AllJoined;
      ghost var es0 := entries[..];
      assert Row(es0, at, pid);
      ghost var a := Position(es0, qs, at, pid);
      if entries[pid].next == NULL || entries[pid].prev == NULL {
        return;
      }
      RemoveLinks(es0, qs, at, at[pid], a);
      WithoutAt(qs[at[pid]], a);
      entries[entries[pid].prev] := entries[entries[pid].prev].(next := entries[pid].next);
      entries[entries[pid].next] := entries[entries[pid].next].(prev := entries[pid].prev);
      entries[pid] := entries[pid].(next := NULL);
      entries[pid] := entries[pid].(prev := NULL);
      assert entries[..] == Unspliced(es0, pid);
      qs, at := qs[at[pid] := RemoveAt(qs[at[pid]], a)], at[pid := NULL];
    }

    method Empty(queue: nat) returns (empty: bool)
      requires Valid() && queue < |qs|
      ensures empty <==> qs[queue] == []
    {
      FirstRow(entries[..], qs, at, queue);
      empty := entries[entries[Head(queue)].next].next == NULL;
    }

    /** The longest-waiting pid of the greatest key, or the null process when empty. */
    method Dequeue(queue: nat) returns (pid: nat)
      requires Valid() && queue < |qs|
      modifies this`qs, this`at, entries
      ensures Valid() && keys == old(keys)
      ensures if old(qs)[queue] == [] then pid == NULL_PROC && qs == old(qs) && at == old(at)
              else pid == old(qs)[queue][0] && pid < NUM_PROC
                   && qs == old(qs)[queue := old(qs)[queue][1..]] && at == old(at)[pid := NULL]
    {
      hide AllEnds, AllSorted, AllJoined, Members;
      ghost var es0 := entries[..];
      FirstRow(es0, qs, at, queue);
      var first := entries[Head(queue)].next;
      if entries[first].next == NULL { return NULL_PROC; }
      RemoveLinks(es0, qs, at, queue, 0);
      entries[entries[first].next] := entries[entries[first].next].(prev := entries[first].prev);
      entries[entries[first].prev] := entries[entries[first].prev].(next := entries[first].next);
      entries[first] := entries[first].(next := NULL);
      entries[first] := entries[first].(prev := NULL);
      assert entries[..] == Unspliced(es0, first);
      assert RemoveAt(qs[queue], 0) == qs[queue][1..];
      qs, at := qs[queue := qs[queue][1..]], at[first := NULL];
      pid := entries[first].pid;
    }
  }

  /** A walk that stopped at a smaller key without meeting p shows p is not on the queue. */
  lemma NotMet(es: seq<QueueEntry>, qs: Queues, at: seq<int>, i: nat, k: nat, p: nat, key: int)
    requires |es| == NUM_QENT && |qs| <= NUM_QUEUE && Members(qs, at) && i < |qs| && Sorted(es, qs[i])
    requires 1 <= k <= |qs[i]| + 1 && p < NUM_PROC
    requires at[p] == i ==> es[p].key == key
    requires forall a :: 0 <= a < k - 1 ==> qs[i][a] != p
    requires k <= |qs[i]| ==> es[qs[i][k - 1]].key < key
    ensures at[p] != i
    ensures forall a :: k - 1 <= a < |qs[i]| ==> es[qs[i][a]].key < key
  {
  }

  lemma MetAgain(es: seq<QueueEntry>, at: seq<int>, keys: seq<int>, i: nat, p: nat, key: int)
    requires |es| == NUM_QENT && |at| == NUM_PROC && p < NUM_PROC && Row(es, at, p) && Keys(es, keys)
    requires at[p] == i && keys[p] == key
    ensures es[p := es[p].(pid := p, key := key)] == es && at[p := i] == at && keys[p := key] == keys
  {
  }

  lemma Position(es: seq<QueueEntry>, qs: Queues, at: seq<int>, p: nat) returns (a: nat)
    requires Linked(es, qs, at) && p < NUM_PROC
    ensures at[p] != NULL ==> 0 <= at[p] < |qs| && a < |qs[at[p]]| && qs[at[p]][a] == p
    ensures at[p] != NULL ==> es[p].next != NULL && es[p].prev != NULL
  {
    a := 0;
    if at[p] != NULL {
      a :| 0 <= a < |qs[at[p]]| && qs[at[p]][a] == p;
      Neighbours(es, qs, at, at[p], a);
    }
  }

  lemma FirstRow(es: seq<QueueEntry>, qs: Queues, at: seq<int>, i: nat)
    requires Linked(es, qs, at) && i < |qs|
    ensures 0 <= es[Head(i)].next < NUM_QENT
    ensures es[es[Head(i)].next].next == NULL <==> qs[i] == []
    ensures qs[i] != [] ==> es[Head(i)].next == qs[i][0] && qs[i][0] < NUM_PROC && es[qs[i][0]].pid == qs[i][0]
  {
    assert Joined(es, qs, i, 0) && Ends(es, i);
    if qs[i] != [] {
      assert Joined(es, qs, i, 1) && Node(qs, i, 1) == qs[i][0];
      assert at[qs[i][0]] == i && Row(es, at, qs[i][0]);
    }
  }
}
