/** The invariant of the kernel: where every process is, how every queue is ordered, what
    the counts, flags and wake times mean. Each primitive and each entry point keeps it. */
module KernelInv {
  import opened Config
  import opened ProcQueue
  import opened SleepList
  import opened KernelState

  // ---- the invariant ----

  /** The status of a process says exactly where it is. AVAIL off the avail list is a
      process created but not yet made available. */
  ghost predicate Placed(k: Kernel, p: nat)
    requires Shape(k) && p < NUM_PROC
  {
    match k.status[p]
    case Unused | Unavail | Curr => k.at[p] == NULL && p !in k.sleepers
    case Avail => (k.at[p] == AVAIL_LIST || k.at[p] == NULL) && p !in k.sleepers
    case OnSem => 1 <= k.at[p] <= NSEM && p !in k.sleepers
    case OnCond => IsCondQueue(k.at[p]) && p !in k.sleepers
    case Timed => (k.at[p] == NULL || IsCondQueue(k.at[p])) && p in k.sleepers
  }

  ghost predicate PlacedBut(k: Kernel, x: int)
    requires Shape(k)
  {
    forall p :: 0 <= p < NUM_PROC && p != x ==> Placed(k, p)
  }

  /** x is served before y: higher priority, or the same and queued earlier. */
  predicate Before(k: Kernel, x: nat, y: nat)
    requires Shape(k) && x < NUM_PROC && y < NUM_PROC
  {
    k.prio[x] > k.prio[y] || (k.prio[x] == k.prio[y] && k.stamp[x] < k.stamp[y])
  }

  ghost predicate Fifo(k: Kernel, s: seq<nat>)
    requires Shape(k)
  {
    InRange(s) && forall a, b :: 0 <= a < b < |s| ==> Before(k, s[a], s[b])
  }

  ghost predicate Queued(k: Kernel)
    requires Shape(k)
  {
    && Members(k.q, k.at)
    && (forall i :: 0 <= i < NUM_QUEUE ==> Fifo(k, k.q[i]))
    && (forall p :: 0 <= p < NUM_PROC && k.at[p] != NULL ==> k.stamp[p] < k.clock)
  }

  ghost predicate Asleep(k: Kernel)
    requires Shape(k)
  {
    Distinct(k.sleepers) && DueOrder(k.sleepers, k.due) && InHorizon(k.sleepers, k.due, k.now)
  }

  ghost predicate PrioOk(k: Kernel)
    requires Shape(k)
  {
    forall p :: 0 <= p < NUM_PROC ==> MIN_KEY < k.prio[p] <= MAX_KEY
  }

  /** Process x is on no queue and not asleep. */
  predicate Idle(k: Kernel, x: nat)
    requires Shape(k) && x < NUM_PROC
  {
    k.at[x] == NULL && x !in k.sleepers
  }

  /** Queues, sleep list and statuses agree for every process but x, which is in hand:
      taken off its queue and not yet put anywhere (no process when x is NULL). */
  ghost predicate Struct(k: Kernel, x: int) {
    && Shape(k) && Queued(k) && Asleep(k) && PrioOk(k) && PlacedBut(k, x)
    && (x == NULL || (0 <= x < NUM_PROC && Idle(k, x)))
  }

  ghost predicate OnlyCurr(k: Kernel)
    requires Shape(k)
  {
    forall p :: 0 <= p < NUM_PROC && k.status[p] == Curr ==> p == k.curr
  }

  /** The null process is either running or on the avail list. */
  predicate NullReady(k: Kernel)
    requires Shape(k)
  {
    (k.status[NULL_PROC] == Curr && k.curr == NULL_PROC)
        || (k.status[NULL_PROC] == Avail && k.at[NULL_PROC] == AVAIL_LIST)
  }

  /** Before the first sched the null process runs from the avail list. */
  predicate Booting(k: Kernel)
    requires Shape(k)
  {
    k.curr == NULL_PROC && k.status[NULL_PROC] == Avail && k.at[NULL_PROC] == AVAIL_LIST
  }

  ghost predicate Running(k: Kernel)
    requires Shape(k)
  {
    OnlyCurr(k) && NullReady(k) && (k.status[k.curr] == Curr || Booting(k))
  }

  /** A negative count is minus the number of waiters; otherwise nobody waits. */
  predicate SemOk(k: Kernel)
    requires Shape(k)
  {
    forall s :: 0 <= s < NSEM ==> |k.q[SemQueue(s)]| == if k.count[s] < 0 then -k.count[s] else 0
  }

  /** A ready process that outranks the running one has asked for a reschedule. */
  ghost predicate Alert(k: Kernel)
    requires Shape(k)
  {
    forall p :: 0 <= p < NUM_PROC && k.at[p] == AVAIL_LIST && k.prio[p] > k.prio[k.curr] ==> k.needResched
  }

  /** A flagged cond with waiters will be looked at by the next tick. */
  predicate Flagged(k: Kernel)
    requires Shape(k)
  {
    forall c :: 0 <= c < NCOND && k.pending[c] && k.q[CondQueue(c)] != [] ==> k.nmiPending
  }

  predicate Punctual(k: Kernel)
    requires Shape(k)
  {
    forall a :: 0 <= a < |k.sleepers| ==> k.now <= k.due[k.sleepers[a]]
  }

  ghost predicate KInv(k: Kernel) {
    Struct(k, NULL) && Running(k) && SemOk(k) && Alert(k) && Flagged(k) && Punctual(k)
  }

  // ---- queues ----

  lemma QueuedAt(k: Kernel, i: nat)
    requires Shape(k) && Members(k.q, k.at) && i < NUM_QUEUE
    ensures forall a :: 0 <= a < |k.q[i]| ==> k.q[i][a] < NUM_PROC && k.at[k.q[i][a]] == i
  {
  }

  lemma FifoFrame(k: Kernel, r: Kernel, s: seq<nat>)
    requires Shape(k) && Shape(r) && Fifo(k, s)
    requires forall a :: 0 <= a < |s| ==> r.prio[s[a]] == k.prio[s[a]] && r.stamp[s[a]] == k.stamp[s[a]]
    ensures Fifo(r, s)
  {
    forall a, b | 0 <= a < b < |s| ensures Before(r, s[a], s[b]) {
      assert Before(k, s[a], s[b]);
    }
  }

  lemma FifoRemove(k: Kernel, s: seq<nat>, a: nat)
    requires Shape(k) && Fifo(k, s) && a < |s|
    ensures Fifo(k, RemoveAt(s, a))
  {
    hide RemoveAt;
    var t := RemoveAt(s, a);
    forall b, c | 0 <= b < c < |t| ensures t[b] < NUM_PROC && t[c] < NUM_PROC && Before(k, t[b], t[c]) {
      assert t[b] == s[if b < a then b else b + 1] && t[c] == s[if c < a then c else c + 1];
    }
    forall b | 0 <= b < |t| ensures t[b] < NUM_PROC {
      assert t[b] == s[if b < a then b else b + 1];
    }
  }

  /** Behind the slot every priority is lower. */
  lemma BehindSlot(k: Kernel, s: seq<nat>, key: int, a: nat)
    requires Shape(k) && Fifo(k, s) && Slot(s, key, k.prio) <= a < |s|
    ensures k.prio[s[a]] < key
  {
    var m := Slot(s, key, k.prio);
    if m < a { assert Before(k, s[m], s[a]); }
  }

  lemma EnqFifo(k: Kernel, i: nat, p: nat)
    requires Shape(k) && i < NUM_QUEUE && p < NUM_PROC && Fifo(k, k.q[i]) && p !in k.q[i]
    requires forall a :: 0 <= a < |k.q[i]| ==> k.stamp[k.q[i][a]] < k.clock
    ensures Fifo(Enq(k, i, p), Enq(k, i, p).q[i])
  {
    hide InsertAt, Slot;
    var r, s := Enq(k, i, p), k.q[i];
    var m := Slot(s, k.prio[p], k.prio);
    var t := InsertAt(s, m, p);
    InsertInRange(s, m, p);
    forall a, b | 0 <= a < b < |t| ensures Before(r, t[a], t[b]) {
      assert t[a] == (if a < m then s[a] else if a == m then p else s[a - 1]);
      assert t[b] == (if b < m then s[b] else if b == m then p else s[b - 1]);
      if a == m {
        BehindSlot(k, s, k.prio[p], b - 1);
      } else if b != m {
        assert Before(k, s[if a < m then a else a - 1], s[if b < m then b else b - 1]);
        assert t[a] in s && t[b] in s;
      } else {
        assert t[a] in s;
      }
    }
  }

  lemma EnqQueued(k: Kernel, i: nat, p: nat)
    requires Shape(k) && Queued(k) && i < NUM_QUEUE && p < NUM_PROC && k.at[p] == NULL
    ensures Queued(Enq(k, i, p))
  {
    var r := Enq(k, i, p);
    InsertMembers(k.q, k.at, i, Slot(k.q[i], k.prio[p], k.prio), p);
    hide InsertAt, Slot;
    forall j | 0 <= j < NUM_QUEUE ensures Fifo(r, r.q[j]) {
      QueuedAt(k, j);
      assert Fifo(k, k.q[j]);
      hide Members;
      if j == i { EnqFifo(k, i, p); } else { FifoFrame(k, r, k.q[j]); }
    }
  }

  lemma DeqQueued(k: Kernel, i: nat)
    requires Shape(k) && Queued(k) && i < NUM_QUEUE
    ensures Queued(Deq(k, i))
  {
    if k.q[i] != [] {
      RemoveQueued(k, i, 0);
      assert RemoveAt(k.q[i], 0) == k.q[i][1..];
    }
  }

  lemma RemoveQueued(k: Kernel, i: nat, a: nat)
    requires Shape(k) && Queued(k) && i < NUM_QUEUE && a < |k.q[i]|
    ensures var r := k.(q := k.q[i := RemoveAt(k.q[i], a)], at := k.at[k.q[i][a] := NULL]);
            Shape(r) && Queued(r)
  {
    var r := k.(q := k.q[i := RemoveAt(k.q[i], a)], at := k.at[k.q[i][a] := NULL]);
    RemoveMembers(k.q, k.at, i, a);
    hide RemoveAt, Members;
    FifoRemove(k, k.q[i], a);
    forall j | 0 <= j < NUM_QUEUE ensures Fifo(r, r.q[j]) {
      assert Fifo(k, k.q[j]);
      if j == i { FifoFrame(k, r, r.q[i]); } else { FifoFrame(k, r, k.q[j]); }
    }
  }

  lemma UnqueueQueued(k: Kernel, p: nat)
    requires Shape(k) && Queued(k) && p < NUM_PROC
    ensures Queued(Unqueue(k, p)) && Unqueue(k, p).at == k.at[p := NULL]
  {
    if k.at[p] != NULL {
      var i := k.at[p];
      var a :| 0 <= a < |k.q[i]| && k.q[i][a] == p;
      RemoveQueued(k, i, a);
      QueuedAt(k, i);
      assert Fifo(k, k.q[i]);
      FifoDistinct(k, k.q[i]);
      hide Queued, Fifo, Members;
      WithoutAt(k.q[i], a);
    }
  }

  lemma FifoDistinct(k: Kernel, s: seq<nat>)
    requires Shape(k) && Fifo(k, s)
    ensures forall b, c :: 0 <= b < c < |s| ==> s[b] != s[c]
  {
    forall b, c | 0 <= b < c < |s| ensures s[b] != s[c] {
      assert Before(k, s[b], s[c]);
    }
  }

  // ---- moving one process ----

  /** The flags, counts and the running pid play no part in Struct. */
  lemma StructFrame(k: Kernel, r: Kernel, x: int)
    requires Struct(k, x) && Shape(r)
    requires r.status == k.status && r.prio == k.prio && r.q == k.q && r.at == k.at && r.stamp == k.stamp
    requires r.clock == k.clock && r.sleepers == k.sleepers && r.due == k.due && r.now == k.now
    ensures Struct(r, x)
  {
    forall i | 0 <= i < NUM_QUEUE ensures Fifo(r, r.q[i]) {
      assert Fifo(k, k.q[i]);
      FifoFrame(k, r, k.q[i]);
    }
    hide Fifo, Members;
    forall p | 0 <= p < NUM_PROC && p != x ensures Placed(r, p) {
      assert Placed(k, p);
    }
  }

  /** Putting the process in hand on a queue its status allows. */
  lemma EnqStruct(k: Kernel, i: nat, p: nat)
    requires Struct(k, p) && 0 <= p < NUM_PROC && i < NUM_QUEUE
    requires match k.status[p]
             case Avail => i == AVAIL_LIST
             case OnSem => 1 <= i <= NSEM
             case OnCond => IsCondQueue(i)
             case _ => false
    ensures Struct(Enq(k, i, p), NULL)
  {
    hide Queued, Asleep, PrioOk, Enq, Insert, InsertAt;
    EnqQueued(k, i, p);
    EnqFrame(k, i, p);
    var r := Enq(k, i, p);
    forall x | 0 <= x < NUM_PROC ensures Placed(r, x) {
      if x != p { assert Placed(k, x); }
    }
  }

  /** What Enq leaves alone. */
  lemma EnqFrame(k: Kernel, i: nat, p: nat)
    requires Shape(k) && i < NUM_QUEUE && p < NUM_PROC
    ensures var r := Enq(k, i, p);
            && r.at == k.at[p := i] && r.status == k.status && r.prio == k.prio && r.curr == k.curr
            && r.sleepers == k.sleepers && r.due == k.due && r.now == k.now && r.count == k.count
            && r.pending == k.pending && r.nmiPending == k.nmiPending && r.needResched == k.needResched
            && r.timedOut == k.timedOut
            && (forall j :: 0 <= j < NUM_QUEUE && j != i ==> r.q[j] == k.q[j])
            && |r.q[i]| == |k.q[i]| + 1
            && (Asleep(k) ==> Asleep(r)) && (PrioOk(k) ==> PrioOk(r))
  {
    hide InsertAt, Slot;
  }

  lemma DeqStruct(k: Kernel, i: nat)
    requires Struct(k, NULL) && i < NUM_QUEUE && k.q[i] != []
    requires k.status[k.q[i][0]] != Timed
    ensures Struct(Deq(k, i), k.q[i][0])
  {
    QueuedAt(k, i);
    DeqQueued(k, i);
    DeqPlaced(k, i);
    hide Queued, PlacedBut;
  }

  lemma DeqPlaced(k: Kernel, i: nat)
    requires Struct(k, NULL) && i < NUM_QUEUE && k.q[i] != [] && k.q[i][0] < NUM_PROC && k.at[k.q[i][0]] == i
    requires k.status[k.q[i][0]] != Timed
    ensures PlacedBut(Deq(k, i), k.q[i][0]) && Idle(Deq(k, i), k.q[i][0])
  {
    hide Queued, Asleep, PrioOk;
    var r, p := Deq(k, i), k.q[i][0];
    assert Placed(k, p);
    forall x | 0 <= x < NUM_PROC && x != p ensures Placed(r, x) {
      assert Placed(k, x);
    }
  }

  lemma MakeAvailStruct(k: Kernel, p: nat)
    requires Struct(k, p) && 0 <= p < NUM_PROC
    ensures Struct(MakeAvail(k, p), NULL)
  {
    var k1 := SetStatus(k, p, Avail);
    assert Struct(k1, p) by { SetStatusStruct(k, p, Avail); }
    EnqStruct(k1, AVAIL_LIST, p);
    hide Queued, Asleep, Enq;
    var k2 := Enq(k1, AVAIL_LIST, p);
    StructFrame(k2, MakeAvail(k, p), NULL);
  }

  lemma SetStatusStruct(k: Kernel, p: nat, st: Status)
    requires Struct(k, p) && 0 <= p < NUM_PROC
    ensures Struct(SetStatus(k, p, st), p)
  {
    var r := SetStatus(k, p, st);
    assert Queued(r) by {
      forall i | 0 <= i < NUM_QUEUE ensures Fifo(r, r.q[i]) { assert Fifo(k, k.q[i]); FifoFrame(k, r, k.q[i]); }
    }
    hide Queued;
    forall x | 0 <= x < NUM_PROC && x != p ensures Placed(r, x) {
      assert Placed(k, x);
    }
  }

  /** A process that is nowhere can be taken in hand. */
  lemma TakeInHand(k: Kernel, p: nat)
    requires Struct(k, NULL) && p < NUM_PROC && Idle(k, p)
    ensures Struct(k, p)
  {
    hide Queued, Asleep, PrioOk;
    forall x | 0 <= x < NUM_PROC && x != p ensures Placed(k, x) {
    }
  }

  /** A process whose status says where it is need not be in hand. */
  lemma Settle(k: Kernel, p: nat)
    requires p < NUM_PROC && Struct(k, p) && Placed(k, p)
    ensures Struct(k, NULL)
  {
    hide Queued, Asleep, PrioOk;
    forall x | 0 <= x < NUM_PROC ensures Placed(k, x) {
    }
  }

  /** Everything a reschedule leaves alone: who waits on what, and all flags but its own. */
  ghost predicate SameWaiting(k: Kernel, r: Kernel)
    requires Shape(k) && Shape(r)
  {
    && r.prio == k.prio && r.timedOut == k.timedOut && r.count == k.count
    && r.pending == k.pending && r.nmiPending == k.nmiPending
    && r.sleepers == k.sleepers && r.due == k.due && r.now == k.now
    && (forall j :: 1 <= j < NUM_QUEUE ==> r.q[j] == k.q[j])
  }

  lemma SameWaitingKeeps(k: Kernel, r: Kernel)
    requires Shape(k) && Shape(r) && SameWaiting(k, r)
    ensures SemOk(k) ==> SemOk(r)
    ensures Flagged(k) ==> Flagged(r)
    ensures Punctual(k) ==> Punctual(r)
  {
  }

  lemma MakeAvailKeeps(k: Kernel, p: nat)
    requires Shape(k) && p < NUM_PROC
    ensures var r := MakeAvail(k, p);
            && SameWaiting(k, r) && r.curr == k.curr
            && r.status == k.status[p := Avail] && r.at == k.at[p := AVAIL_LIST]
            && (Alert(k) ==> Alert(r))
            && (Running(k) && p != k.curr && p != NULL_PROC ==> Running(r))
  {
    hide Enq, Insert;
    EnqFrame(SetStatus(k, p, Avail), AVAIL_LIST, p);
  }

  // ---- the scheduler ----

  /** Nobody but curr is marked running and the null process can be found. */
  ghost predicate CanSwitch(k: Kernel)
    requires Shape(k)
  {
    OnlyCurr(k) && NullReady(k)
  }

  lemma PreemptStruct(k: Kernel)
    requires Struct(k, NULL) && CanSwitch(k)
    ensures var r := Preempt(k);
            && Struct(r, NULL) && SameWaiting(k, r) && r.curr == k.curr
            && r.needResched == k.needResched
            && (forall p :: 0 <= p < NUM_PROC ==> r.status[p] != Curr)
            && r.status[NULL_PROC] == Avail && r.at[NULL_PROC] == AVAIL_LIST
            && (forall p :: 0 <= p < NUM_PROC && p != k.curr ==> r.status[p] == k.status[p] && r.at[p] == k.at[p])
            && (k.status[k.curr] == Curr ==> r.status[k.curr] == Avail && r.at[k.curr] == AVAIL_LIST)
            && (k.status[k.curr] != Curr ==> r == k)
  {
    hide Queued, Asleep, PrioOk, Enq, Insert;
    if k.status[k.curr] == Curr {
      assert Placed(k, k.curr);
      TakeInHand(k, k.curr);
      hide PlacedBut;
      SetStatusStruct(k, k.curr, Avail);
      EnqStruct(SetStatus(k, k.curr, Avail), AVAIL_LIST, k.curr);
      EnqFrame(SetStatus(k, k.curr, Avail), AVAIL_LIST, k.curr);
    }
  }

  /** A non-empty avail list yields its first process, which is ready and in hand. */
  lemma DeqReady(k: Kernel)
    requires Struct(k, NULL) && k.q[AVAIL_LIST] != []
    ensures var p := First(k, AVAIL_LIST);
            && Struct(Deq(k, AVAIL_LIST), p) && k.status[p] == Avail && k.at[p] == AVAIL_LIST
            && SameWaiting(k, Deq(k, AVAIL_LIST))
            && (forall x :: 0 <= x < NUM_PROC && k.at[x] == AVAIL_LIST && x != p ==> Before(k, p, x))
  {
    var p := First(k, AVAIL_LIST);
    QueuedAt(k, AVAIL_LIST);
    assert Placed(k, p);
    DeqStruct(k, AVAIL_LIST);
    forall x | 0 <= x < NUM_PROC && k.at[x] == AVAIL_LIST && x != p ensures Before(k, p, x) {
      FirstBefore(k, AVAIL_LIST, x);
    }
  }

  /** The head of a queue is served before everyone else on it. */
  lemma FirstBefore(k: Kernel, i: nat, x: nat)
    requires Shape(k) && Queued(k) && i < NUM_QUEUE && x < NUM_PROC && k.at[x] == i
    ensures k.q[i] != [] && (x == k.q[i][0] || Before(k, k.q[i][0], x))
  {
    var a :| 0 <= a < |k.q[i]| && k.q[i][a] == x;
    assert Fifo(k, k.q[i]);
    if a > 0 { assert Before(k, k.q[i][0], k.q[i][a]); }
  }

  lemma InQueue(k: Kernel, p: nat)
    requires Shape(k) && Members(k.q, k.at) && p < NUM_PROC && k.at[p] != NULL
    ensures 0 <= k.at[p] < NUM_QUEUE && k.q[k.at[p]] != [] && p in k.q[k.at[p]]
  {
  }

  /** After sched the running process outranks, or has waited longest among, the ready. */
  lemma SchedPicksBest(k: Kernel)
    requires Struct(k, NULL) && CanSwitch(k)
    ensures var r := Sched(k);
            && Struct(r, NULL) && SameWaiting(k, r) && Running(r) && r.status[r.curr] == Curr
            && Alert(r) && !r.needResched
            && (forall x :: 0 <= x < NUM_PROC && r.at[x] == AVAIL_LIST ==> Before(r, r.curr, x))
            && (forall x :: 0 <= x < NUM_PROC && x != k.curr && x != r.curr ==>
                  r.status[x] == k.status[x] && r.at[x] == k.at[x])
            && (k.status[k.curr] == Curr && r.curr != k.curr ==>
                  r.status[k.curr] == Avail && r.at[k.curr] == AVAIL_LIST)
            && (k.status[k.curr] != Curr && r.curr != k.curr ==>
                  r.status[k.curr] == k.status[k.curr] && r.at[k.curr] == k.at[k.curr])
            && (r.curr != k.curr ==> k.status[r.curr] == Avail && k.at[r.curr] == AVAIL_LIST)
            && (k.status[r.curr] == Curr || k.at[r.curr] == AVAIL_LIST)
  {
    hide Queued, Asleep, PrioOk, Preempt, Deq;
    var k0 := k.(needResched := false);
    StructFrame(k, k0, NULL);
    PreemptStruct(k0);
    var k1 := Preempt(k0);
    assert k1.q[AVAIL_LIST] != [] by { AvailNonEmpty(k1); }
    DeqReady(k1);
    var p, k2 := First(k1, AVAIL_LIST), Deq(k1, AVAIL_LIST);
    DeqFrame(k1, AVAIL_LIST);
    StructFrame(k2, k2.(curr := p), p);
    SetStatusStruct(k2.(curr := p), p, Curr);
    Settle(Sched(k), p);
  }

  lemma AvailNonEmpty(k: Kernel)
    requires Shape(k) && Queued(k) && k.at[NULL_PROC] == AVAIL_LIST
    ensures k.q[AVAIL_LIST] != []
  {
    InQueue(k, NULL_PROC);
  }

  lemma DeqFrame(k: Kernel, i: nat)
    requires Shape(k) && i < NUM_QUEUE
    ensures var r := Deq(k, i);
            && r.status == k.status && r.stamp == k.stamp && r.clock == k.clock && r.curr == k.curr
                && r.needResched == k.needResched
            && r.prio == k.prio && r.timedOut == k.timedOut && r.count == k.count
            && r.pending == k.pending && r.nmiPending == k.nmiPending
            && r.sleepers == k.sleepers && r.due == k.due && r.now == k.now
            && (k.q[i] != [] ==> r.at == k.at[k.q[i][0] := NULL] && r.q[i] == k.q[i][1..])
            && (forall j :: 0 <= j < NUM_QUEUE && j != i ==> r.q[j] == k.q[j])
  {
  }
}
