/** What the kernel invariant means for its users: scheduling, semaphores and mutexes,
    wakeups and time-outs, in every state and over every run. */
module KernelTheorems {
  import opened Config
  import opened ProcQueue
  import opened SleepList
  import opened KernelState
  import opened KernelInv
  import opened KernelSteps
  import opened KernelRuns

  // ---- semaphores and mutexes ----

  /** At most one process owns a mutex, in any interleaving, and its count never exceeds 1. */
  lemma MutualExclusion(counts: seq<int>, mutex: seq<bool>, es: seq<Event>, m: nat, p: nat, q: nat)
    requires Initial(counts, mutex) && IsRun(Init(counts, mutex), es) && m < NSEM && p < NUM_PROC && q < NUM_PROC
    ensures var s := Run(Init(counts, mutex), es);
            && (m in s.has[p] && m in s.has[q] ==> p == q)
            && (m in s.has[p] ==> s.mutex[m] && s.k.count[m] <= 0)
            && (s.mutex[m] ==> s.k.count[m] <= 1)
  {
    hide KInv;
    ReachableInv(counts, mutex, es);
    var s := Run(Init(counts, mutex), es);
    assert HasOk(s, p) && HasOk(s, q) && MutexOk(s, m);
  }

  /** A negative count is minus the queue length, a non-negative one means nobody waits, and
      the waits let through never exceed the initial count plus the signals: the surplus is
      exactly the positive part of the count. */
  lemma SemConservation(counts: seq<int>, mutex: seq<bool>, es: seq<Event>, i: nat)
    requires Initial(counts, mutex) && IsRun(Init(counts, mutex), es) && i < NSEM
    ensures var s := Run(Init(counts, mutex), es);
            && |s.k.q[SemQueue(i)]| == (if s.k.count[i] < 0 then -s.k.count[i] else 0)
            && s.calls[i] - |s.k.q[SemQueue(i)]|
                == s.initial[i] + s.signals[i] - (if s.k.count[i] > 0 then s.k.count[i] else 0)
  {
    hide Struct, Running, Alert, Flagged, Punctual, MutexOk, QueueOk, HasOk, PcOk;
    ReachableInv(counts, mutex, es);
    assert CountOk(Run(Init(counts, mutex), es), i);
  }

  /** A signal with waiters hands its token to the one of highest priority that has waited
      longest; nobody else leaves the queue. */
  lemma Handover(k: Kernel, s: nat)
    requires KInv(k) && s < NSEM && k.count[s] < 0
    ensures k.q[SemQueue(s)] != []
    ensures var p, r := k.q[SemQueue(s)][0], SemSignal(k, s);
            && p < NUM_PROC && k.status[p] == OnSem && (r.status[p] == Avail || r.status[p] == Curr)
            && (forall x :: x in k.q[SemQueue(s)] && x != p ==>
                  x < NUM_PROC && Before(k, p, x) && x in r.q[SemQueue(s)])
  {
    hide Queued, Asleep, PrioOk, PlacedBut, MakeAvail, Sched, Members, Fifo;
    SemSignalKeeps(k, s);
    var p := k.q[SemQueue(s)][0];
    var k1 := k.(count := k.count[s := k.count[s] + 1]);
    StructFrame(k, k1, NULL);
    WakeFromSem(k1, s);
    SchedKeepsReady(Release(k, s), p);
    QueueBefore(k, SemQueue(s));
    assert k.q[SemQueue(s)] == [p] + k.q[SemQueue(s)][1..];
  }

  lemma QueueBefore(k: Kernel, i: nat)
    requires Struct(k, NULL) && i < NUM_QUEUE && k.q[i] != []
    ensures k.q[i][0] < NUM_PROC
    ensures forall x :: x in k.q[i] && x != k.q[i][0] ==> x < NUM_PROC && Before(k, k.q[i][0], x)
  {
    QueuedAt(k, i);
    forall x | x in k.q[i] && x != k.q[i][0] ensures x < NUM_PROC && Before(k, k.q[i][0], x) {
      FirstBefore(k, i, x);
    }
  }

  /** A ready process stays ready or runs after a reschedule. */
  lemma SchedKeepsReady(k: Kernel, p: nat)
    requires Struct(k, NULL) && CanSwitch(k) && p < NUM_PROC && k.status[p] == Avail
    ensures Sched(k).status[p] == Avail || Sched(k).status[p] == Curr
  {
    hide Queued, Asleep, PrioOk, PlacedBut, Sched;
    SchedPicksBest(k);
  }

  // ---- scheduling ----

  /** In every reachable state a ready process that outranks the running one has set
      need_resched, and after a reschedule none does. */
  lemma ReadyOutranks(counts: seq<int>, mutex: seq<bool>, es: seq<Event>, x: nat)
    requires Initial(counts, mutex) && IsRun(Init(counts, mutex), es) && x < NUM_PROC
    ensures var k := Run(Init(counts, mutex), es).k;
            && (k.at[x] == AVAIL_LIST && k.prio[x] > k.prio[k.curr] ==> k.needResched)
            && (Sched(k).at[x] == AVAIL_LIST ==> Before(Sched(k), Sched(k).curr, x))
            && Preempt(k).q[AVAIL_LIST] != []
  {
    hide Queued, Asleep, PrioOk, PlacedBut, Sched, Preempt, Books, BornOk;
    ReachableInv(counts, mutex, es);
    var k := Run(Init(counts, mutex), es).k;
    SchedPicksBest(k);
    PreemptStruct(k);
    InQueueOf(Preempt(k));
  }

  lemma InQueueOf(k: Kernel)
    requires Struct(k, NULL) && k.at[NULL_PROC] == AVAIL_LIST
    ensures k.q[AVAIL_LIST] != []
  {
    hide Asleep, PrioOk, PlacedBut;
    InQueue(k, NULL_PROC);
  }

  function Scheds(k: Kernel, n: nat): (r: Kernel)
    requires Shape(k)
    ensures Shape(r)
    decreases n
  {
    if n == 0 then k else Scheds(Sched(k), n - 1)
  }

  /** The running process and the ready ones of the same priority, in the order in which
      they will run; `rest` are ready at lower priority. */
  ghost predicate Ring(k: Kernel, ring: seq<nat>, rest: seq<nat>) {
    && Struct(k, NULL) && CanSwitch(k) && ring != [] && InRange(ring) && InRange(rest)
    && k.status[k.curr] == Curr && ring[0] == k.curr
    && k.q[AVAIL_LIST] == ring[1..] + rest
    && (forall a :: 0 <= a < |ring| ==> k.prio[ring[a]] == k.prio[k.curr])
    && (forall a :: 0 <= a < |rest| ==> k.prio[rest[a]] < k.prio[k.curr])
  }

  function Rotate(ring: seq<nat>): (r: seq<nat>)
    requires ring != []
    ensures |r| == |ring|
    ensures forall a :: 0 <= a < |ring| - 1 ==> r[a] == ring[a + 1]
    ensures r[|ring| - 1] == ring[0]
  {
    ring[1..] + [ring[0]]
  }

  /** A reschedule sends the running process behind its equals and before everyone lower. */
  lemma RotateStep(k: Kernel, ring: seq<nat>, rest: seq<nat>)
    requires Ring(k, ring, rest)
    ensures Ring(Sched(k), Rotate(ring), rest)
  {
    hide Queued, Asleep, PrioOk, PlacedBut, InsertAt, Slot, Sched;
    SchedPicksBest(k);
    RotateQueue(k, ring, rest);
    var turned, n := Rotate(ring), |ring| - 1;
    assert forall a :: 0 <= a < |turned| ==> turned[a] == ring[if a < n then a + 1 else 0];
    hide Rotate;
    assert k.prio[turned[0]] == k.prio[k.curr];
  }

  lemma RotateQueue(k: Kernel, ring: seq<nat>, rest: seq<nat>)
    requires Ring(k, ring, rest)
    ensures Sched(k).curr == Rotate(ring)[0] && Sched(k).prio == k.prio
    ensures Sched(k).q[AVAIL_LIST] == Rotate(ring)[1..] + rest
  {
    hide Queued, Asleep, PrioOk, PlacedBut, CanSwitch, InsertAt, Slot;
    var s, n := ring[1..] + rest, |ring| - 1;
    assert forall a :: 0 <= a < |s| ==> s[a] == (if a < n then ring[a + 1] else rest[a - n]);
    SlotUnique(s, k.prio[k.curr], k.prio, n);
    var t := InsertAt(s, n, k.curr);
    forall a | 0 <= a < |t| ensures t[a] == (Rotate(ring) + rest)[a] {
      assert t[a] == (if a < n then s[a] else if a == n then k.curr else s[a - 1]);
    }
    assert t == Rotate(ring) + rest;
    assert t[1..] == Rotate(ring)[1..] + rest;
  }

  /** Processes sharing the top priority take turns as long as nobody blocks or wakes: the
      n-th reschedule runs the n-th of them, and the order of the others stays. */
  lemma {:induction false} RoundRobin(k: Kernel, ring: seq<nat>, rest: seq<nat>, n: nat)
    requires Ring(k, ring, rest) && n < |ring|
    ensures Scheds(k, n).curr == ring[n]
    ensures Ring(Scheds(k, n), ring[n..] + ring[..n], rest)
    decreases n
  {
    hide Ring, Sched, Rotate;
    RingHead(k, ring, rest);
    if n == 0 {
      assert ring[0..] + ring[..0] == ring;
    } else {
      RotateStep(k, ring, rest);
      RotateSlices(ring, n);
      RoundRobin(Sched(k), Rotate(ring), rest, n - 1);
    }
  }

  lemma RingHead(k: Kernel, ring: seq<nat>, rest: seq<nat>)
    requires Ring(k, ring, rest)
    ensures Shape(k) && ring != [] && ring[0] == k.curr
  {
  }

  lemma RotateSlices(ring: seq<nat>, n: nat)
    requires 0 < n < |ring|
    ensures Rotate(ring)[n - 1] == ring[n]
    ensures Rotate(ring)[n - 1..] + Rotate(ring)[..n - 1] == ring[n..] + ring[..n]
  {
  }

  /** In |ring| consecutive reschedules each of them runs exactly once. */
  lemma EachOnce(k: Kernel, ring: seq<nat>, rest: seq<nat>, p: nat)
    requires Ring(k, ring, rest) && p in ring
    ensures exists n :: 0 <= n < |ring| && Scheds(k, n).curr == p
    ensures forall n, m :: 0 <= n < m < |ring| ==> Scheds(k, n).curr != Scheds(k, m).curr
  {
    RingDistinct(k, ring, rest);
    var a :| 0 <= a < |ring| && ring[a] == p;
    hide Ring, Scheds;
    RoundRobin(k, ring, rest, a);
    assert Scheds(k, a).curr == p;
    forall i, j | 0 <= i < j < |ring| ensures Scheds(k, i).curr != Scheds(k, j).curr {
      RoundRobin(k, ring, rest, i);
      RoundRobin(k, ring, rest, j);
    }
  }

  lemma RingDistinct(k: Kernel, ring: seq<nat>, rest: seq<nat>)
    requires Ring(k, ring, rest)
    ensures forall a, b :: 0 <= a < b < |ring| ==> ring[a] != ring[b]
  {
    hide Asleep, PrioOk, PlacedBut, Fifo;
    PlacedAt(k, NULL, k.curr);
    QueuedAt(k, AVAIL_LIST);
    var s := k.q[AVAIL_LIST];
    assert forall a :: 1 <= a < |ring| ==> ring[a] == s[a - 1];
  }

  /** How many processes at the head of a queue have priority `top`. */
  function Tops(q: seq<nat>, prio: seq<int>, top: int): (n: nat)
    requires InRange(q) && |prio| == NUM_PROC
    ensures n <= |q| && forall a :: 0 <= a < n ==> prio[q[a]] == top
    ensures n < |q| ==> prio[q[n]] != top
  {
    if q == [] || prio[q[0]] != top then 0 else 1 + Tops(q[1..], prio, top)
  }

  /** p runs, or is ready at the priority of the one that does. */
  predicate AtTop(k: Kernel, p: nat)
    requires Shape(k) && p < NUM_PROC
  {
    p == k.curr || (k.at[p] == AVAIL_LIST && k.prio[p] == k.prio[k.curr])
  }

  /** What a reschedule leaves: the running process serves before everyone ready. */
  ghost predicate Picked(r: Kernel) {
    && Struct(r, NULL) && CanSwitch(r) && r.status[r.curr] == Curr && Fifo(r, r.q[AVAIL_LIST])
    && (forall a :: 0 <= a < |r.q[AVAIL_LIST]| ==>
          r.q[AVAIL_LIST][a] < NUM_PROC && r.at[r.q[AVAIL_LIST][a]] == AVAIL_LIST
          && Before(r, r.curr, r.q[AVAIL_LIST][a]))
  }

  lemma SchedPicked(k: Kernel)
    requires Struct(k, NULL) && CanSwitch(k)
    ensures Picked(Sched(k))
  {
    hide Asleep, PrioOk, PlacedBut, Sched;
    SchedPicksBest(k);
    QueuedAt(Sched(k), AVAIL_LIST);
    assert Fifo(Sched(k), Sched(k).q[AVAIL_LIST]);
  }

  /** A reschedule always leaves a ring: the running process and all ready ones of its
      priority. */
  lemma SchedRing(k: Kernel) returns (ring: seq<nat>, rest: seq<nat>)
    requires Struct(k, NULL) && CanSwitch(k)
    ensures Ring(Sched(k), ring, rest)
    ensures forall p :: 0 <= p < NUM_PROC ==> (p in ring <==> AtTop(Sched(k), p))
  {
    assert Shape(k);
    hide Struct, CanSwitch, Sched, Picked, Ring;
    SchedPicked(k);
    ring, rest := PickedRing(Sched(k));
  }

  lemma PickedRing(r: Kernel) returns (ring: seq<nat>, rest: seq<nat>)
    requires Picked(r)
    ensures Ring(r, ring, rest)
    ensures forall p :: 0 <= p < NUM_PROC ==> (p in ring <==> AtTop(r, p))
  {
    hide Queued, Asleep, PrioOk, PlacedBut, CanSwitch;
    var q := r.q[AVAIL_LIST];
    var n := Tops(q, r.prio, r.prio[r.curr]);
    ring, rest := [r.curr] + q[..n], q[n..];
    LowerRest(r, q, n);
    assert r.q[AVAIL_LIST] == ring[1..] + rest;
    forall p | 0 <= p < NUM_PROC ensures p in ring <==> AtTop(r, p) { TopIn(r, q, n, p); }
  }

  lemma LowerRest(r: Kernel, q: seq<nat>, n: nat)
    requires Shape(r) && Fifo(r, q) && n <= |q| && (n < |q| ==> r.prio[q[n]] != r.prio[r.curr])
    requires forall a :: 0 <= a < |q| ==> Before(r, r.curr, q[a])
    ensures forall a :: n <= a < |q| ==> r.prio[q[a]] < r.prio[r.curr]
  {
    forall a | n <= a < |q| ensures r.prio[q[a]] < r.prio[r.curr] {
      assert a == n || Before(r, q[n], q[a]);
    }
  }

  lemma TopIn(r: Kernel, q: seq<nat>, n: nat, p: nat)
    requires Struct(r, NULL) && q == r.q[AVAIL_LIST] && n <= |q| && p < NUM_PROC
    requires forall a :: 0 <= a < |q| ==> q[a] < NUM_PROC && r.at[q[a]] == AVAIL_LIST
    requires forall a :: 0 <= a < n ==> r.prio[q[a]] == r.prio[r.curr]
    requires forall a :: n <= a < |q| ==> r.prio[q[a]] < r.prio[r.curr]
    ensures p in [r.curr] + q[..n] <==> AtTop(r, p)
  {
    if r.at[p] == AVAIL_LIST {
      InQueue(r, p);
      var a :| 0 <= a < |q| && q[a] == p;
      assert a < n ==> q[..n][a] == p;
    }
  }

  /** Each process at the top priority runs exactly once in as many consecutive reschedules as
      there are of them. */
  ghost predicate FairTurns(k: Kernel)
    requires Shape(k)
  {
    exists ring, rest ::
      && Ring(k, ring, rest) && (forall p :: 0 <= p < NUM_PROC ==> (p in ring <==> AtTop(k, p)))
      && OnceEach(k, ring)
  }

  ghost predicate OnceEach(k: Kernel, ring: seq<nat>)
    requires Shape(k)
  {
    && (forall p :: p in ring ==> exists n :: 0 <= n < |ring| && Scheds(k, n).curr == p)
    && (forall n, m :: 0 <= n < m < |ring| ==> Scheds(k, n).curr != Scheds(k, m).curr)
  }

  lemma AllOnce(k: Kernel, ring: seq<nat>, rest: seq<nat>)
    requires Ring(k, ring, rest)
    ensures Shape(k) && OnceEach(k, ring)
  {
    RingHead(k, ring, rest);
    hide Ring, Scheds;
    forall p | p in ring ensures exists n :: 0 <= n < |ring| && Scheds(k, n).curr == p { EachOnce(k, ring, rest, p); }
    EachOnce(k, ring, rest, ring[0]);
  }

  /** In every reachable state the reschedule that comes starts fair turns, as long as nobody
      blocks or wakes. */
  lemma TurnsTaken(counts: seq<int>, mutex: seq<bool>, es: seq<Event>)
    requires Initial(counts, mutex) && IsRun(Init(counts, mutex), es)
    ensures FairTurns(Sched(Run(Init(counts, mutex), es).k))
  {
    ReachableInv(counts, mutex, es);
    var k := Run(Init(counts, mutex), es).k;
    assert Struct(k, NULL) && CanSwitch(k) by { hide Struct; }
    hide IsRun, Run, Struct, CanSwitch, Sched, SysInv, Ring, OnceEach, AtTop;
    var ring, rest := SchedRing(k);
    AllOnce(Sched(k), ring, rest);
  }

  // ---- sleepers and time-outs ----

  /** p is where it was, with its wake time and verdict as they were. */
  ghost predicate Undisturbed(k: Kernel, r: Kernel, p: nat)
    requires Shape(k) && Shape(r) && p < NUM_PROC
  {
    r.status[p] == k.status[p] && r.at[p] == k.at[p] && r.due[p] == k.due[p] && r.timedOut[p] == k.timedOut[p]
  }

  /** p was woken, with verdict v, and has been made available once. */
  ghost predicate WokenWith(r: Kernel, p: nat, v: bool)
    requires Shape(r) && p < NUM_PROC
  {
    r.timedOut[p] == v && (r.status[p] == Avail || r.status[p] == Curr)
  }

  ghost predicate Fate(k: Kernel, r: Kernel, p: nat)
    requires Shape(k) && Shape(r) && p < NUM_PROC
  {
    Undisturbed(k, r, p) || (IsCondQueue(k.at[p]) && WokenWith(r, p, k.timedOut[p]))
  }

  /** A waiter that has not begun to run is where the scheduler leaves it alone. */
  lemma SchedFate(k: Kernel, p: nat)
    requires Struct(k, NULL) && CanSwitch(k) && p < NUM_PROC
    ensures Sched(k).timedOut == k.timedOut && Sched(k).due == k.due && Sched(k).now == k.now
    ensures k.status[p] == Timed ==> Undisturbed(k, Sched(k), p)
    ensures k.status[p] == Avail ==> Sched(k).status[p] == Avail || Sched(k).status[p] == Curr
  {
    hide Queued, Asleep, PrioOk, PlacedBut, Sched;
    SchedPicksBest(k);
    PlacedAt(k, NULL, p);
  }

  /** From "undisturbed or woken by a signal" before a possible reschedule to the same after. */
  lemma FateThenSched(k: Kernel, m: Kernel, p: nat)
    requires Shape(k) && Struct(m, NULL) && CanSwitch(m) && p < NUM_PROC && k.status[p] == Timed
    requires Undisturbed(k, m, p) || (IsCondQueue(k.at[p]) && m.status[p] == Avail && m.timedOut[p] == k.timedOut[p])
    ensures Fate(k, Sched(m), p) && Sched(m).now == m.now
    ensures Fate(k, SchedIfNeeded(m), p) && SchedIfNeeded(m).now == m.now
  {
    hide Struct, Sched, CanSwitch;
    SchedFate(m, p);
  }

  lemma NotCurr(k: Kernel, p: nat)
    requires KInv(k) && p < NUM_PROC && k.status[p] == Timed
    ensures p != k.curr && p != NULL_PROC && p in k.sleepers && (k.at[p] == NULL || IsCondQueue(k.at[p]))
  {
    hide Queued, Asleep, PrioOk, PlacedBut;
    PlacedAt(k, NULL, p);
  }

  lemma SemFate(k: Kernel, s: nat, p: nat)
    requires KInv(k) && s < NSEM && p < NUM_PROC && k.status[p] == Timed
    ensures k.curr != NULL_PROC || k.count[s] > 0 ==> Fate(k, SemWait(k, s), p) && SemWait(k, s).now == k.now
    ensures Fate(k, SemSignal(k, s), p) && SemSignal(k, s).now == k.now
  {
    NotCurr(k, p);
    WaitFate(k, s, p);
    hide Queued, Asleep, PrioOk, PlacedBut, Release, Sched;
    ReleaseFate(k, s, p);
    ReleaseKeeps(k, s);
    FateThenSched(k, Release(k, s), p);
  }

  lemma WaitFate(k: Kernel, s: nat, p: nat)
    requires KInv(k) && s < NSEM && p < NUM_PROC && k.status[p] == Timed && p != k.curr
    ensures k.curr != NULL_PROC || k.count[s] > 0 ==> Fate(k, SemWait(k, s), p) && SemWait(k, s).now == k.now
  {
    hide Queued, Asleep, PrioOk, PlacedBut, Enq, Sched;
    if k.curr != NULL_PROC && k.count[s] <= 0 {
      var k1 := k.(count := k.count[s := k.count[s] - 1]);
      CurrInHand(k);
      StructFrame(k, k1, k.curr);
      ParkCurr(k1, OnSem, SemQueue(s));
      FateThenSched(k, Enq(SetStatus(k1, k1.curr, OnSem), SemQueue(s), k1.curr), p);
    }
  }

  lemma ReleaseFate(k: Kernel, s: nat, p: nat)
    requires Base(k) && s < NSEM && p < NUM_PROC && k.status[p] == Timed
    ensures Undisturbed(k, Release(k, s), p) && Release(k, s).now == k.now
  {
    hide Queued, Asleep, PrioOk, PlacedBut, Deq, MakeAvail;
    var k1 := k.(count := k.count[s := k.count[s] + 1]);
    StructFrame(k, k1, NULL);
    if k1.count[s] <= 0 {
      assert |k.q[SemQueue(s)]| == -k.count[s];
      WakeFromSem(k1, s);
    }
  }

  lemma CondWaitFate(k: Kernel, c: nat, m: Option<nat>, timed: bool, delay: nat, p: nat)
    requires KInv(k) && k.curr != NULL_PROC && c < NCOND && (m.Some? ==> m.value < NSEM) && delay < TWO31
    requires p < NUM_PROC && k.status[p] == Timed
    ensures Fate(k, Wait(k, c, m, timed, delay), p) && Wait(k, c, m, timed, delay).now == k.now
  {
    if !k.pending[c] {
      hide Queued, Asleep, PrioOk, PlacedBut, Park, Unlock, Sched, SemOk, Flagged, Punctual, Fate, Undisturbed;
      var k1 := Park(k, c, timed, delay);
      ParkFate(k, c, timed, delay, p);
      UnlockKeeps(k1, m);
      UnlockFate(k1, m, p);
      UndisturbedTwice(k, k1, Unlock(k1, m), p);
      FateThenSched(k, Unlock(k1, m), p);
    }
  }

  lemma UndisturbedTwice(k: Kernel, m: Kernel, r: Kernel, p: nat)
    requires Shape(k) && Shape(m) && Shape(r) && p < NUM_PROC && Undisturbed(k, m, p) && Undisturbed(m, r, p)
    ensures Undisturbed(k, r, p)
  {
  }

  lemma ParkFate(k: Kernel, c: nat, timed: bool, delay: nat, p: nat)
    requires KInv(k) && k.curr != NULL_PROC && c < NCOND && delay < TWO31 && !k.pending[c]
    requires p < NUM_PROC && k.status[p] == Timed
    ensures var r := Park(k, c, timed, delay);
            Base(r) && Flagged(r) && Punctual(r) && Undisturbed(k, r, p) && r.now == k.now && r.status[p] == Timed
  {
    hide Queued, Asleep, PrioOk, PlacedBut, Park, SemOk, Flagged, Punctual, Alert;
    NotCurr(k, p);
    ParkKeeps(k, c, timed, delay);
    ParkDue(k, c, timed, delay, p);
  }

  lemma UnlockFate(k: Kernel, m: Option<nat>, p: nat)
    requires Base(k) && (m.Some? ==> m.value < NSEM) && p < NUM_PROC && k.status[p] == Timed
    ensures Undisturbed(k, Unlock(k, m), p) && Unlock(k, m).now == k.now
  {
    hide Struct, CanSwitch, SemOk, Release;
    if m.Some? { ReleaseFate(k, m.value, p); }
  }

  lemma ParkDue(k: Kernel, c: nat, timed: bool, delay: nat, p: nat)
    requires Shape(k) && c < NCOND && p < NUM_PROC && p != k.curr
    ensures Park(k, c, timed, delay).due[p] == k.due[p]
  {
    hide Insert, InsertDue;
  }

  lemma CondFate(k: Kernel, c: nat, p: nat)
    requires KInv(k) && c < NCOND && p < NUM_PROC && k.status[p] == Timed
    ensures Fate(k, CondSignal(k, c), p) && CondSignal(k, c).now == k.now
    ensures Fate(k, CondBroadcast(k, c), p) && CondBroadcast(k, c).now == k.now
    ensures Fate(k, CondSignalIsr(k, c), p) && CondSignalIsr(k, c).now == k.now
  {
    hide KInv, Fate, CondSignal, CondBroadcast, CondSignalIsr;
    SignalFate(k, c, p);
    BroadcastFate(k, c, p);
    IsrFate(k, c, p);
  }

  lemma BroadcastFate(k: Kernel, c: nat, p: nat)
    requires KInv(k) && c < NCOND && p < NUM_PROC && k.status[p] == Timed
    ensures Fate(k, CondBroadcast(k, c), p) && CondBroadcast(k, c).now == k.now
  {
    hide Queued, Asleep, PrioOk, PlacedBut, WakeAll, Sched, SemOk, Flagged, Alert, Punctual, Woke;
    WakeAllFate(k, c, p);
    WakeAllKeeps(k, c);
    WokeKeeps(k, WakeAll(k, c));
    FateThenSched(k, WakeAll(k, c), p);
  }

  lemma IsrFate(k: Kernel, c: nat, p: nat)
    requires KInv(k) && c < NCOND && p < NUM_PROC && k.status[p] == Timed
    ensures Fate(k, CondSignalIsr(k, c), p) && CondSignalIsr(k, c).now == k.now
  {
    hide Queued, Asleep, PrioOk, PlacedBut, WakeAll, SemOk, Flagged, Alert, Punctual, Quiet;
    var k1 := k.(pending := k.pending[c := true]);
    RaisedKeeps(k, k1);
    WakeAllFate(k1, c, p);
  }

  lemma SignalFate(k: Kernel, c: nat, p: nat)
    requires KInv(k) && c < NCOND && p < NUM_PROC && k.status[p] == Timed
    ensures Fate(k, CondSignal(k, c), p) && CondSignal(k, c).now == k.now
  {
    hide Queued, Asleep, PrioOk, PlacedBut, Wake, Sched, SemOk, Flagged, Alert, Punctual;
    if k.q[CondQueue(c)] != [] {
      WakeFromCond(k, c);
      HeadAt(k, CondQueue(c));
      var r := Wake(Deq(k, CondQueue(c)), First(k, CondQueue(c)));
      hide Deq;
      WokeKeeps(k, r);
      assert Unmoved(k, r, p) || Awoken(k, r, p);
      FateThenSched(k, r, p);
    } else {
      FateThenSched(k, k, p);
    }
  }

  lemma WakeAllFate(k: Kernel, c: nat, p: nat)
    requires Struct(k, NULL) && CanSwitch(k) && c < NCOND && p < NUM_PROC && k.status[p] == Timed
    ensures var r := WakeAll(k, c);
            && r.now == k.now
            && (Undisturbed(k, r, p) || (IsCondQueue(k.at[p]) && r.status[p] == Avail
                && r.timedOut[p] == k.timedOut[p]))
  {
    hide Queued, Asleep, PrioOk, PlacedBut, WakeAll;
    WakeAllKeeps(k, c);
    PlacedAt(k, NULL, p);
    assert Unmoved(k, WakeAll(k, c), p) || Awoken(k, WakeAll(k, c), p);
  }

  lemma ExitFate(k: Kernel, p: nat)
    requires KInv(k) && k.curr != NULL_PROC && p < NUM_PROC && k.status[p] == Timed
    ensures Fate(k, Exit(k), p) && Exit(k).now == k.now
  {
    hide Queued, Asleep, PrioOk, PlacedBut, Sched, SemOk, Flagged, Alert, Punctual;
    NotCurr(k, p);
    CurrInHand(k);
    SetStatusStruct(k, k.curr, Unused);
    Settle(SetStatus(k, k.curr, Unused), k.curr);
    FateThenSched(k, SetStatus(k, k.curr, Unused), p);
  }

  lemma YieldFate(k: Kernel, p: nat)
    requires KInv(k) && p < NUM_PROC && k.status[p] == Timed
    ensures Fate(k, Sched(k), p) && Sched(k).now == k.now
  {
    hide Queued, Asleep, PrioOk, PlacedBut, Sched, SemOk, Flagged, Alert, Punctual;
    FateThenSched(k, k, p);
  }

  lemma CreateFate(k: Kernel, priority: int, stack: bool, p: nat)
    requires KInv(k) && p < NUM_PROC && k.status[p] == Timed
    ensures Fate(k, Create(k, priority, stack), p) && Create(k, priority, stack).now == k.now
  {
    hide Queued, Asleep, PrioOk, PlacedBut, Running, SemOk, Alert, Flagged, Punctual, FreePid;
  }

  lemma MakeAvailFate(k: Kernel, x: nat, p: nat)
    requires KInv(k) && p < NUM_PROC && k.status[p] == Timed && x < NUM_PROC && k.status[x] == Avail
    ensures Fate(k, MakeAvail(k, x), p) && MakeAvail(k, x).now == k.now
  {
    hide Queued, Asleep, PrioOk, PlacedBut, Running, SemOk, Alert, Flagged, Punctual, Enq;
    EnqFrame(SetStatus(k, x, Avail), AVAIL_LIST, x);
  }

  lemma SleepFate(k: Kernel, delay: nat, p: nat)
    requires KInv(k) && k.curr != NULL_PROC && delay < TWO31 && p < NUM_PROC && k.status[p] == Timed
    ensures Fate(k, Sleep(k, delay), p) && Sleep(k, delay).now == k.now
  {
    NotCurr(k, p);
    SleepNow(k, delay);
    hide Queued, Asleep, PrioOk, PlacedBut, SleepInsert, Sched;
    SleepInsertFrame(SetStatus(k, k.curr, Timed), k.curr, delay);
    FateThenSched(k, SleepInsert(SetStatus(k, k.curr, Timed), k.curr, delay), p);
  }

  /** The state sleep() reschedules from. */
  lemma SleepNow(k: Kernel, delay: nat)
    requires KInv(k) && k.curr != NULL_PROC && delay < TWO31
    ensures var r := SleepInsert(SetStatus(k, k.curr, Timed), k.curr, delay);
            Struct(r, NULL) && CanSwitch(r) && r.status[k.curr] == Timed && r.at[k.curr] == NULL
                && r.due[k.curr] == k.now + delay && r.now == k.now
  {
    hide Queued, Asleep, PrioOk, PlacedBut, SleepInsert;
    CurrInHand(k);
    SetStatusStruct(k, k.curr, Timed);
    SleepInsertStruct(SetStatus(k, k.curr, Timed), k.curr, delay);
    SleepInsertFrame(SetStatus(k, k.curr, Timed), k.curr, delay);
  }

  /** The tick wakes a sleeper whose time has come with verdict "timed out", and touches the
      verdict of nobody else. */
  lemma TickFate(k: Kernel, p: nat)
    requires KInv(k) && p < NUM_PROC && k.status[p] == Timed
    ensures Tick(k).now == k.now + 1
    ensures if k.due[p] <= k.now + 1 then WokenWith(Tick(k), p, true) else Fate(k, Tick(k), p)
  {
    hide Queued, Asleep, PrioOk, PlacedBut, SleepClock, CondClock, Sched, SemOk, Flagged, Alert, Punctual;
    NotCurr(k, p);
    SleepClockKeeps(k);
    var k1 := SleepClock(k);
    CondClockKeeps(k1);
    var k2 := CondClock(k1);
    SchedFate(k2, p);
    assert Unmoved(k.(now := k.now + 1), k1, p) || Awoken(k.(now := k.now + 1), k1, p);
    assert Unmoved(k1.(pending := k2.pending, nmiPending := false), k2, p)
        || Awoken(k1.(pending := k2.pending, nmiPending := false), k2, p);
  }

  /** Whatever happens, a timed waiter is either left alone or woken exactly once: by the
      tick at which its time comes, with timed_out set, or by a signal before that, with
      timed_out as wait() left it. A plain sleeper is on no cond, so only the tick wakes it. */
  lemma TimedFate(s: Sys, e: Event, p: nat)
    requires SysInv(s) && Legal(s, e) && p < NUM_PROC && s.k.status[p] == Timed
    ensures Next(s, e).k.now == s.k.now + (if e.TickIntr? then 1 else 0)
    ensures if e.TickIntr? && s.k.due[p] <= s.k.now + 1 then WokenWith(Next(s, e).k, p, true)
            else Fate(s.k, Next(s, e).k, p)
  {
    hide KInv, Books, BornOk, Fate, WokenWith, SemWait, SemSignal, Wait, Sleep, Sched, Tick, Create, Exit, MakeAvail,
         CondSignal, CondBroadcast, CondSignalIsr;
    match e {
      case SemWaitCall(i) => SemFate(s.k, i, p);
      case SemSignalCall(i) => SemFate(s.k, i, p);
      case LockCall(m) => SemFate(s.k, m, p);
      case UnlockSignal(m) => SemFate(s.k, m, p);
      case WaitCall(c, m, timed, delay) => CondWaitFate(s.k, c, m, timed, delay, p);
      case SignalCall(c) => CondFate(s.k, c, p);
      case BroadcastCall(c) => CondFate(s.k, c, p);
      case IsrSignal(c) => CondFate(s.k, c, p);
      case SleepCall(delay) => SleepFate(s.k, delay, p);
      case TickIntr => TickFate(s.k, p);
      case MakeAvailCall(x) => BornAvail(s, x); MakeAvailFate(s.k, x, p);
      case YieldCall => YieldFate(s.k, p);
      case CreateCall(priority, stack) => CreateFate(s.k, priority, stack, p);
      case ExitCall => ExitFate(s.k, p);
      case _ => SameFate(s.k, Next(s, e).k, p);
    }
  }

  lemma SameFate(k: Kernel, r: Kernel, p: nat)
    requires Shape(k) && Shape(r) && p < NUM_PROC && r.status == k.status && r.at == k.at
    requires r.due == k.due && r.timedOut == k.timedOut
    ensures Fate(k, r, p)
  {
  }

  lemma BornAvail(s: Sys, x: nat)
    requires SysInv(s) && x in s.born
    ensures x < NUM_PROC && s.k.status[x] == Avail
  {
    hide KInv, Books;
    assert Unspawned(s.k, x);
  }

  function Ticks(es: seq<Event>): (n: nat)
    ensures n <= |es|
  {
    if es == [] then 0 else (if es[0].TickIntr? then 1 else 0) + Ticks(es[1..])
  }

  function Max1(d: nat): nat { if d == 0 then 1 else d }

  /** In any run after p went to sleep, p sleeps on while fewer than `left` ticks have come. */
  lemma {:induction false} SleepsOn(s: Sys, es: seq<Event>, p: nat, left: nat)
    requires SysInv(s) && IsRun(s, es) && p < NUM_PROC
    requires s.k.status[p] == Timed && s.k.at[p] == NULL && left > 0
    requires s.k.due[p] == s.k.now + left || (left == 1 && s.k.due[p] == s.k.now)
    requires Ticks(es) < left
    ensures var r := Run(s, es);
            && SysInv(r) && r.k.status[p] == Timed && r.k.at[p] == NULL
            && r.k.due[p] == s.k.due[p] && r.k.now == s.k.now + Ticks(es)
    decreases |es|
  {
    hide KInv, Books, BornOk, Next, Legal;
    if es != [] {
      TimedFate(s, es[0], p);
      NextKeeps(s, es[0]);
      SleepsOn(Next(s, es[0]), es[1..], p, if es[0].TickIntr? then left - 1 else left);
    }
  }

  /** sleep(delay): in every run that follows, the caller is still asleep after fewer than
      max(delay, 1) ticks, and the tick that makes it max(delay, 1) wakes it. */
  lemma SleepIsExact(s: Sys, delay: nat, s1: Sys, es: seq<Event>, r: Sys)
    requires SysInv(s) && Legal(s, SleepCall(delay)) && s1 == Next(s, SleepCall(delay))
    requires IsRun(s1, es) && r == Run(s1, es) && Ticks(es) < Max1(delay)
    ensures SysInv(r) && r.k.status[s.k.curr] == Timed
    ensures Ticks(es) == Max1(delay) - 1 ==> WokenWith(Tick(r.k), s.k.curr, true)
  {
    hide KInv, Books, BornOk, Next, WokenWith, Run, Ticks;
    NextKeeps(s, SleepCall(delay));
    SleepStarts(s, delay);
    SleepsOn(s1, es, s.k.curr, Max1(delay));
    TickFate(r.k, s.k.curr);
  }

  lemma SleepStarts(s: Sys, delay: nat)
    requires SysInv(s) && Legal(s, SleepCall(delay))
    ensures var k := Next(s, SleepCall(delay)).k;
            k.status[s.k.curr] == Timed && k.at[s.k.curr] == NULL && k.due[s.k.curr] == k.now + delay
  {
    hide KInv, Books, BornOk, Sched, SleepInsert;
    SleepNow(s.k, delay);
    SchedFate(SleepInsert(SetStatus(s.k, s.k.curr, Timed), s.k.curr, delay), s.k.curr);
  }

  // ---- conds ----

  /** No wakeup waits longer than a tick: whoever is parked on a flagged cond is awake after
      the next tick. */
  lemma TickDelivers(k: Kernel, c: nat, p: nat)
    requires KInv(k) && c < NCOND && k.pending[c] && p < NUM_PROC && k.at[p] == CondQueue(c)
    ensures Tick(k).status[p] == Avail || Tick(k).status[p] == Curr
  {
    hide Queued, Asleep, PrioOk, PlacedBut, SleepClock, CondClock, Sched, SemOk, Flagged, Alert, Punctual;
    PlacedAt(k, NULL, p);
    SleepClockKeeps(k);
    var k1 := SleepClock(k);
    CondClockKeeps(k1);
    var k2 := CondClock(k1);
    SchedFate(k2, p);
    assert Unmoved(k.(now := k.now + 1), k1, p) || Awoken(k.(now := k.now + 1), k1, p);
    assert Unmoved(k1.(pending := k2.pending, nmiPending := false), k2, p)
        || Awoken(k1.(pending := k2.pending, nmiPending := false), k2, p);
    EmptyQueue(k2, CondQueue(c), p);
    PlacedAt(k2, NULL, p);
  }

  lemma EmptyQueue(k: Kernel, i: nat, p: nat)
    requires Struct(k, NULL) && i < NUM_QUEUE && k.q[i] == [] && p < NUM_PROC
    ensures k.at[p] != i
  {
    hide Asleep, PrioOk, PlacedBut;
  }

  /** A flag set before a process parks makes its wait return at once, consuming the flag. */
  lemma FlagReturnsAtOnce(s: Sys, c: nat, m: Option<nat>, timed: bool, delay: nat)
    requires SysInv(s) && Legal(s, WaitCall(c, m, timed, delay)) && s.k.pending[c]
    ensures var r := Next(s, WaitCall(c, m, timed, delay));
            && r.k.curr == s.k.curr && r.k.status == s.k.status && r.has == s.has && r.pc == s.pc
            && !r.k.pending[c] && r.k.q == s.k.q && r.rc == s.rc[s.k.curr := Some(0)]
  {
  }
}
