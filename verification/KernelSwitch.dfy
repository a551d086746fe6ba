/** Who runs when a call returns: every call that may wake somebody hands the processor over at
    once to whoever outranks its caller, and keeps it otherwise. */
module KernelSwitch {
  import opened Config
  import opened ProcQueue
  import opened SleepList
  import opened KernelState
  import opened KernelInv
  import opened KernelSteps
  import opened KernelRuns
  import opened KernelTheorems

  /** Nobody ready outranks the running process and no reschedule is owed. */
  predicate Settled(r: Kernel)
    requires Shape(r)
  {
    !r.needResched && forall x :: 0 <= x < NUM_PROC && r.at[x] == AVAIL_LIST ==> r.prio[x] <= r.prio[r.curr]
  }

  lemma SchedClears(k: Kernel)
    requires Shape(k)
    ensures !Sched(k).needResched && !SchedIfNeeded(k).needResched
  {
    hide Insert;
  }

  /** The calls that may wake somebody, and those that give the processor up. */
  predicate Yields(s: Sys, e: Event)
    requires SysShape(s)
  {
    match e
    case SemSignalCall(_) => true
    case UnlockSignal(_) => true
    case SignalCall(_) => true
    case BroadcastCall(_) => true
    case SleepCall(_) => true
    case YieldCall => true
    case ExitCall => true
    case TickIntr => true
    case SemWaitCall(i) => i < NSEM && s.k.count[i] <= 0
    case LockCall(m) => m < NSEM && s.k.count[m] <= 0
    case WaitCall(c, _, _, _) => c < NCOND && !s.k.pending[c]
    case _ => false
  }

  /** After every such call, from any state of any run, nobody ready outranks the one that
      runs: a waiter woken above its waker's priority does not wait for the next tick. */
  lemma NextSettles(s: Sys, e: Event)
    requires SysInv(s) && Legal(s, e) && Yields(s, e)
    ensures Settled(Next(s, e).k)
  {
    NextKeeps(s, e);
    NextClears(s, e);
    hide Next, Legal, Yields, Books, BornOk, Queued, Asleep, PrioOk, PlacedBut, Running, SemOk, Flagged, Punctual;
  }

  lemma NextClears(s: Sys, e: Event)
    requires SysShape(s) && Legal(s, e) && Yields(s, e)
    ensures !Next(s, e).k.needResched
  {
    var k := s.k;
    hide Sched, SchedIfNeeded, Release, WakeAll, Wake, Deq, First, Park, Unlock;
    hide CondClock, SleepClock, SleepInsert, Enq;
    match e {
      case SemSignalCall(i) => SchedClears(Release(k, i));
      case UnlockSignal(m) => SchedClears(Release(k, m));
      case SignalCall(c) =>
        var p, d := First(k, CondQueue(c)), Deq(k, CondQueue(c));
        SchedClears(if p != NULL_PROC then Wake(d, p) else d);
      case BroadcastCall(c) => SchedClears(WakeAll(k, c));
      case SleepCall(delay) => SchedClears(SleepInsert(SetStatus(k, k.curr, Timed), k.curr, delay));
      case YieldCall => SchedClears(k);
      case ExitCall => SchedClears(SetStatus(k, k.curr, Unused));
      case TickIntr => SchedClears(CondClock(SleepClock(k)));
      case SemWaitCall(i) => WaitClears(k, i);
      case LockCall(m) => WaitClears(k, m);
      case WaitCall(c, m, timed, delay) => SchedClears(Unlock(Park(k, c, timed, delay), m));
    }
  }

  lemma WaitClears(k: Kernel, s: nat)
    requires Shape(k) && s < NSEM && k.count[s] <= 0
    ensures !SemWait(k, s).needResched
  {
    hide Sched, Enq;
    var k1 := k.(count := k.count[s := k.count[s] - 1]);
    SchedClears(Enq(SetStatus(k1, k1.curr, OnSem), SemQueue(s), k1.curr));
  }

  // ---- exactly who runs ----

  /** m is k with p made available. */
  ghost predicate Readied(k: Kernel, m: Kernel, p: nat)
    requires Shape(k)
  {
    && Shape(m) && Struct(m, NULL) && CanSwitch(m) && p < NUM_PROC && p != k.curr
    && m.curr == k.curr && m.prio == k.prio
    && m.status[p] == Avail && m.at[p] == AVAIL_LIST && m.needResched == (k.needResched || k.prio[p] > k.prio[k.curr])
    && (forall x :: 0 <= x < NUM_PROC && x != p ==> (m.at[x] == AVAIL_LIST <==> k.at[x] == AVAIL_LIST))
  }

  /** With no reschedule owed, waking p hands over to p if it outranks the caller, and to
      nobody otherwise. */
  lemma WakingSwitches(k: Kernel, m: Kernel, p: nat)
    requires KInv(k) && !k.needResched && Readied(k, m, p)
    ensures SchedIfNeeded(m).curr == if k.prio[p] > k.prio[k.curr] then p else k.curr
  {
    hide Queued, Asleep, PrioOk, PlacedBut, Sched, SemOk, Flagged, Punctual;
    if k.prio[p] > k.prio[k.curr] {
      SchedPicksBest(m);
      SchedPrio(m);
    }
  }

  lemma SchedPrio(k: Kernel)
    requires Shape(k)
    ensures Sched(k).prio == k.prio
  {
    hide Insert;
  }

  /** sem_signal hands the processor to the waiter it wakes exactly when that one outranks the
      caller. */
  lemma SignalSwitches(k: Kernel, s: nat)
    requires KInv(k) && !k.needResched && s < NSEM
    ensures k.count[s] < 0 ==> k.q[SemQueue(s)] != [] && k.q[SemQueue(s)][0] < NUM_PROC
    ensures SemSignal(k, s).curr ==
              if k.count[s] < 0 && k.prio[k.q[SemQueue(s)][0]] > k.prio[k.curr] then k.q[SemQueue(s)][0] else k.curr
  {
    hide Queued, Asleep, PrioOk, PlacedBut, Deq, MakeAvail, SchedIfNeeded, Flagged, Punctual, Alert;
    var k1 := k.(count := k.count[s := k.count[s] + 1]);
    StructFrame(k, k1, NULL);
    if k.count[s] < 0 {
      assert k.q[SemQueue(s)] != [];
      HeadAt(k, SemQueue(s));
      WakeFromSem(k1, s);
      var p := k.q[SemQueue(s)][0];
      Needs(Deq(k1, SemQueue(s)), p);
      DeqNeeds(k1, SemQueue(s));
      ReadiedSem(k, Release(k, s), p);
      WakingSwitches(k, Release(k, s), p);
    } else {
      assert SchedIfNeeded(k1) == k1 by { Unneeded(k1); }
    }
  }

  lemma Unneeded(k: Kernel)
    requires Shape(k) && !k.needResched
    ensures SchedIfNeeded(k) == k
  {
  }

  lemma Needs(k: Kernel, p: nat)
    requires Shape(k) && p < NUM_PROC
    ensures var r := MakeAvail(k, p);
            r.needResched == (k.needResched || k.prio[p] > k.prio[k.curr]) && r.curr == k.curr && r.prio == k.prio
  {
    hide Insert;
  }

  lemma DeqNeeds(k: Kernel, i: nat)
    requires Shape(k) && i < NUM_QUEUE
    ensures var r := Deq(k, i); r.needResched == k.needResched && r.curr == k.curr && r.prio == k.prio
  {
  }

  lemma ReadiedSem(k: Kernel, m: Kernel, p: nat)
    requires KInv(k) && Shape(m) && Struct(m, NULL) && CanSwitch(m) && p < NUM_PROC && k.status[p] == OnSem
    requires m.curr == k.curr && m.prio == k.prio && m.needResched == (k.needResched || k.prio[p] > k.prio[k.curr])
    requires m.status == k.status[p := Avail] && m.at == k.at[p := AVAIL_LIST]
    ensures Readied(k, m, p)
  {
    hide Queued, Asleep, PrioOk, SemOk, Flagged, Punctual, Alert;
    assert Placed(k, k.curr);
  }

  /** cond_signal, likewise, to the first on the cond. */
  lemma CondSignalSwitches(k: Kernel, c: nat)
    requires KInv(k) && !k.needResched && c < NCOND
    ensures k.q[CondQueue(c)] != [] ==> k.q[CondQueue(c)][0] < NUM_PROC
    ensures var q := k.q[CondQueue(c)];
            CondSignal(k, c).curr == if q != [] && k.prio[q[0]] > k.prio[k.curr] then q[0] else k.curr
  {
    hide Queued, Asleep, PrioOk, PlacedBut, Deq, Wake, SchedIfNeeded, SemOk, Flagged, Punctual, Alert;
    if k.q[CondQueue(c)] != [] {
      HeadAt(k, CondQueue(c));
      WakeFromCond(k, c);
      var p := k.q[CondQueue(c)][0];
      var d := Deq(k, CondQueue(c));
      DeqNeeds(k, CondQueue(c));
      WakeNeeds(d, p);
      var m := Wake(d, p);
      WokeKeeps(k, m);
      ReadiedCond(k, m, p);
      WakingSwitches(k, m, p);
    } else {
      NoneWaits(k, c);
    }
  }

  lemma NoneWaits(k: Kernel, c: nat)
    requires Shape(k) && !k.needResched && c < NCOND && k.q[CondQueue(c)] == []
    ensures CondSignal(k, c) == k
  {
  }

  lemma WakeNeeds(k: Kernel, p: nat)
    requires Shape(k) && p < NUM_PROC
    ensures var r := Wake(k, p);
            r.needResched == (k.needResched || k.prio[p] > k.prio[k.curr]) && r.curr == k.curr && r.prio == k.prio
  {
    hide Insert, Without;
  }

  lemma ReadiedCond(k: Kernel, m: Kernel, p: nat)
    requires KInv(k) && Shape(m) && Struct(m, NULL) && CanSwitch(m) && Woke(k, m) && p < NUM_PROC
    requires k.status[p] == OnCond || k.status[p] == Timed
    requires m.needResched == (k.needResched || k.prio[p] > k.prio[k.curr]) && m.status == k.status[p := Avail]
    ensures Readied(k, m, p)
  {
    hide Queued, Asleep, PrioOk, PlacedBut, SemOk, Flagged, Punctual, Alert;
    PlacedAt(k, NULL, k.curr);
    forall x | 0 <= x < NUM_PROC && x != p ensures m.at[x] == AVAIL_LIST <==> k.at[x] == AVAIL_LIST {
      PlacedAt(k, NULL, x);
      PlacedAt(m, NULL, x);
      assert Unmoved(k, m, x) || Awoken(k, m, x);
    }
    PlacedAt(k, NULL, p);
    assert Unmoved(k, m, p) || Awoken(k, m, p);
  }

  // ---- broadcast ----

  /** wake_all asks for a reschedule exactly when one was owed or somebody woken outranks the
      caller. */
  lemma {:induction false} WakeAllNeeds(k: Kernel, c: nat)
    requires Struct(k, NULL) && CanSwitch(k) && c < NCOND
    ensures var r := WakeAll(k, c);
            && r.curr == k.curr && r.prio == k.prio
            && (r.needResched <==> k.needResched || exists x :: x in k.q[CondQueue(c)] && Outranks(k, x))
    decreases |k.q[CondQueue(c)]|
  {
    hide Queued, Asleep, PrioOk, PlacedBut, Deq, Wake;
    var q := k.q[CondQueue(c)];
    if q == [] {
      EmptyDeq(k, c);
    } else {
      HeadAt(k, CondQueue(c));
      WakeFromCond(k, c);
      var m := Wake(Deq(k, CondQueue(c)), q[0]);
      DeqNeeds(k, CondQueue(c));
      WakeNeeds(Deq(k, CondQueue(c)), q[0]);
      WokeKeeps(k, m);
      WakeAllNeeds(m, c);
      assert q == [q[0]] + q[1..];
      assert forall x :: x in q <==> x == q[0] || x in q[1..];
      assert Outranks(k, q[0]) <==> k.prio[q[0]] > k.prio[k.curr];
      assert forall x :: Outranks(m, x) <==> Outranks(k, x);
    }
  }

  predicate Outranks(k: Kernel, x: nat)
    requires Shape(k)
  {
    x < NUM_PROC && k.prio[x] > k.prio[k.curr]
  }

  lemma EmptyDeq(k: Kernel, c: nat)
    requires Shape(k) && c < NCOND && k.q[CondQueue(c)] == []
    ensures WakeAll(k, c) == k
  {
  }

  lemma WaitersAt(k: Kernel, i: nat)
    requires Struct(k, NULL) && i < NUM_QUEUE
    ensures forall x: nat :: x in k.q[i] <==> x < NUM_PROC && k.at[x] == i
  {
    hide Asleep, PrioOk, PlacedBut, Fifo;
    QueuedAt(k, i);
    forall x: nat | x < NUM_PROC && k.at[x] == i ensures x in k.q[i] {
      InQueue(k, x);
    }
  }

  /** Whoever was on the cond is ready once all are woken; whoever else is ready was so before. */
  lemma WokenReady(k: Kernel, m: Kernel, c: nat, x: nat)
    requires Struct(k, NULL) && Struct(m, NULL) && Woke(k, m) && c < NCOND && x < NUM_PROC
    requires m.q[CondQueue(c)] == [] && (k.at[x] != CondQueue(c) ==> m.status[x] == k.status[x])
    ensures k.at[x] == CondQueue(c) ==> m.at[x] == AVAIL_LIST
    ensures k.at[x] != CondQueue(c) && m.at[x] == AVAIL_LIST ==> k.at[x] == AVAIL_LIST
  {
    WaitersAt(m, CondQueue(c));
    hide Queued, Asleep, PrioOk, PlacedBut;
    assert Unmoved(k, m, x) || Awoken(k, m, x);
  }

  /** Everybody on the cond is of at most the given priority. */
  predicate NoneAbove(k: Kernel, c: nat, top: int)
    requires Shape(k) && c < NCOND
  {
    forall x :: 0 <= x < NUM_PROC && k.at[x] == CondQueue(c) ==> k.prio[x] <= top
  }

  lemma WakeAllAsks(k: Kernel, c: nat)
    requires KInv(k) && !k.needResched && c < NCOND
    ensures WakeAll(k, c).needResched <==> !NoneAbove(k, c, k.prio[k.curr])
  {
    hide Queued, Asleep, PrioOk, PlacedBut, SemOk, Flagged, Punctual, Alert, WakeAll;
    WakeAllNeeds(k, c);
    WaitersAt(k, CondQueue(c));
    if !NoneAbove(k, c, k.prio[k.curr]) {
      var x :| 0 <= x < NUM_PROC && k.at[x] == CondQueue(c) && k.prio[x] > k.prio[k.curr];
      assert x in k.q[CondQueue(c)] && Outranks(k, x);
    }
  }

  /** cond_broadcast: the caller goes on exactly when nobody on the cond outranks it; else one
      of those woken runs, and none of the others outranks that one. */
  lemma BroadcastSwitches(k: Kernel, c: nat)
    requires KInv(k) && !k.needResched && c < NCOND
    ensures var r := CondBroadcast(k, c);
            && (r.curr == k.curr <==> NoneAbove(k, c, k.prio[k.curr]))
            && (r.curr != k.curr ==> k.at[r.curr] == CondQueue(c) && NoneAbove(k, c, k.prio[r.curr]))
  {
    hide Queued, Asleep, PrioOk, PlacedBut, SemOk, Flagged, Punctual, WakeAll, Woke, Sched;
    var m, r := WakeAll(k, c), CondBroadcast(k, c);
    WakeAllNeeds(k, c);
    WakeAllAsks(k, c);
    WakeAllKeeps(k, c);
    WokeKeeps(k, m);
    if m.needResched {
      SchedPicksBest(m);
      SchedPrio(m);
      var x :| 0 <= x < NUM_PROC && k.at[x] == CondQueue(c) && k.prio[x] > k.prio[k.curr];
      WokenReady(k, m, c, x);
      WokenReady(k, m, c, r.curr);
      assert r.curr == x || Before(r, r.curr, x);
      forall y | 0 <= y < NUM_PROC && k.at[y] == CondQueue(c) ensures k.prio[y] <= k.prio[r.curr] {
        WokenReady(k, m, c, y);
        assert y == r.curr || y == k.curr || Before(r, r.curr, y);
      }
    }
  }

  // ---- boot ----

  /** At boot nobody but the null process exists, waits or sleeps, no flag is up, and every
      semaphore has the count it was made with. */
  lemma BootState(counts: seq<int>, p: nat, i: nat, c: nat)
    requires |counts| == NSEM && 0 < p < NUM_PROC && 0 < i < NUM_QUEUE && c < NCOND
    ensures var k := Boot(counts);
            && k.curr == 0 && k.q[AVAIL_LIST] == [0] && k.q[i] == [] && k.sleepers == [] && k.count == counts
            && k.status[p] == Unused && k.at[p] == NULL && !k.timedOut[p]
            && !k.pending[c] && !k.nmiPending && !k.needResched
  {
  }

  // ---- the null process ----

  lemma {:induction false} WakeAllPrio(k: Kernel, c: nat)
    requires Shape(k) && c < NCOND
    ensures WakeAll(k, c).prio == k.prio
    decreases |k.q[CondQueue(c)]|
  {
    hide Insert, Without;
    var p := First(k, CondQueue(c));
    if p != NULL_PROC { WakeAllPrio(Wake(Deq(k, CondQueue(c)), p), c); }
  }

  lemma {:induction false} ExpirePrio(k: Kernel)
    requires Shape(k)
    ensures Expire(k).prio == k.prio
    decreases |k.sleepers|
  {
    hide Insert, Without;
    if Expired(k) { ExpirePrio(WakeExpired(k)); }
  }

  lemma {:induction false} DeliverPrio(k: Kernel, c: nat)
    requires Shape(k) && c <= NCOND
    ensures DeliverFrom(k, c).prio == k.prio
    decreases NCOND - c
  {
    hide WakeAll;
    if c < NCOND {
      WakeAllPrio(k, c);
      DeliverPrio(Deliver(k, c), c + 1);
    }
  }

  lemma ReleasePrio(k: Kernel, s: nat)
    requires Shape(k) && s < NSEM
    ensures Release(k, s).prio == k.prio
  {
    hide Insert;
  }

  lemma ParkPrio(k: Kernel, c: nat, timed: bool, delay: nat)
    requires Shape(k) && c < NCOND
    ensures Park(k, c, timed, delay).prio == k.prio
  {
    hide Insert, InsertDue, DueSlot;
  }

  lemma CondWaitPrio(k: Kernel, c: nat, m: Option<nat>, timed: bool, delay: nat)
    requires Shape(k) && c < NCOND && (m.Some? ==> m.value < NSEM)
    ensures Wait(k, c, m, timed, delay).prio == k.prio
  {
    hide Sched, Release, Park;
    ParkPrio(k, c, timed, delay);
    if m.Some? { ReleasePrio(Park(k, c, timed, delay), m.value); }
    SchedPrio(Unlock(Park(k, c, timed, delay), m));
  }

  lemma TickPrio(k: Kernel)
    requires Shape(k)
    ensures Tick(k).prio == k.prio
  {
    hide Sched, Expire, DeliverFrom;
    var k1 := SleepClock(k);
    ExpirePrio(k.(now := k.now + 1));
    if k1.nmiPending { DeliverPrio(k1.(nmiPending := false), 0); }
    SchedPrio(CondClock(k1));
  }

  /** Nothing but create sets a priority, and create only that of a row not in use. */
  lemma PrioStep(s: Sys, e: Event, p: nat)
    requires SysShape(s) && Legal(s, e) && p < NUM_PROC
    ensures Next(s, e).k.prio[p] == s.k.prio[p] || (e.CreateCall? && s.k.status[p] == Unused && p != NULL_PROC)
  {
    var k := s.k;
    hide SemSignal, SemWait, Wait, Tick, CondSignal, CondBroadcast, CondSignalIsr, Sleep, Sched, Exit, MakeAvail;
    match e {
      case SemSignalCall(i) => SignalPrio(k, i);
      case UnlockSignal(m) => SignalPrio(k, m);
      case SemWaitCall(i) => WaitPrio(k, i);
      case LockCall(m) => WaitPrio(k, m);
      case WaitCall(c, m, timed, delay) => CondWaitPrio(k, c, m, timed, delay);
      case SignalCall(c) => CondPrio(k, c);
      case BroadcastCall(c) => CondPrio(k, c);
      case SleepCall(delay) => SleepPrio(k, delay);
      case YieldCall => SchedPrio(k);
      case MakeAvailCall(x) => Needs(k, x);
      case ExitCall => ExitPrio(k);
      case TickIntr => TickPrio(k);
      case IsrSignal(c) => CondPrio(k, c);
      case _ =>
    }
  }

  lemma SignalPrio(k: Kernel, s: nat)
    requires Shape(k) && s < NSEM
    ensures SemSignal(k, s).prio == k.prio
  {
    hide Sched, Release;
    ReleasePrio(k, s);
    SchedPrio(Release(k, s));
  }

  lemma CondPrio(k: Kernel, c: nat)
    requires Shape(k) && c < NCOND
    ensures CondSignal(k, c).prio == k.prio && CondBroadcast(k, c).prio == k.prio && CondSignalIsr(k, c).prio == k.prio
  {
    hide Sched, WakeAll, Deq, First, Wake;
    var q, d := First(k, CondQueue(c)), Deq(k, CondQueue(c));
    DeqNeeds(k, CondQueue(c));
    WakeNeeds(d, q);
    SchedPrio(if q != NULL_PROC then Wake(d, q) else d);
    WakeAllPrio(k, c);
    SchedPrio(WakeAll(k, c));
    WakeAllPrio(k.(pending := k.pending[c := true]), c);
  }

  lemma SleepPrio(k: Kernel, delay: nat)
    requires Shape(k)
    ensures Sleep(k, delay).prio == k.prio
  {
    hide Sched, SleepInsert;
    SleepInsertFrame(SetStatus(k, k.curr, Timed), k.curr, delay);
    SchedPrio(SleepInsert(SetStatus(k, k.curr, Timed), k.curr, delay));
  }

  lemma ExitPrio(k: Kernel)
    requires Shape(k)
    ensures Exit(k).prio == k.prio
  {
    hide Sched;
    SchedPrio(SetStatus(k, k.curr, Unused));
  }

  lemma WaitPrio(k: Kernel, s: nat)
    requires Shape(k) && s < NSEM
    ensures SemWait(k, s).prio == k.prio
  {
    hide Sched, Insert;
    var k1 := k.(count := k.count[s := k.count[s] - 1]);
    SchedPrio(Enq(SetStatus(k1, k1.curr, OnSem), SemQueue(s), k1.curr));
  }

  lemma {:induction false} NullPrio(s: Sys, es: seq<Event>)
    requires SysShape(s) && IsRun(s, es)
    ensures Run(s, es).k.prio[NULL_PROC] == s.k.prio[NULL_PROC]
    decreases |es|
  {
    hide Next, Legal;
    if es != [] {
      PrioStep(s, es[0], NULL_PROC);
      NullPrio(Next(s, es[0]), es[1..]);
    }
  }

  /** In every run the null process keeps priority 0, and a call or tick that gives the
      processor up leaves it running only when nobody of positive priority is ready. */
  lemma NullIdles(counts: seq<int>, mutex: seq<bool>, es: seq<Event>, e: Event)
    requires Initial(counts, mutex) && IsRun(Init(counts, mutex), es)
    requires Legal(Run(Init(counts, mutex), es), e) && Yields(Run(Init(counts, mutex), es), e)
    ensures var r := Next(Run(Init(counts, mutex), es), e).k;
            && r.prio[NULL_PROC] == 0
            && (r.curr == NULL_PROC ==> forall x :: 0 <= x < NUM_PROC && r.at[x] == AVAIL_LIST ==> r.prio[x] <= 0)
  {
    hide Next, Legal, Yields, SysInv, IsRun, Run;
    var s := Run(Init(counts, mutex), es);
    ReachableInv(counts, mutex, es);
    NullPrio(Init(counts, mutex), es);
    PrioStep(s, e, NULL_PROC);
    NextSettles(s, e);
    assert !e.CreateCall? by { NotBorn(s, e); }
  }

  lemma NotBorn(s: Sys, e: Event)
    requires SysShape(s) && Yields(s, e)
    ensures !e.CreateCall?
  {
  }
}
