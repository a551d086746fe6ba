/** Every kernel entry point, every tick, interrupt and NMI keeps the kernel invariant. */
module KernelSteps {
  import opened Config
  import opened ProcQueue
  import opened SleepList
  import opened KernelState
  import opened KernelInv

  /** What holds between the statements of an entry point. */
  ghost predicate Base(k: Kernel) {
    Struct(k, NULL) && CanSwitch(k) && SemOk(k)
  }

  ghost predicate Waiting(st: Status) {
    st == OnCond || st == OnSem || st == Timed
  }

  /** r is k after some waiters, never the null process, were made available. */
  ghost predicate Woke(k: Kernel, r: Kernel)
    requires Shape(k) && Shape(r)
  {
    && r.prio == k.prio && r.count == k.count && r.pending == k.pending && r.nmiPending == k.nmiPending
    && r.due == k.due && r.now == k.now && r.curr == k.curr
    && (forall s :: 0 <= s < NSEM ==> r.q[SemQueue(s)] == k.q[SemQueue(s)])
    && (forall c :: 0 <= c < NCOND && k.q[CondQueue(c)] == [] ==> r.q[CondQueue(c)] == [])
    && (forall p :: p in r.sleepers ==> p in k.sleepers)
    && (forall p :: 0 <= p < NUM_PROC ==> Unmoved(k, r, p) || Awoken(k, r, p))
  }

  ghost predicate Unmoved(k: Kernel, r: Kernel, p: nat)
    requires Shape(k) && Shape(r) && p < NUM_PROC
  {
    r.status[p] == k.status[p] && r.at[p] == k.at[p]
  }

  ghost predicate Awoken(k: Kernel, r: Kernel, p: nat)
    requires Shape(k) && Shape(r) && p < NUM_PROC
  {
    Waiting(k.status[p]) && r.status[p] == Avail && r.at[p] == AVAIL_LIST
  }

  lemma WokeTransitive(k: Kernel, m: Kernel, r: Kernel)
    requires Shape(k) && Shape(m) && Shape(r) && Woke(k, m) && Woke(m, r)
    ensures Woke(k, r)
  {
    forall p | 0 <= p < NUM_PROC ensures Unmoved(k, r, p) || Awoken(k, r, p) {
      assert Unmoved(k, m, p) || Awoken(k, m, p);
      assert Unmoved(m, r, p) || Awoken(m, r, p);
    }
  }

  lemma WokeKeeps(k: Kernel, r: Kernel)
    requires Shape(k) && Shape(r) && Woke(k, r)
    ensures SemOk(k) ==> SemOk(r)
    ensures Flagged(k) ==> Flagged(r)
    ensures Running(k) ==> Running(r)
    ensures CanSwitch(k) ==> CanSwitch(r)
    ensures Punctual(k) ==> Punctual(r)
  {
    assert Unmoved(k, r, NULL_PROC) || Awoken(k, r, NULL_PROC);
    assert Unmoved(k, r, k.curr) || Awoken(k, r, k.curr);
    hide Insert;
    if OnlyCurr(k) {
      forall p | 0 <= p < NUM_PROC && r.status[p] == Curr ensures p == r.curr {
        assert Unmoved(k, r, p) || Awoken(k, r, p);
      }
    }
    if Punctual(k) {
      forall a | 0 <= a < |r.sleepers| ensures r.now <= r.due[r.sleepers[a]] {
        assert r.sleepers[a] in k.sleepers;
      }
    }
  }

  lemma PlacedAt(k: Kernel, x: int, p: nat)
    requires Struct(k, x) && p < NUM_PROC && p != x
    ensures Placed(k, p)
  {
    hide Queued, Asleep, PrioOk;
  }

  // ---- the reschedule ----

  lemma SchedKeeps(k: Kernel)
    requires Base(k) && Flagged(k) && Punctual(k)
    ensures KInv(Sched(k)) && Quiet(k, Sched(k))
  {
    hide Queued, Asleep, PrioOk, PlacedBut, Sched, SemOk, Flagged, Punctual, SameWaiting, Quiet;
    SchedPicksBest(k);
    SameWaitingKeeps(k, Sched(k));
    SchedQuiet(k);
  }

  /** Created but not yet made available. */
  predicate Unspawned(k: Kernel, p: nat)
    requires Shape(k) && p < NUM_PROC
  {
    k.status[p] == Avail && k.at[p] == NULL
  }

  /** No semaphore is touched and nobody is born. */
  ghost predicate Quiet(k: Kernel, r: Kernel)
    requires Shape(k) && Shape(r)
  {
    && r.count == k.count && (forall s :: 0 <= s < NSEM ==> r.q[SemQueue(s)] == k.q[SemQueue(s)])
    && (forall p :: 0 <= p < NUM_PROC ==> Unspawned(r, p) == Unspawned(k, p))
  }

  lemma SchedQuiet(k: Kernel)
    requires Struct(k, NULL) && CanSwitch(k)
    ensures Quiet(k, Sched(k))
  {
    hide Queued, Asleep, PrioOk, PlacedBut, Sched;
    SchedPicksBest(k);
    var r := Sched(k);
    forall p | 0 <= p < NUM_PROC ensures Unspawned(r, p) == Unspawned(k, p) {
    }
  }

  lemma WokeQuiet(k: Kernel, r: Kernel)
    requires Shape(k) && Shape(r) && Woke(k, r)
    ensures Quiet(k, r)
  {
    forall p | 0 <= p < NUM_PROC ensures Unspawned(r, p) == Unspawned(k, p) {
      assert Unmoved(k, r, p) || Awoken(k, r, p);
    }
  }

  lemma SchedIfNeededKeeps(k: Kernel)
    requires KInv(k)
    ensures KInv(SchedIfNeeded(k)) && Quiet(k, SchedIfNeeded(k))
  {
    hide Queued, Asleep, PrioOk, PlacedBut, Sched, SemOk;
    if k.needResched { SchedKeeps(k); }
  }

  // ---- semaphores ----

  /** The running process, unless it is the null process still booting, is in hand. */
  lemma CurrInHand(k: Kernel)
    requires KInv(k) && k.curr != NULL_PROC
    ensures Struct(k, k.curr) && k.status[k.curr] == Curr && k.status[NULL_PROC] == Avail
        && k.at[NULL_PROC] == AVAIL_LIST
  {
    hide Queued, Asleep, PrioOk, PlacedBut, SemOk, Alert, Flagged, Punctual;
    PlacedAt(k, NULL, k.curr);
    TakeInHand(k, k.curr);
  }

  /** The running process puts itself on a queue its new status allows. */
  lemma ParkCurr(k: Kernel, st: Status, i: nat)
    requires Struct(k, k.curr) && OnlyCurr(k) && k.curr != NULL_PROC && k.status[k.curr] == Curr
    requires k.status[NULL_PROC] == Avail && k.at[NULL_PROC] == AVAIL_LIST
    requires i < NUM_QUEUE && if st == OnSem then 1 <= i <= NSEM else st == OnCond && IsCondQueue(i)
    ensures var r := Enq(SetStatus(k, k.curr, st), i, k.curr);
            && Struct(r, NULL) && CanSwitch(r) && r.curr == k.curr
            && r.status == k.status[k.curr := st] && r.at == k.at[k.curr := i]
            && r.count == k.count && r.pending == k.pending && r.nmiPending == k.nmiPending
            && r.sleepers == k.sleepers && r.due == k.due && r.now == k.now && r.prio == k.prio
                && r.timedOut == k.timedOut
            && (forall j :: 0 <= j < NUM_QUEUE && j != i ==> r.q[j] == k.q[j])
            && |r.q[i]| == |k.q[i]| + 1
  {
    hide Queued, Asleep, PrioOk, PlacedBut, Enq, Insert;
    SetStatusStruct(k, k.curr, st);
    EnqStruct(SetStatus(k, k.curr, st), i, k.curr);
    EnqFrame(SetStatus(k, k.curr, st), i, k.curr);
  }

  /** Only semaphore s changes, to the given count, and nobody is born. */
  ghost predicate SemStep(k: Kernel, r: Kernel, s: nat, count: int)
    requires Shape(k) && Shape(r) && s < NSEM
  {
    && r.count == k.count[s := count]
    && (forall j :: 0 <= j < NSEM && j != s ==> r.q[SemQueue(j)] == k.q[SemQueue(j)])
    && (forall p :: 0 <= p < NUM_PROC ==> Unspawned(r, p) == Unspawned(k, p))
  }

  lemma EnqKeeps(k: Kernel, i: nat, p: nat)
    requires Shape(k) && i < NUM_QUEUE && p < NUM_PROC
    ensures forall x :: x in Enq(k, i, p).q[i] <==> x == p || x in k.q[i]
  {
    hide InsertAt, Slot;
    InsertKeeps(k.q[i], Slot(k.q[i], k.prio[p], k.prio), p);
  }

  lemma SemWaitKeeps(k: Kernel, s: nat)
    requires KInv(k) && s < NSEM
    requires k.curr != NULL_PROC || k.count[s] > 0
    ensures KInv(SemWait(k, s)) && SemStep(k, SemWait(k, s), s, k.count[s] - 1)
    ensures k.count[s] > 0 ==> SemWait(k, s) == k.(count := SemWait(k, s).count)
    ensures forall x :: x in SemWait(k, s).q[SemQueue(s)] <==> x in k.q[SemQueue(s)] || (k.count[s] <= 0 && x == k.curr)
  {
    hide Queued, Asleep, PrioOk, PlacedBut, Enq, Sched;
    var k1 := k.(count := k.count[s := k.count[s] - 1]);
    StructFrame(k, k1, NULL);
    if k1.count[s] < 0 {
      CurrInHand(k);
      StructFrame(k, k1, k.curr);
      ParkCurr(k1, OnSem, SemQueue(s));
      EnqKeeps(SetStatus(k1, k1.curr, OnSem), SemQueue(s), k1.curr);
      SchedKeeps(Enq(SetStatus(k1, k1.curr, OnSem), SemQueue(s), k1.curr));
    }
  }

  /** Taking the first waiter of a semaphore off its queue and making it available. */
  lemma WakeFromSem(k: Kernel, s: nat)
    requires Struct(k, NULL) && OnlyCurr(k) && NullReady(k) && s < NSEM && k.q[SemQueue(s)] != []
    ensures var p := First(k, SemQueue(s)); var r := MakeAvail(Deq(k, SemQueue(s)), p);
            && Struct(r, NULL) && p != NULL_PROC && k.status[p] == OnSem
            && r.q[SemQueue(s)] == k.q[SemQueue(s)][1..]
            && (forall j :: 1 <= j < NUM_QUEUE && j != SemQueue(s) ==> r.q[j] == k.q[j])
            && SameFlags(k, r)
            && r.status == k.status[p := Avail] && r.at == k.at[p := AVAIL_LIST]
            && (Alert(k) ==> Alert(r)) && (Running(k) ==> Running(r)) && CanSwitch(r)
  {
    hide Queued, Asleep, PrioOk, PlacedBut, Members;
    var p := First(k, SemQueue(s));
    HeadAt(k, SemQueue(s));
    PlacedAt(k, NULL, p);
    DeqStruct(k, SemQueue(s));
    DeqFrame(k, SemQueue(s));
    hide Deq, MakeAvail;
    MakeAvailStruct(Deq(k, SemQueue(s)), p);
    MakeAvailKeeps(Deq(k, SemQueue(s)), p);
  }

  lemma HeadAt(k: Kernel, i: nat)
    requires Struct(k, NULL) && i < NUM_QUEUE && k.q[i] != []
    ensures k.q[i][0] < NUM_PROC && k.at[k.q[i][0]] == i
  {
    QueuedAt(k, i);
  }

  ghost predicate SameFlags(k: Kernel, r: Kernel) {
    && r.curr == k.curr && r.prio == k.prio && r.count == k.count && r.timedOut == k.timedOut
    && r.pending == k.pending && r.nmiPending == k.nmiPending
    && r.sleepers == k.sleepers && r.due == k.due && r.now == k.now
  }

  /** sem_signal hands its token to the first waiter, if there is one. */
  lemma ReleaseKeeps(k: Kernel, s: nat)
    requires Base(k) && s < NSEM
    ensures var r := Release(k, s);
            && Base(r) && SameFlags(k.(count := r.count), r) && r.count == k.count[s := k.count[s] + 1]
            && (forall c :: 0 <= c < NCOND ==> r.q[CondQueue(c)] == k.q[CondQueue(c)])
            && (Running(k) ==> Running(r)) && (Alert(k) ==> Alert(r))
            && (k.count[s] < 0 ==> k.q[SemQueue(s)] != [] && r.q[SemQueue(s)] == k.q[SemQueue(s)][1..])
            && (k.count[s] >= 0 ==> r.q[SemQueue(s)] == k.q[SemQueue(s)] == [])
            && SemStep(k, r, s, k.count[s] + 1)
  {
    hide Queued, Asleep, PrioOk, PlacedBut, Deq, MakeAvail;
    var k1 := k.(count := k.count[s := k.count[s] + 1]);
    StructFrame(k, k1, NULL);
    if k1.count[s] <= 0 {
      assert |k.q[SemQueue(s)]| == -k.count[s];
      WakeFromSem(k1, s);
    }
  }

  lemma SemSignalKeeps(k: Kernel, s: nat)
    requires KInv(k) && s < NSEM
    ensures KInv(SemSignal(k, s)) && SemStep(k, SemSignal(k, s), s, k.count[s] + 1)
    ensures k.count[s] < 0 ==> k.q[SemQueue(s)] != []
    ensures SemSignal(k, s).q[SemQueue(s)] == if k.count[s] < 0 then k.q[SemQueue(s)][1..] else k.q[SemQueue(s)]
  {
    hide Queued, Asleep, PrioOk, PlacedBut, Release, SemOk;
    ReleaseKeeps(k, s);
    SchedIfNeededKeeps(Release(k, s));
  }

  // ---- sleeping ----

  lemma SleepInsertAsleep(k: Kernel, p: nat, delay: nat)
    requires Shape(k) && Asleep(k) && p < NUM_PROC && p !in k.sleepers && delay < DELAY_LIMIT
    ensures Asleep(SleepInsert(k, p, delay))
    ensures forall x :: x in SleepInsert(k, p, delay).sleepers <==> x == p || x in k.sleepers
  {
    hide InsertDue, Distinct, DueOrder, InHorizon;
    InsertDueSound(k.sleepers, p, k.due, k.now + delay, k.now);
  }

  lemma SleepInsertStruct(k: Kernel, p: nat, delay: nat)
    requires p < NUM_PROC && Struct(k, p) && k.status[p] == Timed && delay < DELAY_LIMIT
    ensures Struct(SleepInsert(k, p, delay), NULL)
    ensures Punctual(k) ==> Punctual(SleepInsert(k, p, delay))
  {
    var r := SleepInsert(k, p, delay);
    hide Queued, Asleep, PrioOk, SleepInsert;
    SleepInsertAsleep(k, p, delay);
    SleepInsertFrame(k, p, delay);
    forall x | 0 <= x < NUM_PROC ensures Placed(r, x) {
      if x != p { assert Placed(k, x); }
    }
    if Punctual(k) {
      forall a | 0 <= a < |r.sleepers| ensures r.now <= r.due[r.sleepers[a]] {
        assert r.sleepers[a] in r.sleepers;
      }
    }
  }

  lemma SleepInsertFrame(k: Kernel, p: nat, delay: nat)
    requires Shape(k) && p < NUM_PROC
    ensures var r := SleepInsert(k, p, delay);
            && r.status == k.status && r.prio == k.prio && r.curr == k.curr && r.needResched == k.needResched
            && r.q == k.q && r.at == k.at && r.stamp == k.stamp && r.clock == k.clock && r.count == k.count
            && r.pending == k.pending && r.nmiPending == k.nmiPending && r.timedOut == k.timedOut
            && r.due == k.due[p := k.now + delay] && r.now == k.now
            && (Queued(k) ==> Queued(r))
  {
    hide InsertDue;
    var r := SleepInsert(k, p, delay);
    if Queued(k) {
      forall i | 0 <= i < NUM_QUEUE ensures Fifo(r, r.q[i]) { assert Fifo(k, k.q[i]); FifoFrame(k, r, k.q[i]); }
    }
  }

  lemma SleepKeeps(k: Kernel, delay: nat)
    requires KInv(k) && k.curr != NULL_PROC && delay < DELAY_LIMIT
    ensures KInv(Sleep(k, delay)) && Quiet(k, Sleep(k, delay))
  {
    hide Queued, Asleep, PrioOk, PlacedBut, SleepInsert, Sched, SemOk, Flagged, Punctual;
    CurrInHand(k);
    var k1 := SetStatus(k, k.curr, Timed);
    SetStatusStruct(k, k.curr, Timed);
    SameQueues(k, k1);
    SleepInsertStruct(k1, k1.curr, delay);
    SleepInsertFrame(k1, k1.curr, delay);
    SameQueues(k1, SleepInsert(k1, k1.curr, delay));
    SchedKeeps(SleepInsert(k1, k1.curr, delay));
  }

  /** SemOk, Flagged and Punctual look at nothing but queues, counts, flags and times. */
  lemma SameQueues(k: Kernel, r: Kernel)
    requires Shape(k) && Shape(r) && r.count == k.count && r.pending == k.pending && r.nmiPending == k.nmiPending
    requires forall j :: 1 <= j < NUM_QUEUE ==> r.q[j] == k.q[j]
    ensures SemOk(k) ==> SemOk(r)
    ensures Flagged(k) ==> Flagged(r)
    ensures r.sleepers == k.sleepers && r.due == k.due && r.now == k.now && Punctual(k) ==> Punctual(r)
  {
  }

  /** Taking the first sleeper off both lists leaves it in hand. */
  lemma PopStruct(k: Kernel)
    requires Struct(k, NULL) && k.sleepers != []
    ensures var p := k.sleepers[0]; var k1 := Unqueue(k.(sleepers := k.sleepers[1..]), p);
            && k.status[p] == Timed && Struct(k1.(timedOut := k1.timedOut[p := true]), p)
            && (forall x :: x in k1.sleepers <==> x in k.sleepers && x != p)
  {
    hide Distinct, DueOrder, InHorizon, Members, Fifo;
    var p := k.sleepers[0];
    var k0 := k.(sleepers := k.sleepers[1..]);
    TailSound(k.sleepers, k.due, k.now);
    FramedQueued(k, k0);
    UnqueueQueued(k0, p);
    UnqueueFrame(k0, p);
    var k1 := Unqueue(k0, p);
    var r := k1.(timedOut := k1.timedOut[p := true]);
    FramedQueued(k1, r);
    hide Queued, Unqueue;
    PlacedAt(k, NULL, p);
    forall x | 0 <= x < NUM_PROC && x != p ensures Placed(r, x) {
      PlacedAt(k, NULL, x);
    }
  }

  lemma UnqueueFrame(k: Kernel, p: nat)
    requires Shape(k) && p < NUM_PROC
    ensures var r := Unqueue(k, p);
            && r.status == k.status && r.prio == k.prio && r.curr == k.curr && r.needResched == k.needResched
            && r.stamp == k.stamp && r.clock == k.clock && r.count == k.count && r.timedOut == k.timedOut
            && r.pending == k.pending && r.nmiPending == k.nmiPending
            && r.sleepers == k.sleepers && r.due == k.due && r.now == k.now
            && (forall j :: 0 <= j < NUM_QUEUE && j != k.at[p] ==> r.q[j] == k.q[j])
            && (forall j :: 0 <= j < NUM_QUEUE && k.q[j] == [] ==> r.q[j] == [])
  {
    hide Insert;
  }

  lemma FramedQueued(k: Kernel, r: Kernel)
    requires Shape(k) && Shape(r) && Queued(k)
    requires r.prio == k.prio && r.q == k.q && r.at == k.at && r.stamp == k.stamp && r.clock == k.clock
    ensures Queued(r)
  {
    hide Members;
    forall i | 0 <= i < NUM_QUEUE ensures Fifo(r, r.q[i]) {
      assert Fifo(k, k.q[i]);
      FifoFrame(k, r, k.q[i]);
    }
  }

  // ---- waking ----

  /** Making the in-hand process available, seen from the state before it was taken. */
  lemma WokeOne(k: Kernel, m: Kernel, p: nat)
    requires Shape(k) && p < NUM_PROC && Struct(m, p) && Waiting(k.status[p])
    requires m.prio == k.prio && m.count == k.count && m.pending == k.pending && m.nmiPending == k.nmiPending
    requires m.due == k.due && m.now == k.now && m.curr == k.curr && m.status == k.status
    requires m.at == k.at[p := NULL] && m.needResched == k.needResched
    requires forall s :: 0 <= s < NSEM ==> m.q[SemQueue(s)] == k.q[SemQueue(s)]
    requires forall c :: 0 <= c < NCOND && k.q[CondQueue(c)] == [] ==> m.q[CondQueue(c)] == []
    requires forall x :: x in m.sleepers ==> x in k.sleepers
    ensures Struct(MakeAvail(m, p), NULL) && Woke(k, MakeAvail(m, p))
    ensures forall c :: 0 <= c < NCOND ==> MakeAvail(m, p).q[CondQueue(c)] == m.q[CondQueue(c)]
    ensures MakeAvail(m, p).sleepers == m.sleepers && MakeAvail(m, p).timedOut == m.timedOut
    ensures Alert(k) ==> Alert(MakeAvail(m, p))
  {
    hide Queued, Asleep, PrioOk, PlacedBut, MakeAvail;
    MakeAvailStruct(m, p);
    MakeAvailKeeps(m, p);
    var r := MakeAvail(m, p);
    forall x | 0 <= x < NUM_PROC ensures Unmoved(k, r, x) || Awoken(k, r, x) {
    }
  }

  lemma WakeExpiredKeeps(k: Kernel)
    requires Struct(k, NULL) && Expired(k)
    ensures Struct(WakeExpired(k), NULL) && Woke(k, WakeExpired(k))
    ensures WakeExpired(k).timedOut == k.timedOut[k.sleepers[0] := true]
    ensures forall x :: x in WakeExpired(k).sleepers <==> x in k.sleepers && x != k.sleepers[0]
    ensures WakeExpired(k).status == k.status[k.sleepers[0] := Avail]
    ensures Alert(k) ==> Alert(WakeExpired(k))
  {
    hide Queued, Asleep, PrioOk, PlacedBut, Unqueue, MakeAvail, Members;
    var p := k.sleepers[0];
    var k0 := k.(sleepers := k.sleepers[1..]);
    var k1 := Unqueue(k0, p);
    PopStruct(k);
    PlacedAt(k, NULL, p);
    UnqueueFrame(k0, p);
    UnqueueAt(k, k0, p);
    WokeOne(k, k1.(timedOut := k1.timedOut[p := true]), p);
    MakeAvailKeeps(k1.(timedOut := k1.timedOut[p := true]), p);
  }

  lemma UnqueueAt(k: Kernel, k0: Kernel, p: nat)
    requires Struct(k, NULL) && Shape(k0) && k0.at == k.at && p < NUM_PROC
    ensures Unqueue(k0, p).at == k.at[p := NULL]
  {
    hide Asleep, PrioOk, PlacedBut, Without;
  }

  /** Asleep, with its time come. */
  ghost predicate Overdue(k: Kernel, p: nat)
    requires Shape(k) && p < NUM_PROC
  {
    p in k.sleepers && k.due[p] <= k.now
  }

  lemma NoneOverdue(k: Kernel)
    requires Struct(k, NULL) && !Expired(k)
    ensures forall p :: 0 <= p < NUM_PROC ==> !Overdue(k, p)
  {
    hide Queued, PrioOk, PlacedBut;
  }

  /** sleep_clock's loop wakes exactly the sleepers whose time has come. */
  lemma {:induction false} ExpireKeeps(k: Kernel)
    requires Struct(k, NULL)
    ensures Struct(Expire(k), NULL) && Woke(k, Expire(k)) && !Expired(Expire(k))
    ensures Alert(k) ==> Alert(Expire(k))
    ensures forall p :: 0 <= p < NUM_PROC ==> Expire(k).status[p] == if Overdue(k, p) then Avail else k.status[p]
    ensures forall p :: 0 <= p < NUM_PROC ==> Expire(k).timedOut[p] == (Overdue(k, p) || k.timedOut[p])
    decreases |k.sleepers|
  {
    hide Queued, Asleep, PrioOk, PlacedBut, MakeAvail, Unqueue;
    if Expired(k) {
      var m := WakeExpired(k);
      WakeExpiredKeeps(k);
      ShorterSleepers(k);
      hide WakeExpired;
      ExpireKeeps(m);
      WokeTransitive(k, m, Expire(m));
      forall p | 0 <= p < NUM_PROC ensures Overdue(k, p) == (Overdue(m, p) || p == k.sleepers[0]) {
      }
    } else {
      assert forall x :: 0 <= x < NUM_PROC ==> Unmoved(k, k, x);
      NoneOverdue(k);
    }
  }

  lemma ShorterSleepers(k: Kernel)
    requires Shape(k) && Expired(k)
    ensures WakeExpired(k).sleepers == k.sleepers[1..]
  {
    hide Insert, Without;
  }

  /** Every sleeper is due at a later tick. */
  predicate Ahead(k: Kernel)
    requires Shape(k)
  {
    forall a :: 0 <= a < |k.sleepers| ==> k.now < k.due[k.sleepers[a]]
  }

  lemma NoneExpired(k: Kernel)
    requires Struct(k, NULL) && !Expired(k)
    ensures Ahead(k) && Punctual(k)
  {
    hide Queued, PrioOk, PlacedBut;
  }

  /** Asleep until the coming tick. */
  ghost predicate DueNext(k: Kernel, p: nat)
    requires Shape(k) && p < NUM_PROC
  {
    p in k.sleepers && k.due[p] <= k.now + 1
  }

  lemma NextTick(k: Kernel)
    requires KInv(k)
    ensures var r := k.(now := k.now + 1);
            Struct(r, NULL) && SemOk(r) && Flagged(r) && Running(r) && Alert(r)
  {
    hide Queued, Asleep, PrioOk, PlacedBut, SemOk, Flagged, Alert, Running;
    NextTickStruct(k);
    SameQueues(k, k.(now := k.now + 1));
    SameRun(k, k.(now := k.now + 1));
  }

  /** One tick's sleep_clock, from a state where nobody was overdue. */
  lemma SleepClockKeeps(k: Kernel)
    requires KInv(k)
    ensures KInv(SleepClock(k)) && Ahead(SleepClock(k)) && Woke(k.(now := k.now + 1), SleepClock(k))
    ensures forall p :: 0 <= p < NUM_PROC ==>
              && SleepClock(k).status[p] == (if DueNext(k, p) then Avail else k.status[p])
              && SleepClock(k).timedOut[p] == (DueNext(k, p) || k.timedOut[p])
  {
    hide Queued, Asleep, PrioOk, PlacedBut, Expired, Expire, Punctual, SemOk, Flagged, Alert, Running, Woke, Ahead;
    NextTick(k);
    ExpireKeeps(k.(now := k.now + 1));
    assert forall p :: 0 <= p < NUM_PROC ==> Overdue(k.(now := k.now + 1), p) == DueNext(k, p);
    WokeKeeps(k.(now := k.now + 1), SleepClock(k));
    NoneExpired(SleepClock(k));
  }

  /** Running and Alert look at nothing but the running pid, statuses, places and ranks. */
  lemma SameRun(k: Kernel, r: Kernel)
    requires Shape(k) && Shape(r) && r.curr == k.curr && r.status == k.status && r.at == k.at
    requires r.prio == k.prio && r.needResched == k.needResched
    ensures Running(k) ==> Running(r)
    ensures CanSwitch(k) ==> CanSwitch(r)
    ensures Alert(k) ==> Alert(r)
  {
  }

  lemma NextTickStruct(k: Kernel)
    requires Struct(k, NULL) && Punctual(k)
    ensures Struct(k.(now := k.now + 1), NULL)
  {
    hide Members, Fifo, PrioOk, Distinct, DueOrder;
    var r := k.(now := k.now + 1);
    FramedQueued(k, r);
    assert PrioOk(r) by { SamePrio(k, r); }
    forall p | 0 <= p < NUM_PROC ensures Placed(r, p) {
      PlacedAt(k, NULL, p);
    }
  }

  lemma SamePrio(k: Kernel, r: Kernel)
    requires Shape(k) && Shape(r) && PrioOk(k) && r.prio == k.prio
    ensures PrioOk(r)
  {
  }

  // ---- conds ----

  /** The first waiter of a cond leaves it, and the sleep list if it was there. */
  lemma WakeFromCond(k: Kernel, c: nat)
    requires Struct(k, NULL) && NullReady(k) && c < NCOND && k.q[CondQueue(c)] != []
    ensures var p := First(k, CondQueue(c)); var r := Wake(Deq(k, CondQueue(c)), p);
            && p != NULL_PROC && (k.status[p] == OnCond || k.status[p] == Timed)
            && Struct(r, NULL) && Woke(k, r) && r.q[CondQueue(c)] == k.q[CondQueue(c)][1..]
            && r.timedOut == k.timedOut && r.status == k.status[p := Avail]
            && (Alert(k) ==> Alert(r))
  {
    hide Queued, Asleep, PrioOk, PlacedBut, MakeAvail, Members, SleepRemove, Without;
    var p := First(k, CondQueue(c));
    HeadAt(k, CondQueue(c));
    PlacedAt(k, NULL, p);
    DeqFrame(k, CondQueue(c));
    var k1 := Deq(k, CondQueue(c));
    if k.status[p] == Timed {
      DeqTimedStruct(k, CondQueue(c));
      hide Deq;
      SleepRemoveStruct(k1, p);
      WokeOne(k, SleepRemove(k1, p), p);
      MakeAvailKeeps(SleepRemove(k1, p), p);
    } else {
      DeqStruct(k, CondQueue(c));
      hide Deq;
      WokeOne(k, k1, p);
      MakeAvailKeeps(k1, p);
    }
  }

  lemma DeqTimedStruct(k: Kernel, i: nat)
    requires Struct(k, NULL) && i < NUM_QUEUE && k.q[i] != [] && k.q[i][0] < NUM_PROC
    requires k.status[k.q[i][0]] == Timed
    ensures Struct(Deq(k, i), NULL)
  {
    DeqQueued(k, i);
    var r, p := Deq(k, i), k.q[i][0];
    hide Queued, Members;
    forall x | 0 <= x < NUM_PROC ensures Placed(r, x) {
      assert Placed(k, x);
    }
  }

  lemma SleepRemoveStruct(k: Kernel, p: nat)
    requires Struct(k, NULL) && p < NUM_PROC && k.status[p] == Timed && k.at[p] == NULL
    ensures var r := SleepRemove(k, p);
            && Struct(r, p) && r == k.(sleepers := r.sleepers)
                && (forall x :: x in r.sleepers <==> x in k.sleepers && x != p)
  {
    var r := SleepRemove(k, p);
    hide Members, Fifo, Without, Distinct, DueOrder, InHorizon;
    PlacedAt(k, NULL, p);
    FramedQueued(k, r);
    WithoutSound(k.sleepers, p, k.due, k.now);
    hide Queued;
    forall x | 0 <= x < NUM_PROC && x != p ensures Placed(r, x) {
      PlacedAt(k, NULL, x);
    }
  }

  lemma {:induction false} WakeAllKeeps(k: Kernel, c: nat)
    requires Struct(k, NULL) && CanSwitch(k) && c < NCOND
    ensures Struct(WakeAll(k, c), NULL) && Woke(k, WakeAll(k, c)) && WakeAll(k, c).q[CondQueue(c)] == []
    ensures WakeAll(k, c).timedOut == k.timedOut
    ensures Alert(k) ==> Alert(WakeAll(k, c))
    ensures forall p :: 0 <= p < NUM_PROC && k.at[p] != CondQueue(c) ==> WakeAll(k, c).status[p] == k.status[p]
    decreases |k.q[CondQueue(c)]|
  {
    hide Queued, Asleep, PrioOk, PlacedBut, Wake;
    if k.q[CondQueue(c)] != [] {
      WakeFromCond(k, c);
      HeadAt(k, CondQueue(c));
      var m := Wake(Deq(k, CondQueue(c)), First(k, CondQueue(c)));
      hide Deq;
      WokeKeeps(k, m);
      WakeAllKeeps(m, c);
      WokeTransitive(k, m, WakeAll(m, c));
      forall p | 0 <= p < NUM_PROC && k.at[p] != CondQueue(c) ensures WakeAll(m, c).status[p] == k.status[p] {
        assert Unmoved(k, m, p) || Awoken(k, m, p);
      }
    } else {
      assert forall x :: 0 <= x < NUM_PROC ==> Unmoved(k, k, x);
    }
  }

  // ---- cond.c entry points ----

  /** One flag changed on a cond nobody waits for, or raised together with nmiPending. */
  lemma FlagKeeps(k: Kernel, r: Kernel)
    requires KInv(k) && Shape(r) && r == k.(pending := r.pending, nmiPending := r.nmiPending)
    requires Flagged(r)
    ensures KInv(r) && Quiet(k, r)
  {
    hide Queued, Asleep, PrioOk, PlacedBut, SemOk, Flagged, Alert, Running, Punctual, Quiet;
    RaisedKeeps(k, r);
  }

  lemma SemPunctualFrame(k: Kernel, r: Kernel)
    requires Shape(k) && Shape(r) && r.q == k.q && r.count == k.count
    requires r.sleepers == k.sleepers && r.due == k.due && r.now == k.now
    ensures SemOk(k) ==> SemOk(r)
    ensures Punctual(k) ==> Punctual(r)
  {
  }

  lemma CondSignalNmiKeeps(k: Kernel, c: nat)
    requires KInv(k) && c < NCOND
    ensures KInv(CondSignalNmi(k, c)) && Quiet(k, CondSignalNmi(k, c))
  {
    FlagKeeps(k, CondSignalNmi(k, c));
  }

  lemma CondSignalKeeps(k: Kernel, c: nat)
    requires KInv(k) && c < NCOND
    ensures KInv(CondSignal(k, c)) && Quiet(k, CondSignal(k, c))
  {
    hide Queued, Asleep, PrioOk, PlacedBut, SemOk, Flagged, Alert, Punctual, Wake;
    if k.q[CondQueue(c)] != [] {
      WakeFromCond(k, c);
      var r := Wake(Deq(k, CondQueue(c)), First(k, CondQueue(c)));
      hide Deq;
      WokeKeeps(k, r);
      WokeQuiet(k, r);
      SchedIfNeededKeeps(r);
    } else {
      SchedIfNeededKeeps(k);
    }
  }

  lemma CondBroadcastKeeps(k: Kernel, c: nat)
    requires KInv(k) && c < NCOND
    ensures KInv(CondBroadcast(k, c)) && Quiet(k, CondBroadcast(k, c))
  {
    hide Queued, Asleep, PrioOk, PlacedBut, SemOk, Flagged, Alert, Punctual, WakeAll;
    WakeAllKeeps(k, c);
    WokeKeeps(k, WakeAll(k, c));
    WokeQuiet(k, WakeAll(k, c));
    SchedIfNeededKeeps(WakeAll(k, c));
  }

  lemma CondSignalIsrKeeps(k: Kernel, c: nat)
    requires KInv(k) && c < NCOND
    ensures KInv(CondSignalIsr(k, c)) && Quiet(k, CondSignalIsr(k, c))
  {
    hide Queued, Asleep, PrioOk, PlacedBut, SemOk, Flagged, Alert, Punctual, WakeAll, Quiet, Woke;
    var k1 := k.(pending := k.pending[c := true]);
    RaisedKeeps(k, k1);
    IsrFlagged(k, c);
    WakeAllKeeps(k1, c);
    WokeKeeps(k1, WakeAll(k1, c));
    WokeQuiet(k1, WakeAll(k1, c));
    QuietTransitive(k, k1, WakeAll(k1, c));
  }

  /** Everything but Flagged survives a change of the flags. */
  lemma RaisedKeeps(k: Kernel, r: Kernel)
    requires KInv(k) && Shape(r) && r == k.(pending := r.pending, nmiPending := r.nmiPending)
    ensures Struct(r, NULL) && Running(r) && SemOk(r) && Alert(r) && Punctual(r) && Quiet(k, r)
  {
    StructFrame(k, r, NULL);
    hide Queued, Asleep, PrioOk, PlacedBut, SemOk, Flagged, Alert, Punctual, Running;
    SameRun(k, r);
    SemPunctualFrame(k, r);
  }

  lemma IsrFlagged(k: Kernel, c: nat)
    requires KInv(k) && c < NCOND
    ensures Flagged(CondSignalIsr(k, c))
  {
    var k1 := k.(pending := k.pending[c := true]);
    StructFrame(k, k1, NULL);
    hide Queued, Asleep, PrioOk, PlacedBut, SemOk, Alert, Punctual, WakeAll;
    WakeAllKeeps(k1, c);
  }

  // ---- the tick ----

  /** Nobody waits on a flagged cond below c. */
  predicate DeliveredBelow(k: Kernel, c: nat)
    requires Shape(k)
  {
    forall d :: 0 <= d < c && d < NCOND && k.pending[d] ==> k.q[CondQueue(d)] == []
  }

  lemma DeliverKeeps(k: Kernel, c: nat)
    requires Struct(k, NULL) && CanSwitch(k) && c < NCOND && DeliveredBelow(k, c)
    ensures var r := Deliver(k, c);
            && Struct(r, NULL) && DeliveredBelow(r, c + 1) && Woke(k.(pending := r.pending), r)
            && r.timedOut == k.timedOut && (Alert(k) ==> Alert(r))
            && (forall d :: 0 <= d < NCOND && r.pending[d] ==> k.pending[d])
            && (k.pending[c] ==> r.q[CondQueue(c)] == [])
            && (forall p :: 0 <= p < NUM_PROC && !IsCondQueue(k.at[p]) ==> r.status[p] == k.status[p])
            && (forall d :: c < d < NCOND ==> r.pending[d] == k.pending[d])
  {
    hide Queued, Asleep, PrioOk, PlacedBut, WakeAll;
    if k.pending[c] && k.q[CondQueue(c)] != [] {
      WakeAllKeeps(k, c);
      var k1 := WakeAll(k, c);
      var r := k1.(pending := k1.pending[c := false]);
      StructFrame(k1, r, NULL);
      assert Woke(k.(pending := r.pending), r) by { WokeFlags(k, k1, r.pending); }
    } else {
      assert forall x :: 0 <= x < NUM_PROC ==> Unmoved(k, k, x);
    }
  }

  lemma WokeFlags(k: Kernel, r: Kernel, pending: seq<bool>)
    requires Shape(k) && Shape(r) && Woke(k, r) && |pending| == NCOND
    ensures Woke(k.(pending := pending), r.(pending := pending))
  {
    forall x | 0 <= x < NUM_PROC
      ensures Unmoved(k.(pending := pending), r.(pending := pending), x)
          || Awoken(k.(pending := pending), r.(pending := pending), x)
    {
      assert Unmoved(k, r, x) || Awoken(k, r, x);
    }
  }

  /** After cond_clock has run its loop, no process waits on a flagged cond. */
  lemma {:induction false} DeliverFromKeeps(k: Kernel, c: nat)
    requires Struct(k, NULL) && CanSwitch(k) && c <= NCOND && DeliveredBelow(k, c)
    ensures var r := DeliverFrom(k, c);
            && Struct(r, NULL) && DeliveredBelow(r, NCOND) && Woke(k.(pending := r.pending), r)
            && r.timedOut == k.timedOut && (Alert(k) ==> Alert(r))
            && (forall d :: 0 <= d < NCOND && r.pending[d] ==> k.pending[d])
            && (forall d :: c <= d < NCOND && k.pending[d] ==> r.q[CondQueue(d)] == [])
            && (forall p :: 0 <= p < NUM_PROC && !IsCondQueue(k.at[p]) ==> r.status[p] == k.status[p])
    decreases NCOND - c
  {
    hide Queued, Asleep, PrioOk, PlacedBut, Deliver;
    if c < NCOND {
      DeliverKeeps(k, c);
      var m := Deliver(k, c);
      WokeKeeps(k.(pending := m.pending), m);
      DeliverFromKeeps(m, c + 1);
      var r := DeliverFrom(m, c + 1);
      forall p | 0 <= p < NUM_PROC && !IsCondQueue(k.at[p]) ensures r.status[p] == k.status[p] {
        assert Unmoved(k.(pending := m.pending), m, p) || Awoken(k.(pending := m.pending), m, p);
      }
      WokeFlags(k.(pending := m.pending), m, r.pending);
      WokeTransitive(k.(pending := r.pending), m.(pending := r.pending), r);
    } else {
      assert forall x :: 0 <= x < NUM_PROC ==> Unmoved(k, k, x);
    }
  }

  lemma CondClockKeeps(k: Kernel)
    requires KInv(k)
    ensures KInv(CondClock(k)) && Woke(k.(pending := CondClock(k).pending, nmiPending := false), CondClock(k))
    ensures CondClock(k).timedOut == k.timedOut
    ensures forall p :: 0 <= p < NUM_PROC && !IsCondQueue(k.at[p]) ==> CondClock(k).status[p] == k.status[p]
    ensures forall c :: 0 <= c < NCOND && k.pending[c] ==> CondClock(k).q[CondQueue(c)] == []
  {
    if k.nmiPending {
      var k1 := k.(nmiPending := false);
      StructFrame(k, k1, NULL);
      SameRun(k, k1);
      SemPunctualFrame(k, k1);
      hide Queued, Asleep, PrioOk, PlacedBut, DeliverFrom;
      DeliverFromKeeps(k1, 0);
      var r := DeliverFrom(k1, 0);
      SameRun(k1, k1.(pending := r.pending));
      SemPunctualFrame(k1, k1.(pending := r.pending));
      hide SemOk, Punctual, Running, Alert;
      WokeKeeps(k1.(pending := r.pending), r);
    }
  }

  lemma TickKeeps(k: Kernel)
    requires KInv(k)
    ensures KInv(Tick(k)) && Quiet(k, Tick(k))
  {
    hide Queued, Asleep, PrioOk, PlacedBut, SemOk, Flagged, Alert, Punctual, SleepClock, CondClock, Sched, Quiet;
    SleepClockKeeps(k);
    var k1 := SleepClock(k);
    CondClockKeeps(k1);
    var k2 := CondClock(k1);
    SchedKeeps(k2);
    ClockQuiet(k, k1, k2);
    QuietTransitive(k, k2, Sched(k2));
  }

  lemma QuietTransitive(k: Kernel, m: Kernel, r: Kernel)
    requires Shape(k) && Shape(m) && Shape(r) && Quiet(k, m) && Quiet(m, r)
    ensures Quiet(k, r)
  {
    forall p | 0 <= p < NUM_PROC ensures Unspawned(r, p) == Unspawned(k, p) {
      assert Unspawned(r, p) == Unspawned(m, p) && Unspawned(m, p) == Unspawned(k, p);
    }
  }

  lemma ClockQuiet(k: Kernel, k1: Kernel, k2: Kernel)
    requires Shape(k) && Shape(k1) && Shape(k2) && Woke(k.(now := k.now + 1), k1)
    requires Woke(k1.(pending := k2.pending, nmiPending := false), k2)
    ensures Quiet(k, k2)
  {
    hide Woke;
    WokeQuiet(k.(now := k.now + 1), k1);
    WokeQuiet(k1.(pending := k2.pending, nmiPending := false), k2);
    assert Quiet(k, k.(now := k.now + 1));
    assert Quiet(k1, k1.(pending := k2.pending, nmiPending := false));
    QuietTransitive(k, k.(now := k.now + 1), k1);
    QuietTransitive(k1, k1.(pending := k2.pending, nmiPending := false), k2);
    QuietTransitive(k, k1, k2);
  }

  // ---- wait ----

  /** A sleeper may also be put on a cond queue. */
  lemma EnqTimedStruct(k: Kernel, i: nat, p: nat)
    requires Struct(k, NULL) && p < NUM_PROC && k.status[p] == Timed && k.at[p] == NULL
    requires IsCondQueue(i)
    ensures Struct(Enq(k, i, p), NULL)
  {
    hide Queued, Asleep, PrioOk, Enq, Insert, InsertAt;
    EnqQueued(k, i, p);
    EnqFrame(k, i, p);
    forall x | 0 <= x < NUM_PROC ensures Placed(Enq(k, i, p), x) {
      assert Placed(k, x);
    }
  }

  /** What Park changes: the caller's status and place, and its entry on the two lists. */
  ghost predicate Parked(k: Kernel, r: Kernel, c: nat, timed: bool)
    requires Shape(k) && Shape(r) && c < NCOND
  {
    && r.curr == k.curr && r.prio == k.prio && r.count == k.count && r.now == k.now
    && r.pending == k.pending && r.nmiPending == k.nmiPending
    && r.timedOut == k.timedOut[k.curr := false]
    && r.status == k.status[k.curr := if timed then Timed else OnCond]
    && r.at == k.at[k.curr := CondQueue(c)]
    && (forall j :: 0 <= j < NUM_QUEUE && j != CondQueue(c) ==> r.q[j] == k.q[j])
    && (forall x :: x in r.sleepers <==> x in k.sleepers || (timed && x == k.curr))
  }

  lemma ParkUntimed(k: Kernel, c: nat)
    requires KInv(k) && k.curr != NULL_PROC && c < NCOND
    ensures Struct(Park(k, c, false, 0), NULL) && Parked(k, Park(k, c, false, 0), c, false)
    ensures Punctual(Park(k, c, false, 0))
  {
    hide Queued, Asleep, PrioOk, PlacedBut, Enq, SemOk, Flagged, Alert, Punctual;
    CurrInHand(k);
    var k0 := k.(timedOut := k.timedOut[k.curr := false]);
    StructFrame(k, k0, k.curr);
    ParkCurr(k0, OnCond, CondQueue(c));
    SemPunctual(k, Park(k, c, false, 0));
  }

  lemma SemPunctual(k: Kernel, r: Kernel)
    requires Shape(k) && Shape(r) && r.sleepers == k.sleepers && r.due == k.due && r.now == k.now
    ensures Punctual(k) ==> Punctual(r)
  {
  }

  lemma ParkTimed(k: Kernel, c: nat, delay: nat)
    requires KInv(k) && k.curr != NULL_PROC && c < NCOND && delay < DELAY_LIMIT
    ensures Struct(Park(k, c, true, delay), NULL) && Parked(k, Park(k, c, true, delay), c, true)
    ensures Punctual(Park(k, c, true, delay)) && Park(k, c, true, delay).due[k.curr] == k.now + delay
  {
    hide Queued, Asleep, PrioOk, PlacedBut, Enq, SemOk, Flagged, Alert, SleepInsert;
    CurrInHand(k);
    var k0 := k.(timedOut := k.timedOut[k.curr := false]);
    StructFrame(k, k0, k.curr);
    SetStatusStruct(k0, k.curr, Timed);
    var k1 := SetStatus(k0, k.curr, Timed);
    SemPunctual(k, k1);
    hide Punctual;
    SleepInsertStruct(k1, k.curr, delay);
    SleepInsertFrame(k1, k.curr, delay);
    SleepInsertMembers(k1, k.curr, delay);
    var k2 := SleepInsert(k1, k.curr, delay);
    EnqTimedStruct(k2, CondQueue(c), k.curr);
    EnqFrame(k2, CondQueue(c), k.curr);
    SemPunctual(k2, Park(k, c, true, delay));
  }

  lemma SleepInsertMembers(k: Kernel, p: nat, delay: nat)
    requires Struct(k, p) && p < NUM_PROC && delay < DELAY_LIMIT
    ensures forall x :: x in SleepInsert(k, p, delay).sleepers <==> x == p || x in k.sleepers
  {
    SleepInsertAsleep(k, p, delay);
  }

  /** The state in which wait() drops the mutex and reschedules. */
  lemma ParkKeeps(k: Kernel, c: nat, timed: bool, delay: nat)
    requires KInv(k) && k.curr != NULL_PROC && c < NCOND && delay < DELAY_LIMIT && !k.pending[c]
    ensures var r := Park(k, c, timed, delay);
            Base(r) && Flagged(r) && Punctual(r) && Parked(k, r, c, timed) && k.status[k.curr] == Curr
  {
    hide Queued, Asleep, PrioOk, PlacedBut, Park, Alert, Punctual;
    if timed { ParkTimed(k, c, delay); } else { ParkUntimed(k, c); ParkDelay(k, c, delay); }
    CurrInHand(k);
  }

  lemma ParkDelay(k: Kernel, c: nat, delay: nat)
    requires Shape(k) && c < NCOND
    ensures Park(k, c, false, delay) == Park(k, c, false, 0)
  {
    hide Enq;
  }

  /** How the unlock inside wait() changes the semaphores: not at all without a mutex. */
  ghost predicate UnlockStep(k: Kernel, r: Kernel, m: Option<nat>)
    requires Shape(k) && Shape(r) && (m.Some? ==> m.value < NSEM)
  {
    if m.Some? && k.count[m.value] < 1 then
      && SemStep(k, r, m.value, k.count[m.value] + 1)
      && (k.count[m.value] < 0 ==> k.q[SemQueue(m.value)] != [])
      && r.q[SemQueue(m.value)] == (if k.count[m.value] < 0 then k.q[SemQueue(m.value)][1..]
          else k.q[SemQueue(m.value)])
    else Quiet(k, r)
  }

  lemma UnlockKeeps(k: Kernel, m: Option<nat>)
    requires Base(k) && Flagged(k) && Punctual(k) && (m.Some? ==> m.value < NSEM)
    ensures Base(Unlock(k, m)) && Flagged(Unlock(k, m)) && Punctual(Unlock(k, m))
    ensures UnlockStep(k, Unlock(k, m), m)
  {
    hide Queued, Asleep, PrioOk, PlacedBut, Release, SemOk, Alert;
    if m.Some? { ReleaseKeeps(k, m.value); }
  }

  lemma WaitKeeps(k: Kernel, c: nat, m: Option<nat>, timed: bool, delay: nat)
    requires KInv(k) && k.curr != NULL_PROC && c < NCOND && (m.Some? ==> m.value < NSEM) && delay < DELAY_LIMIT
    ensures KInv(Wait(k, c, m, timed, delay))
    ensures UnlockStep(k, Wait(k, c, m, timed, delay), if k.pending[c] then None else m)
  {
    if k.pending[c] {
      FlagKeeps(k, Wait(k, c, m, timed, delay));
    } else {
      hide Queued, Asleep, PrioOk, PlacedBut, Park, Unlock, Sched, SemOk, Flagged, Punctual, Parked, Quiet, UnlockStep;
      var k1 := Park(k, c, timed, delay);
      ParkKeeps(k, c, timed, delay);
      UnlockKeeps(k1, m);
      SchedKeeps(Unlock(k1, m));
      ParkQuiet(k, k1, c, timed);
      UnlockStepQuiet(k, k1, Unlock(k1, m), Sched(Unlock(k1, m)), m);
    }
  }

  lemma ParkQuiet(k: Kernel, r: Kernel, c: nat, timed: bool)
    requires Shape(k) && Shape(r) && c < NCOND && Parked(k, r, c, timed) && k.status[k.curr] == Curr
    ensures Quiet(k, r)
  {
  }

  lemma UnlockStepQuiet(k: Kernel, k1: Kernel, k2: Kernel, r: Kernel, m: Option<nat>)
    requires Shape(k) && Shape(k1) && Shape(k2) && Shape(r) && (m.Some? ==> m.value < NSEM)
    requires Quiet(k, k1) && UnlockStep(k1, k2, m) && Quiet(k2, r)
    ensures UnlockStep(k, r, m)
  {
    forall p | 0 <= p < NUM_PROC ensures Unspawned(r, p) == Unspawned(k, p) {
      assert Unspawned(r, p) == Unspawned(k2, p) && Unspawned(k2, p) == Unspawned(k1, p);
    }
  }

  // ---- birth, death, boot ----

  lemma CreateKeeps(k: Kernel, priority: int, stack: bool)
    requires KInv(k) && MIN_KEY < priority <= MAX_KEY
    ensures KInv(Create(k, priority, stack))
    ensures var pid, r := FreePid(k, 1), Create(k, priority, stack);
            && r.count == k.count && (forall s :: 0 <= s < NSEM ==> r.q[SemQueue(s)] == k.q[SemQueue(s)])
            && (forall x :: 0 <= x < NUM_PROC ==> Unspawned(r, x) == (Unspawned(k, x) || (stack && pid == Some(x))))
  {
    hide Queued, Asleep, PrioOk, PlacedBut, SemOk, Flagged, Alert, Running, Punctual, FreePid;
    var pid := FreePid(k, 1);
    if pid.Some? && stack {
      PlacedAt(k, NULL, pid.value);
      NewbornStruct(k, pid.value, priority);
      NewbornRun(k, pid.value, priority);
      SameQueues(k, Create(k, priority, stack));
    }
  }

  lemma NewbornStruct(k: Kernel, p: nat, priority: int)
    requires Struct(k, NULL) && p < NUM_PROC && k.status[p] == Unused && MIN_KEY < priority <= MAX_KEY
    ensures Struct(Newborn(k, p, priority), NULL)
  {
    hide Queued, Asleep, PrioOk, PlacedBut;
    PlacedAt(k, NULL, p);
    TakeInHand(k, p);
    SetStatusStruct(k, p, Avail);
    PrioStruct(SetStatus(k, p, Avail), p, priority);
    Settle(Newborn(k, p, priority), p);
  }

  lemma NewbornRun(k: Kernel, p: nat, priority: int)
    requires Struct(k, NULL) && p < NUM_PROC && k.status[p] == Unused && Running(k) && Alert(k)
    ensures Running(Newborn(k, p, priority)) && Alert(Newborn(k, p, priority))
  {
    hide Queued, Asleep, PrioOk, PlacedBut;
    PlacedAt(k, NULL, p);
  }

  lemma PrioStruct(k: Kernel, p: nat, priority: int)
    requires p < NUM_PROC && Struct(k, p) && MIN_KEY < priority <= MAX_KEY
    ensures Struct(k.(prio := k.prio[p := priority]), p)
  {
    var r := k.(prio := k.prio[p := priority]);
    forall i | 0 <= i < NUM_QUEUE ensures Fifo(r, r.q[i]) {
      QueuedAt(k, i);
      assert Fifo(k, k.q[i]);
      FifoFrame(k, r, k.q[i]);
    }
    hide Members, Fifo;
    forall x | 0 <= x < NUM_PROC && x != p ensures Placed(r, x) {
      assert Placed(k, x);
    }
  }

  /** The second half of spawn: a process created and not yet queued becomes ready. */
  lemma MakeAvailNewKeeps(k: Kernel, p: nat)
    requires KInv(k) && p < NUM_PROC && k.status[p] == Avail && k.at[p] == NULL
    ensures KInv(MakeAvail(k, p))
    ensures var r := MakeAvail(k, p);
            && r.count == k.count && (forall s :: 0 <= s < NSEM ==> r.q[SemQueue(s)] == k.q[SemQueue(s)])
            && (forall x :: 0 <= x < NUM_PROC ==> Unspawned(r, x) == (Unspawned(k, x) && x != p))
  {
    PlacedAt(k, NULL, p);
    TakeInHand(k, p);
    MakeAvailStruct(k, p);
    MakeAvailKeeps(k, p);
    hide Queued, Asleep, PrioOk, PlacedBut, MakeAvail, SemOk, Flagged, Alert, Punctual;
    SameWaitingKeeps(k, MakeAvail(k, p));
  }

  lemma ExitKeeps(k: Kernel)
    requires KInv(k) && k.curr != NULL_PROC
    ensures KInv(Exit(k)) && Quiet(k, Exit(k))
  {
    hide Queued, Asleep, PrioOk, PlacedBut, Sched, SemOk, Flagged, Alert, Punctual;
    CurrInHand(k);
    var k1 := SetStatus(k, k.curr, Unused);
    SetStatusStruct(k, k.curr, Unused);
    Settle(k1, k.curr);
    SameQueues(k, k1);
    SchedKeeps(k1);
  }

  lemma BootInv(counts: seq<int>)
    requires |counts| == NSEM && forall s :: 0 <= s < NSEM ==> 0 <= counts[s]
    ensures KInv(Boot(counts)) && Booting(Boot(counts))
  {
    var k := Boot(counts);
    forall p | 0 <= p < NUM_PROC ensures Placed(k, p) {
    }
  }
}
