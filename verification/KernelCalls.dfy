/** What each kernel call does to the processes it concerns, and that it leaves every other
    waiter where it was. */
module KernelCalls {
  import opened Config
  import opened ProcQueue
  import opened SleepList
  import opened KernelState
  import opened KernelInv
  import opened KernelSteps
  import opened KernelTheorems

  predicate Awake(r: Kernel, p: nat)
    requires Shape(r) && p < NUM_PROC
  {
    r.status[p] == Avail || r.status[p] == Curr
  }

  /** Process p, if it was waiting, waits on in the same place. */
  ghost predicate WaitsOn(k: Kernel, r: Kernel, p: nat)
    requires Shape(k) && Shape(r) && p < NUM_PROC
  {
    Waiting(k.status[p]) ==> r.status[p] == k.status[p] && r.at[p] == k.at[p]
  }

  /** What a reschedule leaves alone. */
  ghost predicate Spared(k: Kernel, r: Kernel, p: nat)
    requires Shape(k) && Shape(r) && p < NUM_PROC
  {
    && WaitsOn(k, r, p) && (Awake(k, p) ==> Awake(r, p))
    && r.timedOut == k.timedOut && r.pending == k.pending && r.sleepers == k.sleepers && r.count == k.count
  }

  /** A reschedule moves no waiter and puts nobody to sleep. */
  lemma SchedWaits(k: Kernel, p: nat)
    requires Struct(k, NULL) && CanSwitch(k) && p < NUM_PROC
    ensures Spared(k, Sched(k), p) && Spared(k, SchedIfNeeded(k), p)
  {
    hide Queued, Asleep, PrioOk, PlacedBut, Sched;
    SchedPicksBest(k);
    PlacedAt(k, NULL, k.curr);
  }

  // ---- conds ----

  /** cond_signal wakes the first waiter, of highest priority and longest waiting, takes it
      off the sleep list too, and leaves everyone else waiting. */
  lemma SignalWakesFirst(k: Kernel, c: nat, x: nat)
    requires KInv(k) && c < NCOND && x < NUM_PROC && k.q[CondQueue(c)] != []
    ensures var p, r := k.q[CondQueue(c)][0], CondSignal(k, c);
            && p < NUM_PROC && Awake(r, p) && r.timedOut == k.timedOut && p !in r.sleepers
            && (x != p ==> WaitsOn(k, r, x))
            && (x in k.q[CondQueue(c)] && x != p ==> Before(k, p, x))
  {
    hide Queued, Asleep, PrioOk, PlacedBut, Wake, Sched, SemOk, Flagged, Alert, Punctual;
    WakeFromCond(k, c);
    HeadAt(k, CondQueue(c));
    QueueBefore(k, CondQueue(c));
    var p := k.q[CondQueue(c)][0];
    var r := Wake(Deq(k, CondQueue(c)), p);
    hide Deq;
    WokeKeeps(k, r);
    assert Unmoved(k, r, x) || Awoken(k, r, x);
    AvailAwake(r, p);
    SchedWaits(r, p);
    SchedWaits(r, x);
  }

  lemma AvailAwake(k: Kernel, p: nat)
    requires Struct(k, NULL) && p < NUM_PROC && k.status[p] == Avail
    ensures p !in k.sleepers
  {
    hide Queued, Asleep, PrioOk;
    assert Placed(k, p);
  }

  /** With nobody on the cond a signal is lost and disturbs no waiter. */
  lemma SignalOnNobody(k: Kernel, c: nat, x: nat)
    requires KInv(k) && c < NCOND && x < NUM_PROC && k.q[CondQueue(c)] == []
    ensures WaitsOn(k, CondSignal(k, c), x) && CondSignal(k, c).pending == k.pending
  {
    hide Queued, Asleep, PrioOk, PlacedBut, Wake, Sched, SemOk, Flagged, Alert, Punctual;
    SchedWaits(k, x);
  }

  /** wake_all: who was on the cond is awake, who was not waits on. */
  lemma AllWoken(k: Kernel, c: nat, p: nat)
    requires Struct(k, NULL) && CanSwitch(k) && c < NCOND && p < NUM_PROC
    ensures var r := WakeAll(k, c);
            && Struct(r, NULL) && CanSwitch(r) && r.pending == k.pending && r.timedOut == k.timedOut
            && (if k.at[p] == CondQueue(c) then r.status[p] == Avail && p !in r.sleepers else WaitsOn(k, r, p))
  {
    hide Queued, Asleep, PrioOk, PlacedBut, WakeAll;
    WakeAllKeeps(k, c);
    var r := WakeAll(k, c);
    WokeKeeps(k, r);
    assert Unmoved(k, r, p) || Awoken(k, r, p);
    EmptyQueue(r, CondQueue(c), p);
    if k.at[p] == CondQueue(c) { AvailAwake(r, p); }
  }

  /** cond_broadcast wakes everyone on the cond and disturbs no other waiter; no flag changes. */
  lemma BroadcastWakesAll(k: Kernel, c: nat, p: nat)
    requires KInv(k) && c < NCOND && p < NUM_PROC
    ensures var r := CondBroadcast(k, c);
            && r.pending == k.pending && r.timedOut == k.timedOut
            && (if k.at[p] == CondQueue(c) then Awake(r, p) && p !in r.sleepers else WaitsOn(k, r, p))
  {
    hide Queued, Asleep, PrioOk, PlacedBut, WakeAll, Sched, SemOk, Flagged, Alert, Punctual;
    AllWoken(k, c, p);
    SchedWaits(WakeAll(k, c), p);
  }

  /** So does cond_signal_isr, which raises the flag and leaves the reschedule to others. */
  lemma IsrWakesAll(k: Kernel, c: nat, p: nat)
    requires KInv(k) && c < NCOND && p < NUM_PROC
    ensures var r := CondSignalIsr(k, c);
            && r.pending == k.pending[c := true] && r.timedOut == k.timedOut
            && (if k.at[p] == CondQueue(c) then r.status[p] == Avail && p !in r.sleepers else WaitsOn(k, r, p))
  {
    hide Queued, Asleep, PrioOk, PlacedBut, WakeAll, SemOk, Flagged, Alert, Punctual, Quiet;
    var k1 := k.(pending := k.pending[c := true]);
    RaisedKeeps(k, k1);
    AllWoken(k1, c, p);
  }

  /** wait() without a flag to find: the caller is on the cond, with a clean verdict, due
      `delay` ticks from now if timed, and somebody else runs. */
  lemma WaitParks(k: Kernel, c: nat, m: Option<nat>, timed: bool, delay: nat)
    requires KInv(k) && k.curr != NULL_PROC && c < NCOND && (m.Some? ==> m.value < NSEM) && delay < DELAY_LIMIT
        && !k.pending[c]
    ensures var p, r := k.curr, Wait(k, c, m, timed, delay);
            && r.curr != p && r.status[p] == (if timed then Timed else OnCond) && r.at[p] == CondQueue(c)
            && !r.timedOut[p] && (timed ==> p in r.sleepers && r.due[p] == k.now + delay)
            && r.pending == k.pending
  {
    hide Queued, Asleep, PrioOk, PlacedBut, Park, Unlock, Sched, SemOk, Flagged, Punctual, Alert;
    var p := k.curr;
    var k1 := Park(k, c, timed, delay);
    ParkKeeps(k, c, timed, delay);
    ParkedDue(k, c, timed, delay);
    UnlockKeeps(k1, m);
    UnlockWaits(k1, m, p);
    var k2 := Unlock(k1, m);
    SchedPicksBest(k2);
    SchedWaits(k2, p);
    SchedDue(k2);
  }

  lemma ParkedDue(k: Kernel, c: nat, timed: bool, delay: nat)
    requires Shape(k) && c < NCOND
    ensures timed ==> Park(k, c, timed, delay).due[k.curr] == k.now + delay
  {
    hide Insert, InsertDue;
  }

  lemma SchedDue(k: Kernel)
    requires Struct(k, NULL) && CanSwitch(k)
    ensures Sched(k).due == k.due
  {
    hide Queued, Asleep, PrioOk, PlacedBut;
    SchedFate(k, 0);
  }

  lemma UnlockWaits(k: Kernel, m: Option<nat>, p: nat)
    requires Base(k) && (m.Some? ==> m.value < NSEM) && p < NUM_PROC && (k.status[p] == Timed || k.status[p] == OnCond)
    ensures var r := Unlock(k, m);
            && r.status[p] == k.status[p] && r.at[p] == k.at[p] && r.curr == k.curr && r.timedOut == k.timedOut
            && r.pending == k.pending && r.sleepers == k.sleepers && r.due == k.due
  {
    hide Struct, CanSwitch, SemOk, Release;
    if m.Some? { ReleaseWaits(k, m.value, p); }
  }

  lemma ReleaseWaits(k: Kernel, s: nat, p: nat)
    requires Base(k) && s < NSEM && p < NUM_PROC && (k.status[p] == Timed || k.status[p] == OnCond)
    ensures var r := Release(k, s);
            && r.status[p] == k.status[p] && r.at[p] == k.at[p] && r.curr == k.curr && r.timedOut == k.timedOut
            && r.pending == k.pending && r.sleepers == k.sleepers && r.due == k.due
  {
    hide Asleep, PrioOk, Fifo, Insert;
    if k.count[s] < 0 {
      assert k.q[SemQueue(s)] != [];
      HeadAt(k, SemQueue(s));
      PlacedAt(k, NULL, p);
    }
  }

  /** A flag on a cond nobody waits for outlasts the tick: it is there for the next wait. */
  lemma TickKeepsFlag(k: Kernel, c: nat)
    requires KInv(k) && c < NCOND && k.pending[c] && k.q[CondQueue(c)] == []
    ensures Tick(k).pending[c]
  {
    hide Queued, Asleep, PrioOk, PlacedBut, SleepClock, Sched, SemOk, Flagged, Alert, Punctual, DeliverFrom;
    SleepClockKeeps(k);
    var k1 := SleepClock(k);
    if k1.nmiPending {
      var k2 := k1.(nmiPending := false);
      StructFrame(k1, k2, NULL);
      FlagStays(k2, 0, c);
    }
    CondClockKeeps(k1);
    SchedWaits(CondClock(k1), 0);
  }

  lemma {:induction false} FlagStays(k: Kernel, d: nat, c: nat)
    requires Struct(k, NULL) && CanSwitch(k) && d <= NCOND && c < NCOND && k.pending[c] && k.q[CondQueue(c)] == []
    ensures DeliverFrom(k, d).pending[c]
    decreases NCOND - d
  {
    hide Queued, Asleep, PrioOk, PlacedBut, WakeAll;
    if d < NCOND {
      DeliverSpares(k, d, c);
      FlagStays(Deliver(k, d), d + 1, c);
    }
  }

  lemma DeliverSpares(k: Kernel, d: nat, c: nat)
    requires Struct(k, NULL) && CanSwitch(k) && d < NCOND && c < NCOND && k.pending[c] && k.q[CondQueue(c)] == []
    ensures var r := Deliver(k, d); Struct(r, NULL) && CanSwitch(r) && r.pending[c] && r.q[CondQueue(c)] == []
  {
    hide Queued, Asleep, PrioOk, PlacedBut, WakeAll;
    WakeAllKeeps(k, d);
    var r := WakeAll(k, d);
    WokeKeeps(k, r);
    StructFrame(r, r.(pending := r.pending[d := false]), NULL);
  }

  // ---- semaphores ----

  /** A wait that finds no token parks the caller, and somebody else runs; one that finds a
      token takes it and goes on. No other waiter is disturbed. */
  lemma SemWaitParks(k: Kernel, s: nat, x: nat)
    requires KInv(k) && s < NSEM && (k.curr != NULL_PROC || k.count[s] > 0) && x < NUM_PROC
    ensures var p, r := k.curr, SemWait(k, s);
            && WaitsOn(k, r, x) && r.count[s] == k.count[s] - 1
            && (if k.count[s] > 0 then r.curr == p && r.status == k.status
                else r.curr != p && r.status[p] == OnSem && r.at[p] == SemQueue(s))
  {
    if k.count[s] <= 0 { SemParks(k, s, x); }
  }

  lemma SemParks(k: Kernel, s: nat, x: nat)
    requires KInv(k) && s < NSEM && k.curr != NULL_PROC && k.count[s] <= 0 && x < NUM_PROC
    ensures var p, r := k.curr, SemWait(k, s);
            WaitsOn(k, r, x) && r.count[s] == k.count[s] - 1 && r.curr != p && r.status[p] == OnSem
                && r.at[p] == SemQueue(s)
  {
    hide Queued, Asleep, PrioOk, PlacedBut, Enq, Sched, SemOk, Flagged, Alert, Punctual;
    var k1 := k.(count := k.count[s := k.count[s] - 1]);
    CurrInHand(k);
    StructFrame(k, k1, k.curr);
    ParkCurr(k1, OnSem, SemQueue(s));
    var k2 := Enq(SetStatus(k1, k.curr, OnSem), SemQueue(s), k.curr);
    EnqPlace(SetStatus(k1, k.curr, OnSem), SemQueue(s), k.curr);
    SchedPicksBest(k2);
    SchedWaits(k2, x);
    SchedWaits(k2, k.curr);
  }

  lemma EnqPlace(k: Kernel, i: nat, p: nat)
    requires Shape(k) && i < NUM_QUEUE && p < NUM_PROC
    ensures var r := Enq(k, i, p);
            r.at == k.at[p := i] && r.status == k.status && r.curr == k.curr && r.count == k.count
  {
    hide Insert;
  }

  // ---- birth and death ----

  /** create fills the least unused row: ready in name, on no queue and of the priority asked
      for. Without a free row or a stack nothing is left behind. */
  lemma CreateNewborn(k: Kernel, priority: int, stack: bool, x: nat)
    requires KInv(k) && x < NUM_PROC
    ensures var r := Create(k, priority, stack);
            (exists p :: 1 <= p < NUM_PROC && k.status[p] == Unused) && stack <==> r != k
    ensures var r := Create(k, priority, stack);
            r != k && k.status[x] == Unused && x != NULL_PROC && (forall y :: 1 <= y < x ==> k.status[y] != Unused) ==>
              && r.status == k.status[x := Avail] && r.prio == k.prio[x := priority] && r.at == k.at
                  && r.at[x] == NULL && x !in r.sleepers
  {
    hide Queued, Asleep, PrioOk, Running, SemOk, Alert, Flagged, Punctual;
    var pid := FreePid(k, 1);
    if pid.Some? { assert Newborn(k, pid.value, priority).status[pid.value] == Avail; }
    if k.status[x] == Unused { assert Placed(k, x); }
  }

  /** A process that returns gives its row back and never runs again; no waiter notices. */
  lemma ExitFrees(k: Kernel, x: nat)
    requires KInv(k) && k.curr != NULL_PROC && x < NUM_PROC
    ensures var p, r := k.curr, Exit(k);
            && r.status[p] == Unused && r.at[p] == NULL && r.curr != p && WaitsOn(k, r, x)
            && (x != p && x != r.curr ==> r.status[x] == k.status[x] && r.at[x] == k.at[x])
  {
    hide Queued, Asleep, PrioOk, PlacedBut, Sched, SemOk, Flagged, Alert, Punctual;
    CurrInHand(k);
    CurrAway(k);
    SetStatusStruct(k, k.curr, Unused);
    Settle(SetStatus(k, k.curr, Unused), k.curr);
    SchedPicksBest(SetStatus(k, k.curr, Unused));
  }

  lemma CurrAway(k: Kernel)
    requires KInv(k) && k.curr != NULL_PROC
    ensures k.at[k.curr] == NULL && k.curr !in k.sleepers
  {
    hide Queued, Asleep, PrioOk;
    CurrInHand(k);
    assert Placed(k, k.curr);
  }
}
