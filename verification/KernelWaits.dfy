/** Waits from call to return: over every run, when a waiting process is woken, by whom, and
    what its wait() returns. */
module KernelWaits {
  import opened Config
  import opened ProcQueue
  import opened SleepList
  import opened KernelState
  import opened KernelInv
  import opened KernelSteps
  import opened KernelRuns
  import opened KernelTheorems
  import opened KernelCalls
  import CondRaces

  // ---- verdicts stay put ----

  /** p, awake or in an untimed wait, stays so or is woken, and keeps its verdict. */
  ghost predicate Steady(k: Kernel, r: Kernel, p: nat)
    requires Shape(k) && Shape(r) && p < NUM_PROC
  {
    && (Awake(k, p) ==> Awake(r, p))
    && (k.status[p] == OnCond ==> r.status[p] == OnCond || Awake(r, p))
    && (Awake(k, p) || k.status[p] == OnCond ==> r.timedOut[p] == k.timedOut[p])
  }

  /** A state with p as it was, before a possible reschedule. */
  lemma SteadySched(k: Kernel, m: Kernel, p: nat)
    requires Shape(k) && Struct(m, NULL) && CanSwitch(m) && p < NUM_PROC && Steady(k, m, p)
    ensures Steady(k, Sched(m), p) && Steady(k, SchedIfNeeded(m), p)
  {
    hide Struct, CanSwitch, Sched;
    SchedWaits(m, p);
  }

  lemma SteadySem(k: Kernel, s: nat, p: nat)
    requires KInv(k) && s < NSEM && p < NUM_PROC
    ensures (k.curr != NULL_PROC && p != k.curr) || k.count[s] > 0 ==> Steady(k, SemWait(k, s), p)
    ensures Steady(k, SemSignal(k, s), p)
  {
    hide Queued, Asleep, PrioOk, PlacedBut, Release, Enq, Sched, SemOk, Flagged, Alert, Punctual;
    if k.curr != NULL_PROC && p != k.curr && k.count[s] <= 0 {
      var k1 := k.(count := k.count[s := k.count[s] - 1]);
      CurrInHand(k);
      StructFrame(k, k1, k.curr);
      ParkCurr(k1, OnSem, SemQueue(s));
      var k2 := Enq(SetStatus(k1, k.curr, OnSem), SemQueue(s), k.curr);
      EnqFrame(SetStatus(k1, k.curr, OnSem), SemQueue(s), k.curr);
      SteadySched(k, k2, p);
    }
    ReleaseKeeps(k, s);
    SteadyRelease(k, s, p);
    SteadySched(k, Release(k, s), p);
  }

  lemma SteadyRelease(k: Kernel, s: nat, p: nat)
    requires Shape(k) && s < NSEM && p < NUM_PROC
    ensures Steady(k, Release(k, s), p)
  {
    hide Insert;
  }

  lemma SteadyWait(k: Kernel, c: nat, m: Option<nat>, timed: bool, delay: nat, p: nat)
    requires KInv(k) && k.curr != NULL_PROC && c < NCOND && (m.Some? ==> m.value < NSEM) && delay < TWO31
    requires p < NUM_PROC && p != k.curr
    ensures Steady(k, Wait(k, c, m, timed, delay), p)
  {
    if !k.pending[c] {
      hide Queued, Asleep, PrioOk, PlacedBut, Park, Unlock, Sched, SemOk, Flagged, Punctual, Alert, Steady;
      var k1 := Park(k, c, timed, delay);
      ParkKeeps(k, c, timed, delay);
      SteadyPark(k, k1, c, timed, p);
      UnlockKeeps(k1, m);
      SteadyUnlock(k1, m, p);
      SteadyTwice(k, k1, Unlock(k1, m), p);
      SteadySched(k, Unlock(k1, m), p);
    }
  }

  lemma SteadyPark(k: Kernel, r: Kernel, c: nat, timed: bool, p: nat)
    requires Shape(k) && Shape(r) && c < NCOND && Parked(k, r, c, timed) && p < NUM_PROC && p != k.curr
    ensures Steady(k, r, p)
  {
  }

  lemma SteadyTwice(k: Kernel, m: Kernel, r: Kernel, p: nat)
    requires Shape(k) && Shape(m) && Shape(r) && p < NUM_PROC && Steady(k, m, p) && Steady(m, r, p)
    ensures Steady(k, r, p)
  {
  }

  lemma SteadyUnlock(k: Kernel, m: Option<nat>, p: nat)
    requires Shape(k) && (m.Some? ==> m.value < NSEM) && p < NUM_PROC
    ensures Steady(k, Unlock(k, m), p)
  {
    hide Release;
    if m.Some? { SteadyRelease(k, m.value, p); }
  }

  lemma SteadyAll(k: Kernel, c: nat, p: nat)
    requires Struct(k, NULL) && CanSwitch(k) && c < NCOND && p < NUM_PROC
    ensures var r := WakeAll(k, c); Struct(r, NULL) && CanSwitch(r) && Steady(k, r, p)
  {
    hide Queued, Asleep, PrioOk, PlacedBut, WakeAll;
    WakeAllKeeps(k, c);
    WokeKeeps(k, WakeAll(k, c));
    assert Unmoved(k, WakeAll(k, c), p) || Awoken(k, WakeAll(k, c), p);
  }

  lemma SteadyCond(k: Kernel, c: nat, p: nat)
    requires KInv(k) && c < NCOND && p < NUM_PROC
    ensures Steady(k, CondSignal(k, c), p) && Steady(k, CondBroadcast(k, c), p) && Steady(k, CondSignalIsr(k, c), p)
  {
    hide Queued, Asleep, PrioOk, PlacedBut, Wake, WakeAll, Sched, SemOk, Flagged, Alert, Punctual, Quiet;
    SteadyAll(k, c, p);
    SteadySched(k, WakeAll(k, c), p);
    var k1 := k.(pending := k.pending[c := true]);
    RaisedKeeps(k, k1);
    SteadyAll(k1, c, p);
    if k.q[CondQueue(c)] == [] { SteadySched(k, k, p); } else { SteadySignal(k, c, p); }
  }

  lemma SteadySignal(k: Kernel, c: nat, p: nat)
    requires KInv(k) && c < NCOND && p < NUM_PROC && k.q[CondQueue(c)] != []
    ensures Steady(k, CondSignal(k, c), p)
  {
    hide Queued, Asleep, PrioOk, PlacedBut, Wake, Sched, SemOk, Flagged, Alert, Punctual;
    WakeFromCond(k, c);
    var r := Wake(Deq(k, CondQueue(c)), k.q[CondQueue(c)][0]);
    hide Deq;
    WokeKeeps(k, r);
    SteadySched(k, r, p);
  }

  lemma SteadySleep(k: Kernel, delay: nat, p: nat)
    requires KInv(k) && k.curr != NULL_PROC && delay < TWO31 && p < NUM_PROC && p != k.curr
    ensures Steady(k, Sleep(k, delay), p)
  {
    hide Queued, Asleep, PrioOk, PlacedBut, SleepInsert, Sched, SemOk, Flagged, Alert, Punctual;
    SleepNow(k, delay);
    SleepInsertFrame(SetStatus(k, k.curr, Timed), k.curr, delay);
    SteadySched(k, SleepInsert(SetStatus(k, k.curr, Timed), k.curr, delay), p);
  }

  lemma SteadyExit(k: Kernel, p: nat)
    requires KInv(k) && k.curr != NULL_PROC && p < NUM_PROC && p != k.curr
    ensures Steady(k, Exit(k), p)
  {
    hide Queued, Asleep, PrioOk, PlacedBut, Sched, SemOk, Flagged, Alert, Punctual;
    CurrInHand(k);
    CurrAway(k);
    SetStatusStruct(k, k.curr, Unused);
    Settle(SetStatus(k, k.curr, Unused), k.curr);
    SteadySched(k, SetStatus(k, k.curr, Unused), p);
  }

  lemma SteadyBirth(k: Kernel, priority: int, stack: bool, x: nat, p: nat)
    requires KInv(k) && x < NUM_PROC && p < NUM_PROC
    ensures Steady(k, Create(k, priority, stack), p) && Steady(k, Sched(k), p)
    ensures k.status[x] == Avail ==> Steady(k, MakeAvail(k, x), p)
  {
    hide Queued, Asleep, PrioOk, PlacedBut, SemOk, Flagged, Alert, Punctual, Sched, Enq, FreePid;
    SteadySched(k, k, p);
    EnqFrame(SetStatus(k, x, Avail), AVAIL_LIST, x);
  }

  lemma SteadyTick(k: Kernel, p: nat)
    requires KInv(k) && p < NUM_PROC
    ensures Steady(k, Tick(k), p)
  {
    hide Queued, Asleep, PrioOk, PlacedBut, SleepClock, CondClock, Sched, SemOk, Flagged, Alert, Punctual;
    PlacedAt(k, NULL, p);
    SleepClockKeeps(k);
    var k1 := SleepClock(k);
    CondClockKeeps(k1);
    var k2 := CondClock(k1);
    assert Unmoved(k1.(pending := k2.pending, nmiPending := false), k2, p)
        || Awoken(k1.(pending := k2.pending, nmiPending := false), k2, p);
    SteadySched(k, k2, p);
  }

  /** Whatever happens short of p's own next step, p keeps the verdict it has and stays awake,
      or in its untimed wait until it is woken. */
  lemma SteadyEvent(s: Sys, e: Event, p: nat)
    requires SysInv(s) && Legal(s, e) && p < NUM_PROC && (p == s.k.curr ==> s.pc[p].Resuming? && !Returns(s, e, p))
    requires Awake(s.k, p) || s.k.status[p] == OnCond
    ensures Steady(s.k, Next(s, e).k, p)
  {
    hide KInv, Books, BornOk, Steady, SemWait, SemSignal, Wait, Sleep, Sched, Tick, Create, Exit, MakeAvail,
         CondSignal, CondBroadcast, CondSignalIsr;
    match e {
      case SemWaitCall(i) => SteadySem(s.k, i, p);
      case SemSignalCall(i) => SteadySem(s.k, i, p);
      case LockCall(m) => SteadySem(s.k, m, p);
      case UnlockSignal(m) => SteadySem(s.k, m, p);
      case WaitCall(c, m, timed, delay) => SteadyWait(s.k, c, m, timed, delay, p);
      case SignalCall(c) => SteadyCond(s.k, c, p);
      case BroadcastCall(c) => SteadyCond(s.k, c, p);
      case IsrSignal(c) => SteadyCond(s.k, c, p);
      case SleepCall(delay) => SteadySleep(s.k, delay, p);
      case TickIntr => SteadyTick(s.k, p);
      case MakeAvailCall(x) => BornAvail(s, x); SteadyBirth(s.k, 0, false, x, p);
      case YieldCall => SteadyBirth(s.k, 0, false, 0, p);
      case CreateCall(priority, stack) => SteadyBirth(s.k, priority, stack, 0, p);
      case ExitCall => SteadyExit(s.k, p);
      case _ => SteadySame(s.k, Next(s, e).k, p);
    }
  }

  lemma SteadySame(k: Kernel, r: Kernel, p: nat)
    requires Shape(k) && Shape(r) && p < NUM_PROC && r.status == k.status && r.timedOut == k.timedOut
    ensures Steady(k, r, p)
  {
  }

  /** p takes the last step of its wait: it reads its verdict. */
  predicate Returns(s: Sys, e: Event, p: nat)
    requires SysShape(s)
  {
    e.WaitReturn? && s.k.curr == p
  }

  /** Until then it stays inside wait(). */
  lemma StaysInside(s: Sys, e: Event, p: nat)
    requires SysInv(s) && Legal(s, e) && p < NUM_PROC && s.pc[p].Resuming? && !Returns(s, e, p)
    requires Awake(s.k, p) || s.k.status[p] == OnCond || s.k.status[p] == Timed
    ensures Next(s, e).pc[p] == s.pc[p] && Next(s, e).rc[p] == s.rc[p]
  {
    hide KInv, Books, BornOk, SemWait, SemSignal, Wait, Sleep, Sched, Tick, Create, Exit, MakeAvail,
         CondSignal, CondBroadcast, CondSignalIsr;
  }

  // ---- what wakes a waiter ----

  /** e ends the wait of p, parked on c, before its own time: it signals c to everybody, or to
      p as the first in line, or it is a tick that finds the flag of c up. */
  predicate Rouses(k: Kernel, e: Event, p: nat, c: nat)
    requires Shape(k) && c < NCOND
  {
    || e == BroadcastCall(c) || e == IsrSignal(c)
    || (e == SignalCall(c) && First(k, CondQueue(c)) == p)
    || (e.TickIntr? && k.pending[c])
  }

  /** p waits on where it was. */
  ghost predicate StaysOn(k: Kernel, r: Kernel, p: nat)
    requires Shape(k) && Shape(r) && p < NUM_PROC
  {
    r.status[p] == k.status[p] && r.at[p] == k.at[p]
  }

  lemma ParkedWaits(k: Kernel, p: nat, c: nat)
    requires KInv(k) && p < NUM_PROC && c < NCOND && k.at[p] == CondQueue(c)
    ensures (k.status[p] == OnCond || k.status[p] == Timed) && p != k.curr && p != NULL_PROC
    ensures k.q[CondQueue(c)] != []
  {
    hide Queued, Asleep, PrioOk, PlacedBut;
    PlacedAt(k, NULL, p);
    if k.q[CondQueue(c)] == [] { EmptyQueue(k, CondQueue(c), p); }
  }

  lemma SemStays(k: Kernel, s: nat, p: nat)
    requires KInv(k) && s < NSEM && p < NUM_PROC && (k.status[p] == OnCond || k.status[p] == Timed)
    ensures k.curr != NULL_PROC || k.count[s] > 0 ==> StaysOn(k, SemWait(k, s), p)
    ensures StaysOn(k, SemSignal(k, s), p)
  {
    hide Queued, Asleep, PrioOk, PlacedBut, SemWait, Release, Sched, SemOk, Flagged, Alert, Punctual;
    if k.curr != NULL_PROC || k.count[s] > 0 { SemWaitParks(k, s, p); }
    ReleaseKeeps(k, s);
    ReleaseWaits(k, s, p);
    SchedWaits(Release(k, s), p);
  }

  lemma WaitStays(k: Kernel, c: nat, m: Option<nat>, timed: bool, delay: nat, p: nat)
    requires KInv(k) && k.curr != NULL_PROC && c < NCOND && (m.Some? ==> m.value < NSEM) && delay < TWO31
    requires p < NUM_PROC && p != k.curr && (k.status[p] == OnCond || k.status[p] == Timed)
    ensures StaysOn(k, Wait(k, c, m, timed, delay), p)
  {
    if !k.pending[c] {
      hide Queued, Asleep, PrioOk, PlacedBut, Park, Unlock, Sched, SemOk, Flagged, Punctual, Alert, StaysOn;
      var k1 := Park(k, c, timed, delay);
      ParkKeeps(k, c, timed, delay);
      ParkStays(k, k1, c, timed, p);
      UnlockKeeps(k1, m);
      UnlockStays(k1, m, p);
      var k2 := Unlock(k1, m);
      SchedStays(k2, p);
      StaysTwice(k, k1, k2, p);
      StaysTwice(k, k2, Sched(k2), p);
    }
  }

  lemma ParkStays(k: Kernel, r: Kernel, c: nat, timed: bool, p: nat)
    requires Shape(k) && Shape(r) && c < NCOND && Parked(k, r, c, timed) && p < NUM_PROC && p != k.curr
    ensures StaysOn(k, r, p) && r.status[p] == k.status[p]
  {
  }

  lemma UnlockStays(k: Kernel, m: Option<nat>, p: nat)
    requires Base(k) && (m.Some? ==> m.value < NSEM) && p < NUM_PROC && (k.status[p] == Timed || k.status[p] == OnCond)
    ensures StaysOn(k, Unlock(k, m), p) && Unlock(k, m).status[p] == k.status[p]
  {
    hide Struct, CanSwitch, SemOk, Unlock;
    UnlockWaits(k, m, p);
  }

  lemma SchedStays(k: Kernel, p: nat)
    requires Struct(k, NULL) && CanSwitch(k) && p < NUM_PROC && (k.status[p] == Timed || k.status[p] == OnCond)
    ensures StaysOn(k, Sched(k), p)
  {
    assert Shape(k);
    hide Struct, CanSwitch, Sched;
    SchedWaits(k, p);
  }

  lemma StaysTwice(k: Kernel, m: Kernel, r: Kernel, p: nat)
    requires Shape(k) && Shape(m) && Shape(r) && p < NUM_PROC && StaysOn(k, m, p) && StaysOn(m, r, p)
    ensures StaysOn(k, r, p)
  {
  }

  lemma SleepStays(k: Kernel, delay: nat, p: nat)
    requires KInv(k) && k.curr != NULL_PROC && delay < TWO31
    requires p < NUM_PROC && p != k.curr && (k.status[p] == OnCond || k.status[p] == Timed)
    ensures StaysOn(k, Sleep(k, delay), p)
  {
    hide Queued, Asleep, PrioOk, PlacedBut, SleepInsert, Sched, SemOk, Flagged, Alert, Punctual;
    SleepNow(k, delay);
    SleepInsertFrame(SetStatus(k, k.curr, Timed), k.curr, delay);
    SchedWaits(SleepInsert(SetStatus(k, k.curr, Timed), k.curr, delay), p);
  }

  lemma BirthStays(k: Kernel, priority: int, stack: bool, x: nat, p: nat)
    requires KInv(k) && x < NUM_PROC && p < NUM_PROC && (k.status[p] == OnCond || k.status[p] == Timed)
    ensures StaysOn(k, Create(k, priority, stack), p) && StaysOn(k, Sched(k), p)
    ensures k.status[x] == Avail ==> StaysOn(k, MakeAvail(k, x), p)
  {
    hide Queued, Asleep, PrioOk, PlacedBut, SemOk, Flagged, Alert, Punctual, Sched, Enq, FreePid;
    SchedWaits(k, p);
    EnqFrame(SetStatus(k, x, Avail), AVAIL_LIST, x);
  }

  /** What a signal of d does to p, parked on c. */
  lemma SignalStays(k: Kernel, d: nat, p: nat, c: nat)
    requires KInv(k) && d < NCOND && p < NUM_PROC && c < NCOND && k.at[p] == CondQueue(c)
    requires Waiting(k.status[p]) && p != NULL_PROC
    ensures var r := CondSignal(k, d); if d == c && First(k, CondQueue(c)) == p then Awake(r, p) else StaysOn(k, r, p)
    ensures var r := CondBroadcast(k, d); if d == c then Awake(r, p) else StaysOn(k, r, p)
    ensures var r := CondSignalIsr(k, d); if d == c then Awake(r, p) else StaysOn(k, r, p)
  {
    hide Queued, Asleep, PrioOk, PlacedBut, CondSignal, CondBroadcast, CondSignalIsr, SemOk, Flagged, Alert, Punctual;
    BroadcastWakesAll(k, d, p);
    IsrWakesAll(k, d, p);
    if k.q[CondQueue(d)] == [] {
      EmptyQueue(k, CondQueue(d), p);
      SignalOnNobody(k, d, p);
    } else {
      HeadAt(k, CondQueue(d));
      SignalWakesFirst(k, d, p);
    }
  }

  /** A pass of cond_clock leaves waiters on unflagged conds where they are. */
  lemma {:induction false} DeliverStays(k: Kernel, d: nat, p: nat, c: nat)
    requires Struct(k, NULL) && CanSwitch(k) && d <= NCOND && p < NUM_PROC && c < NCOND
    requires k.at[p] == CondQueue(c) && Waiting(k.status[p]) && !k.pending[c]
    ensures StaysOn(k, DeliverFrom(k, d), p) && !DeliverFrom(k, d).pending[c]
    decreases NCOND - d
  {
    assert Shape(k);
    hide Struct, CanSwitch, WakeAll, Deliver;
    if d < NCOND {
      DeliverOne(k, d, p, c);
      DeliverStays(Deliver(k, d), d + 1, p, c);
    }
  }

  lemma DeliverOne(k: Kernel, d: nat, p: nat, c: nat)
    requires Struct(k, NULL) && CanSwitch(k) && d < NCOND && p < NUM_PROC && c < NCOND
    requires k.at[p] == CondQueue(c) && Waiting(k.status[p]) && !k.pending[c]
    ensures var r := Deliver(k, d);
            Shape(r) && Struct(r, NULL) && CanSwitch(r) && StaysOn(k, r, p) && !r.pending[c]
  {
    hide Queued, Asleep, PrioOk, PlacedBut, WakeAll;
    AllWoken(k, d, p);
    var r := WakeAll(k, d);
    StructFrame(r, r.(pending := r.pending[d := false]), NULL);
  }

  lemma TickStays(k: Kernel, p: nat, c: nat)
    requires KInv(k) && p < NUM_PROC && c < NCOND && k.at[p] == CondQueue(c) && Waiting(k.status[p])
    requires !k.pending[c] && !DueNext(k, p)
    ensures StaysOn(k, Tick(k), p) && !Tick(k).pending[c]
  {
    hide Queued, Asleep, PrioOk, PlacedBut, SleepClock, Sched, SemOk, Flagged, Alert, Punctual, DeliverFrom;
    SleepClockKeeps(k);
    var k1 := SleepClock(k);
    assert Unmoved(k.(now := k.now + 1), k1, p) || Awoken(k.(now := k.now + 1), k1, p);
    if k1.nmiPending {
      var k2 := k1.(nmiPending := false);
      StructFrame(k1, k2, NULL);
      DeliverStays(k2, 0, p, c);
    }
    CondClockKeeps(k1);
    SchedWaits(CondClock(k1), p);
  }

  /** Whatever happens, a process parked on a cond, timed or not, waits on exactly where it is
      unless its own time has come or the event is one that rouses it. */
  lemma WaiterFate(s: Sys, e: Event, p: nat, c: nat)
    requires SysInv(s) && Legal(s, e) && p < NUM_PROC && c < NCOND && s.k.at[p] == CondQueue(c)
    ensures var r := Next(s, e).k;
            if e.TickIntr? && DueNext(s.k, p) then WokenWith(r, p, true)
            else if Rouses(s.k, e, p, c) then WokenWith(r, p, s.k.timedOut[p])
            else StaysOn(s.k, r, p) && r.timedOut[p] == s.k.timedOut[p]
  {
    assert Shape(s.k);
    hide KInv, Books, BornOk, Next, Legal, Rouses, Fate, Undisturbed, Steady;
    ParkedWaits(s.k, p, c);
    ParkedMoves(s, e, p, c);
    if s.k.status[p] == Timed {
      TimedDue(s.k, p);
      TimedFate(s, e, p);
      if !(e.TickIntr? && DueNext(s.k, p)) { FateVerdict(s.k, Next(s, e).k, p); }
    } else {
      UntimedAwake(s.k, p);
      SteadyEvent(s, e, p);
      SteadyVerdict(s.k, Next(s, e).k, p);
    }
    hide SysInv, StaysOn;
  }

  lemma FateVerdict(k: Kernel, r: Kernel, p: nat)
    requires Shape(k) && Shape(r) && p < NUM_PROC && Fate(k, r, p)
    ensures r.timedOut[p] == k.timedOut[p]
  {
  }

  lemma SteadyVerdict(k: Kernel, r: Kernel, p: nat)
    requires Shape(k) && Shape(r) && p < NUM_PROC && Steady(k, r, p) && k.status[p] == OnCond
    ensures r.timedOut[p] == k.timedOut[p]
  {
  }

  lemma TimedDue(k: Kernel, p: nat)
    requires KInv(k) && p < NUM_PROC && k.status[p] == Timed
    ensures DueNext(k, p) <==> k.due[p] <= k.now + 1
  {
    NotCurr(k, p);
  }

  lemma UntimedAwake(k: Kernel, p: nat)
    requires KInv(k) && p < NUM_PROC && k.status[p] == OnCond
    ensures !DueNext(k, p)
  {
    hide Queued, Asleep, PrioOk, PlacedBut;
    PlacedAt(k, NULL, p);
  }

  /** What an event may do to p, parked on c: r is what the kernel becomes. */
  ghost predicate Moved(k: Kernel, r: Kernel, e: Event, p: nat, c: nat)
    requires Shape(k) && Shape(r) && p < NUM_PROC && c < NCOND
  {
    if Rouses(k, e, p, c) then Awake(r, p) else StaysOn(k, r, p) || (e.TickIntr? && DueNext(k, p))
  }

  lemma ParkedMoves(s: Sys, e: Event, p: nat, c: nat)
    requires SysInv(s) && Legal(s, e) && p < NUM_PROC && c < NCOND && s.k.at[p] == CondQueue(c)
    requires (s.k.status[p] == OnCond || s.k.status[p] == Timed) && p != s.k.curr && p != NULL_PROC
    ensures Moved(s.k, Next(s, e).k, e, p, c)
  {
    assert Shape(s.k);
    hide SysInv, Next, Legal, Moved;
    if e.SignalCall? || e.BroadcastCall? || e.IsrSignal? { CondMoves(s, e, p, c); }
    else if e.TickIntr? { TickEvent(s, e, p, c); }
    else { OtherMoves(s, e, p, c); }
  }

  lemma TickEvent(s: Sys, e: Event, p: nat, c: nat)
    requires SysInv(s) && p < NUM_PROC && c < NCOND && s.k.at[p] == CondQueue(c) && Waiting(s.k.status[p])
    requires e == TickIntr
    ensures Moved(s.k, Next(s, e).k, e, p, c)
  {
    hide KInv, Books, BornOk, Tick, StaysOn, DueNext;
    TickMoves(s.k, p, c);
  }

  lemma CondMoves(s: Sys, e: Event, p: nat, c: nat)
    requires SysInv(s) && Legal(s, e) && p < NUM_PROC && c < NCOND && s.k.at[p] == CondQueue(c)
    requires Waiting(s.k.status[p]) && p != NULL_PROC && (e.SignalCall? || e.BroadcastCall? || e.IsrSignal?)
    ensures Moved(s.k, Next(s, e).k, e, p, c)
  {
    hide KInv, Books, BornOk, StaysOn, First, DueNext, CondSignal, CondBroadcast, CondSignalIsr;
    SignalStays(s.k, e.c, p, c);
  }

  lemma OtherMoves(s: Sys, e: Event, p: nat, c: nat)
    requires SysInv(s) && Legal(s, e) && p < NUM_PROC && c < NCOND
    requires (s.k.status[p] == OnCond || s.k.status[p] == Timed) && p != s.k.curr && p != NULL_PROC
    requires !e.SignalCall? && !e.BroadcastCall? && !e.IsrSignal? && !e.TickIntr?
    ensures Moved(s.k, Next(s, e).k, e, p, c)
  {
    OtherStays(s, e, p);
    hide SysInv, Next, Legal, StaysOn;
  }

  /** The events that signal nobody. */
  lemma OtherStays(s: Sys, e: Event, p: nat)
    requires SysInv(s) && Legal(s, e) && p < NUM_PROC
    requires (s.k.status[p] == OnCond || s.k.status[p] == Timed) && p != s.k.curr && p != NULL_PROC
    requires !e.SignalCall? && !e.BroadcastCall? && !e.IsrSignal? && !e.TickIntr?
    ensures StaysOn(s.k, Next(s, e).k, p)
  {
    hide KInv, Books, BornOk, StaysOn, SemWait, SemSignal, Wait, Sleep, Sched, Create, Exit, MakeAvail;
    match e {
      case SemWaitCall(i) => SemStays(s.k, i, p);
      case SemSignalCall(i) => SemStays(s.k, i, p);
      case LockCall(m) => SemStays(s.k, m, p);
      case UnlockSignal(m) => SemStays(s.k, m, p);
      case WaitCall(d, m, timed, delay) => WaitStays(s.k, d, m, timed, delay, p);
      case SleepCall(delay) => SleepStays(s.k, delay, p);
      case MakeAvailCall(x) => BornAvail(s, x); BirthStays(s.k, 0, false, x, p);
      case YieldCall => BirthStays(s.k, 0, false, 0, p);
      case CreateCall(priority, stack) => BirthStays(s.k, priority, stack, 0, p);
      case ExitCall => ExitStays(s.k, p);
      case LockReturn(_) => SameStays(s.k, Next(s, e).k, p);
      case UnlockTest(_) => SameStays(s.k, Next(s, e).k, p);
      case WaitReturn => SameStays(s.k, Next(s, e).k, p);
      case NmiSignal(_) => SameStays(s.k, Next(s, e).k, p);
      case _ =>
    }
  }

  lemma TickMoves(k: Kernel, p: nat, c: nat)
    requires KInv(k) && p < NUM_PROC && c < NCOND && k.at[p] == CondQueue(c) && Waiting(k.status[p])
    ensures if k.pending[c] then Awake(Tick(k), p) else StaysOn(k, Tick(k), p) || DueNext(k, p)
  {
    assert Shape(k);
    hide KInv, Tick, DueNext;
    if k.pending[c] { TickDelivers(k, c, p); } else if !DueNext(k, p) { TickStays(k, p, c); }
  }

  lemma ExitStays(k: Kernel, p: nat)
    requires KInv(k) && k.curr != NULL_PROC && p < NUM_PROC && Waiting(k.status[p])
    ensures StaysOn(k, Exit(k), p)
  {
    hide KInv, Exit;
    ExitFrees(k, p);
  }

  lemma SameStays(k: Kernel, r: Kernel, p: nat)
    requires Shape(k) && Shape(r) && p < NUM_PROC && r.status == k.status && r.at == k.at
    ensures StaysOn(k, r, p)
  {
  }

  // ---- flags ----

  /** A flag that is down is raised by an interrupt's signal of that cond only. */
  lemma FlagRises(s: Sys, e: Event, c: nat)
    requires SysInv(s) && Legal(s, e) && c < NCOND && !s.k.pending[c] && Next(s, e).k.pending[c]
    ensures e == IsrSignal(c) || e == NmiSignal(c)
  {
    hide KInv, Books, BornOk, SemWait, SemSignal, Wait, Sleep, Sched, Tick, Create, Exit, MakeAvail,
         CondSignal, CondBroadcast, CondSignalIsr;
    match e {
      case WaitCall(d, m, timed, delay) => WaitFlags(s.k, d, m, timed, delay);
      case TickIntr => TickLowers(s.k, c);
      case NmiSignal(_) =>
      case _ => CondRaces.CallFrame(s, e);
    }
  }

  lemma WaitFlags(k: Kernel, c: nat, m: Option<nat>, timed: bool, delay: nat)
    requires KInv(k) && k.curr != NULL_PROC && c < NCOND && (m.Some? ==> m.value < NSEM) && delay < TWO31
    ensures Wait(k, c, m, timed, delay).pending == k.pending[c := false]
  {
    assert Shape(k);
    hide KInv, Park, Unlock, Sched;
    if !k.pending[c] { WaitParks(k, c, m, timed, delay); }
  }

  lemma TickLowers(k: Kernel, c: nat)
    requires KInv(k) && c < NCOND
    ensures Tick(k).pending[c] ==> k.pending[c]
  {
    hide Queued, Asleep, PrioOk, PlacedBut, SleepClock, Sched, SemOk, Flagged, Alert, Punctual, DeliverFrom;
    SleepClockKeeps(k);
    var k1 := SleepClock(k);
    if k1.nmiPending {
      var k2 := k1.(nmiPending := false);
      StructFrame(k1, k2, NULL);
      LowersOnly(k2, 0, c);
    }
    CondClockKeeps(k1);
    SchedWaits(CondClock(k1), 0);
  }

  lemma {:induction false} LowersOnly(k: Kernel, d: nat, c: nat)
    requires Struct(k, NULL) && CanSwitch(k) && d <= NCOND && c < NCOND
    ensures DeliverFrom(k, d).pending[c] ==> k.pending[c]
    decreases NCOND - d
  {
    hide Queued, Asleep, PrioOk, PlacedBut, WakeAll;
    if d < NCOND {
      AllWoken(k, d, 0);
      var r := WakeAll(k, d);
      StructFrame(r, r.(pending := r.pending[d := false]), NULL);
      LowersOnly(Deliver(k, d), d + 1, c);
    }
  }

  /** Everybody on the cond is due at the coming tick. */
  ghost predicate AllDue(k: Kernel, c: nat)
    requires Shape(k) && c < NCOND
  {
    forall p :: 0 <= p < NUM_PROC && k.at[p] == CondQueue(c) ==> DueNext(k, p)
  }

  /** A flag outlasts the tick exactly when nobody is on its cond once the sleepers that are due
      have been woken: otherwise the pass lowers it. */
  lemma FlagOutlasts(k: Kernel, c: nat)
    requires KInv(k) && c < NCOND
    ensures Tick(k).pending[c] <==> k.pending[c] && AllDue(k, c)
  {
    hide Queued, Asleep, PrioOk, PlacedBut, SleepClock, Sched, SemOk, Alert, Punctual, DeliverFrom, AllDue;
    SleepClockKeeps(k);
    TickLowers(k, c);
    QueueAfterSleepers(k, c);
    var k1 := SleepClock(k);
    CondClockKeeps(k1);
    SchedWaits(CondClock(k1), 0);
    if k.pending[c] && k1.nmiPending {
      var k2 := k1.(nmiPending := false);
      StructFrame(k1, k2, NULL);
      if k1.q[CondQueue(c)] == [] { FlagStays(k2, 0, c); } else { Lowered(k2, 0, c); }
    }
  }

  lemma QueueAfterSleepers(k: Kernel, c: nat)
    requires KInv(k) && c < NCOND
    ensures SleepClock(k).q[CondQueue(c)] == [] <==> AllDue(k, c)
  {
    hide Queued, Asleep, PrioOk, PlacedBut, SleepClock, SemOk, Flagged, Alert, Punctual, Running;
    SleepClockKeeps(k);
    var k1 := SleepClock(k);
    if k1.q[CondQueue(c)] == [] {
      forall p | 0 <= p < NUM_PROC && k.at[p] == CondQueue(c) ensures DueNext(k, p) {
        assert Unmoved(k.(now := k.now + 1), k1, p) || Awoken(k.(now := k.now + 1), k1, p);
        EmptyQueue(k1, CondQueue(c), p);
      }
    } else {
      HeadAt(k1, CondQueue(c));
      var p := k1.q[CondQueue(c)][0];
      PlacedAt(k, NULL, p);
      assert Unmoved(k.(now := k.now + 1), k1, p) || Awoken(k.(now := k.now + 1), k1, p);
    }
  }

  lemma {:induction false} Lowered(k: Kernel, d: nat, c: nat)
    requires Struct(k, NULL) && CanSwitch(k) && d <= c < NCOND && k.pending[c] && k.q[CondQueue(c)] != []
    ensures !DeliverFrom(k, d).pending[c]
    decreases c - d
  {
    hide Queued, Asleep, PrioOk, PlacedBut, WakeAll;
    AllWoken(k, d, 0);
    var r := WakeAll(k, d);
    StructFrame(r, r.(pending := r.pending[d := false]), NULL);
    if d < c {
      OtherQueue(k, d, c);
      Lowered(Deliver(k, d), d + 1, c);
    } else {
      LowersOnly(Deliver(k, c), c + 1, c);
    }
  }

  lemma OtherQueue(k: Kernel, d: nat, c: nat)
    requires Struct(k, NULL) && CanSwitch(k) && d < NCOND && c < NCOND && c != d && k.q[CondQueue(c)] != []
    ensures WakeAll(k, d).q[CondQueue(c)] != []
  {
    hide Queued, Asleep, PrioOk, PlacedBut, WakeAll;
    HeadAt(k, CondQueue(c));
    var p := k.q[CondQueue(c)][0];
    WakeAllKeeps(k, d);
    PlacedAt(k, NULL, p);
    assert Unmoved(k, WakeAll(k, d), p) || Awoken(k, WakeAll(k, d), p);
    if WakeAll(k, d).q[CondQueue(c)] == [] { EmptyQueue(WakeAll(k, d), CondQueue(c), p); }
  }

  // ---- runs ----

  /** The states a run goes through. */
  function Trace(s: Sys, es: seq<Event>): (t: seq<Sys>)
    requires SysShape(s) && IsRun(s, es)
    ensures |t| == |es| + 1 && forall j :: 0 <= j < |t| ==> SysShape(t[j])
    decreases |es|
  {
    if es == [] then [s] else [s] + Trace(Next(s, es[0]), es[1..])
  }

  lemma TraceMore(s: Sys, es: seq<Event>)
    requires SysShape(s) && IsRun(s, es) && es != []
    ensures Trace(s, es) == [s] + Trace(Next(s, es[0]), es[1..])
  {
    hide Next, Legal;
  }

  lemma {:induction false} TraceEnds(s: Sys, es: seq<Event>)
    requires SysShape(s) && IsRun(s, es)
    ensures Trace(s, es)[0] == s && Trace(s, es)[|es|] == Run(s, es)
    decreases |es|
  {
    hide Next, Legal;
    if es != [] { TraceEnds(Next(s, es[0]), es[1..]); }
  }

  /** p has not come to the end of its wait. */
  predicate NotYet(s: Sys, es: seq<Event>, p: nat)
    requires SysShape(s) && IsRun(s, es)
    decreases |es|
  {
    es == [] || (!Returns(s, es[0], p) && NotYet(Next(s, es[0]), es[1..], p))
  }

  /** p waits in status st through the first n states and is awake in all that follow. */
  ghost predicate WokenOnce(t: seq<Sys>, p: nat, st: Status, n: nat) {
    && 1 <= n <= |t| && p < NUM_PROC && (forall j :: 0 <= j < |t| ==> SysShape(t[j]))
    && (forall j :: 0 <= j < n ==> t[j].k.status[p] == st)
    && (forall j :: n <= j < |t| ==> Awake(t[j].k, p))
  }

  lemma OneMore(s: Sys, t: seq<Sys>, p: nat, st: Status, n: nat)
    requires SysShape(s) && p < NUM_PROC && s.k.status[p] == st && WokenOnce(t, p, st, n)
    ensures WokenOnce([s] + t, p, st, n + 1)
  {
  }

  lemma {:induction false} AwakeRuns(s: Sys, es: seq<Event>, p: nat)
    requires SysInv(s) && IsRun(s, es) && p < NUM_PROC && NotYet(s, es, p) && s.pc[p].Resuming? && Awake(s.k, p)
    ensures forall j :: 0 <= j <= |es| ==> Awake(Trace(s, es)[j].k, p)
    ensures var r := Run(s, es); r.k.timedOut[p] == s.k.timedOut[p] && r.pc[p] == s.pc[p] && r.rc[p] == s.rc[p]
    decreases |es|
  {
    hide KInv, Books, BornOk, Next, Legal, Returns;
    if es != [] {
      NextKeeps(s, es[0]);
      SteadyEvent(s, es[0], p);
      StaysInside(s, es[0], p);
      AwakeRuns(Next(s, es[0]), es[1..], p);
    }
  }

  /** The last event is one that ends a wait on c before its time: a signal of c from a process
      or an interrupt handler, or a tick that follows a signal of c from the NMI. `nmi` tells
      whether that signal may have come before. */
  predicate RousedBy(es: seq<Event>, c: nat, nmi: bool) {
    es != [] &&
    var e := es[|es| - 1];
    e == SignalCall(c) || e == BroadcastCall(c) || e == IsrSignal(c) || (e.TickIntr? && (nmi || NmiSignal(c) in es))
  }

  lemma RousedLonger(es: seq<Event>, c: nat, nmi: bool, n: nat)
    requires es != [] && n < |es| && RousedBy(es[1..][..n], c, nmi || es[0] == NmiSignal(c))
    ensures RousedBy(es[..n + 1], c, nmi)
  {
    var t, r := es[1..][..n], es[..n + 1];
    assert r[|r| - 1] == t[|t| - 1] && r[0] == es[0];
    assert forall i :: 0 <= i < |t| ==> r[i + 1] == t[i];
  }

  /** What became of a timed wait on c with `left` ticks to go: n is the number of states it
      slept through. It is woken once, not later than by the left-th tick, its verdict says
      whether it was that tick, and if it was not, c had been signalled. */
  ghost predicate TimedStory(s: Sys, es: seq<Event>, p: nat, c: nat, left: nat, nmi: bool, n: nat)
    requires SysShape(s) && IsRun(s, es) && p < NUM_PROC
  {
    && WokenOnce(Trace(s, es), p, Timed, n)
    && (if n == |es| + 1 then Ticks(es) < left
        else
          && Ticks(es[..n]) <= left && Run(s, es).k.timedOut[p] == ByTick(es, left, n)
          && (ByTick(es, left, n) || RousedBy(es[..n], c, nmi)))
  }

  /** The n-th event is the left-th tick. */
  predicate ByTick(es: seq<Event>, left: nat, n: nat)
    requires 1 <= n <= |es|
  {
    es[n - 1].TickIntr? && Ticks(es[..n]) == left
  }

  /** p is in a timed wait on c with `left` ticks to go, and its flag is up only if the NMI
      may have signalled. */
  predicate Dozing(s: Sys, p: nat, c: nat, left: nat, nmi: bool)
    requires SysShape(s) && p < NUM_PROC && c < NCOND
  {
    && s.k.status[p] == Timed && s.k.at[p] == CondQueue(c) && !s.k.timedOut[p] && left > 0
    && (s.k.due[p] == s.k.now + left || (left == 1 && s.k.due[p] == s.k.now)) && (s.k.pending[c] ==> nmi)
  }

  /** One event in such a wait. */
  lemma DozeStep(s: Sys, e: Event, p: nat, c: nat, left: nat, nmi: bool)
    requires SysInv(s) && Legal(s, e) && p < NUM_PROC && c < NCOND && Dozing(s, p, c, left, nmi)
    ensures var r := Next(s, e); var last := e.TickIntr? && left == 1;
            if r.k.status[p] == Timed then
              !last && Dozing(r, p, c, if e.TickIntr? then left - 1 else left, nmi || e == NmiSignal(c))
            else Awake(r.k, p) && r.k.timedOut[p] == last && (last || RousedBy([e], c, nmi))
  {
    hide KInv, Books, BornOk, Next, Legal;
    WaiterFate(s, e, p, c);
    TimedDue(s.k, p);
    TimedFate(s, e, p);
    if Next(s, e).k.pending[c] && !s.k.pending[c] { FlagRises(s, e, c); }
  }

  lemma {:induction false} TimedRuns(s: Sys, es: seq<Event>, p: nat, c: nat, left: nat, nmi: bool) returns (n: nat)
    requires SysInv(s) && IsRun(s, es) && p < NUM_PROC && c < NCOND && NotYet(s, es, p) && s.pc[p].Resuming?
    requires Dozing(s, p, c, left, nmi)
    ensures TimedStory(s, es, p, c, left, nmi, n)
    ensures Run(s, es).pc[p] == s.pc[p] && Run(s, es).rc[p] == s.rc[p]
    decreases |es|
  {
    n := 1;
    if es != [] {
      hide KInv, Books, BornOk, Next, Legal, Returns, TimedStory, RousedBy;
      var e, r := es[0], Next(s, es[0]);
      NextKeeps(s, e);
      DozeStep(s, e, p, c, left, nmi);
      StaysInside(s, e, p);
      if r.k.status[p] == Timed {
        n := TimedRuns(r, es[1..], p, c, if e.TickIntr? then left - 1 else left, nmi || e == NmiSignal(c));
        LongerStory(s, es, p, c, left, nmi, n);
        n := n + 1;
      } else {
        AwakeRuns(r, es[1..], p);
        FirstWakes(s, es, p, Timed);
        StoryEnds(s, es, p, c, left, nmi);
      }
    } else {
      NoEvent(s, p, c, left, nmi);
    }
  }

  lemma NoEvent(s: Sys, p: nat, c: nat, left: nat, nmi: bool)
    requires SysShape(s) && p < NUM_PROC && s.k.status[p] == Timed && left > 0
    ensures TimedStory(s, [], p, c, left, nmi, 1)
  {
  }

  /** One event more in front, through which p slept. */
  lemma LongerStory(s: Sys, es: seq<Event>, p: nat, c: nat, left: nat, nmi: bool, n: nat)
    requires SysShape(s) && es != [] && IsRun(s, es) && p < NUM_PROC && s.k.status[p] == Timed
    requires es[0].TickIntr? ==> left > 0
    requires TimedStory(Next(s, es[0]), es[1..], p, c, if es[0].TickIntr? then left - 1 else left,
                        nmi || es[0] == NmiSignal(c), n)
    ensures TimedStory(s, es, p, c, left, nmi, n + 1)
  {
    hide Next, Legal, RousedBy;
    assert n >= 1;
    hide WokenOnce, Trace;
    TraceMore(s, es);
    OneMore(s, Trace(Next(s, es[0]), es[1..]), p, Timed, n);
    if n <= |es| { TicksFrom(es, n); }
    if n < |es| && RousedBy(es[1..][..n], c, nmi || es[0] == NmiSignal(c)) { RousedLonger(es, c, nmi, n); }
  }

  /** The first event woke p, by the tick it was waiting for or by a signal. */
  lemma StoryEnds(s: Sys, es: seq<Event>, p: nat, c: nat, left: nat, nmi: bool)
    requires SysShape(s) && es != [] && IsRun(s, es) && p < NUM_PROC && left > 0 && WokenOnce(Trace(s, es), p, Timed, 1)
    requires Run(s, es).k.timedOut[p] == (es[0].TickIntr? && left == 1)
    requires (es[0].TickIntr? && left == 1) || RousedBy([es[0]], c, nmi)
    ensures TimedStory(s, es, p, c, left, nmi, 1)
  {
    hide Next, Legal, WokenOnce, RousedBy;
    TicksOne(es);
    assert es[..1] == [es[0]];
  }

  lemma FirstWakes(s: Sys, es: seq<Event>, p: nat, st: Status)
    requires SysShape(s) && es != [] && IsRun(s, es) && p < NUM_PROC && s.k.status[p] == st
    requires forall j :: 0 <= j < |es| ==> Awake(Trace(Next(s, es[0]), es[1..])[j].k, p)
    ensures WokenOnce(Trace(s, es), p, st, 1)
  {
    hide Next, Legal;
  }

  lemma TicksOne(es: seq<Event>)
    requires es != []
    ensures Ticks(es[..1]) == if es[0].TickIntr? then 1 else 0
  {
    assert es[..1] == [es[0]];
  }

  lemma TicksFrom(es: seq<Event>, n: nat)
    requires 1 <= n <= |es|
    ensures Ticks(es) == (if es[0].TickIntr? then 1 else 0) + Ticks(es[1..])
    ensures n < |es| ==> Ticks(es[..n + 1]) == (if es[0].TickIntr? then 1 else 0) + Ticks(es[1..][..n])
  {
    if n < |es| { assert es[..n + 1][1..] == es[1..][..n]; }
  }

  /** A timed cond wait that found no flag, in every run that follows until it returns: its
      process is woken exactly once, not later than by the max(delay, 1)-th tick, stays awake,
      and the wait returns -1 exactly when that tick is what woke it. If it was not, it returns
      0, and what woke it was a signal of this cond. */
  lemma TimedWaitReturns(s: Sys, c: nat, m: Option<nat>, delay: nat, s1: Sys, es: seq<Event>)
    requires SysInv(s) && Legal(s, WaitCall(c, m, true, delay)) && !s.k.pending[c]
    requires s1 == Next(s, WaitCall(c, m, true, delay)) && IsRun(s1, es) && NotYet(s1, es, s.k.curr)
    ensures exists n: nat ::
              && TimedStory(s1, es, s.k.curr, c, Max1(delay), false, n)
              && (Returns(Run(s1, es), WaitReturn, s.k.curr) ==>
                    && n <= |es| && Legal(Run(s1, es), WaitReturn)
                    && Next(Run(s1, es), WaitReturn).rc[s.k.curr] == Some(if ByTick(es, Max1(delay), n) then -1 else 0))
  {
    hide KInv, Books, BornOk, Run, IsRun, NotYet, Next, Legal, TimedStory, Returns;
    var p := s.k.curr;
    NextKeeps(s, WaitCall(c, m, true, delay));
    TimedStarts(s, c, m, delay);
    var n := TimedRuns(s1, es, p, c, Max1(delay), false);
    RunKeeps(s1, es);
    if Returns(Run(s1, es), WaitReturn, p) { VerdictRead(s1, es, p, c, Max1(delay), n); }
  }

  lemma VerdictRead(s: Sys, es: seq<Event>, p: nat, c: nat, left: nat, n: nat)
    requires SysShape(s) && IsRun(s, es) && p < NUM_PROC && TimedStory(s, es, p, c, left, false, n)
    requires SysInv(Run(s, es)) && Returns(Run(s, es), WaitReturn, p) && Run(s, es).pc[p].Resuming?
    ensures n <= |es| && Legal(Run(s, es), WaitReturn)
    ensures Next(Run(s, es), WaitReturn).rc[p] == Some(if ByTick(es, left, n) then -1 else 0)
  {
    hide KInv, Books, BornOk, Run, IsRun, RousedBy;
    if n == |es| + 1 {
      TraceEnds(s, es);
      CurrNotTimed(Run(s, es).k);
    }
  }

  /** Nothing signals c. */
  predicate Hushed(es: seq<Event>, c: nat) {
    forall e :: e in es ==> e != SignalCall(c) && e != BroadcastCall(c) && e != IsrSignal(c) && e != NmiSignal(c)
  }

  lemma HushedRouses(es: seq<Event>, c: nat, n: nat)
    requires Hushed(es, c) && 1 <= n <= |es|
    ensures !RousedBy(es[..n], c, false)
  {
    assert forall e :: e in es[..n] ==> e in es;
    assert es[..n][n - 1] in es[..n];
  }

  lemma {:induction false} TicksGrow(es: seq<Event>, n: nat)
    requires n <= |es|
    ensures Ticks(es[..n]) <= Ticks(es)
    decreases n
  {
    if n > 0 {
      TicksGrow(es[1..], n - 1);
      assert es[..n][1..] == es[1..][..n - 1];
    }
  }

  /** As long as nobody signals its cond a timed wait sleeps through fewer than max(delay, 1)
      ticks and is woken by exactly the one that makes it max(delay, 1): signals and ticks on
      anything else, and whatever other processes do, neither wake it nor delay it. Its wait
      returns -1, so 0 means that the cond was signalled. */
  lemma UnsignalledWait(s: Sys, c: nat, m: Option<nat>, delay: nat, s1: Sys, es: seq<Event>)
    requires SysInv(s) && Legal(s, WaitCall(c, m, true, delay)) && !s.k.pending[c]
    requires s1 == Next(s, WaitCall(c, m, true, delay)) && IsRun(s1, es) && NotYet(s1, es, s.k.curr) && Hushed(es, c)
    ensures Ticks(es) < Max1(delay) <==> WokenOnce(Trace(s1, es), s.k.curr, Timed, |es| + 1)
    ensures Ticks(es) >= Max1(delay) ==>
              exists n :: 1 <= n <= |es| && ByTick(es, Max1(delay), n) && WokenOnce(Trace(s1, es), s.k.curr, Timed, n)
    ensures Returns(Run(s1, es), WaitReturn, s.k.curr) ==>
              Legal(Run(s1, es), WaitReturn) && Next(Run(s1, es), WaitReturn).rc[s.k.curr] == Some(-1)
  {
    hide KInv, Books, BornOk, Run, IsRun, NotYet, Next, Legal, Returns, RousedBy, Hushed;
    TimedWaitReturns(s, c, m, delay, s1, es);
    var p, left := s.k.curr, Max1(delay);
    var n: nat :|
      && TimedStory(s1, es, p, c, left, false, n)
      && (Returns(Run(s1, es), WaitReturn, p) ==>
            && n <= |es| && Legal(Run(s1, es), WaitReturn)
            && Next(Run(s1, es), WaitReturn).rc[p] == Some(if ByTick(es, left, n) then -1 else 0));
    if n <= |es| {
      HushedRouses(es, c, n);
      TicksGrow(es, n);
      WokenNotYet(Trace(s1, es), p, n);
    }
  }

  lemma WokenNotYet(t: seq<Sys>, p: nat, n: nat)
    requires WokenOnce(t, p, Timed, n) && n < |t|
    ensures !WokenOnce(t, p, Timed, |t|)
  {
    assert Awake(t[n].k, p);
  }

  lemma CurrNotTimed(k: Kernel)
    requires KInv(k)
    ensures k.status[k.curr] != Timed && k.status[k.curr] != OnCond
  {
    hide Queued, Asleep, PrioOk, PlacedBut;
  }

  lemma TimedStarts(s: Sys, c: nat, m: Option<nat>, delay: nat)
    requires SysInv(s) && Legal(s, WaitCall(c, m, true, delay)) && !s.k.pending[c]
    ensures c < NCOND
    ensures var p, r := s.k.curr, Next(s, WaitCall(c, m, true, delay));
            && r.pc[p] == Resuming(m) && r.rc[p] == None && r.k.status[p] == Timed && !r.k.timedOut[p]
            && r.k.due[p] == r.k.now + delay && r.k.at[p] == CondQueue(c) && !r.k.pending[c]
  {
    hide KInv, Books, BornOk, Wait;
    WaitParks(s.k, c, m, true, delay);
    WaitNow(s.k, c, m, true, delay);
  }

  lemma WaitNow(k: Kernel, c: nat, m: Option<nat>, timed: bool, delay: nat)
    requires Shape(k) && c < NCOND && (m.Some? ==> m.value < NSEM)
    ensures Wait(k, c, m, timed, delay).now == k.now
  {
    hide Park, Unlock, Sched;
    ParkNow(k, c, timed, delay);
    UnlockNow(Park(k, c, timed, delay), m);
    SchedNow(Unlock(Park(k, c, timed, delay), m));
  }

  lemma ParkNow(k: Kernel, c: nat, timed: bool, delay: nat)
    requires Shape(k) && c < NCOND
    ensures Park(k, c, timed, delay).now == k.now
  {
    hide Insert, InsertDue;
  }

  lemma UnlockNow(k: Kernel, m: Option<nat>)
    requires Shape(k) && (m.Some? ==> m.value < NSEM)
    ensures Unlock(k, m).now == k.now
  {
    hide Insert;
  }

  lemma SchedNow(k: Kernel)
    requires Shape(k)
    ensures Sched(k).now == k.now
  {
    hide Insert;
  }

  // ---- plain waits ----

  /** What became of a plain wait on c: it is woken once, by a signal of c, and its verdict
      stays clean. */
  ghost predicate PlainStory(s: Sys, es: seq<Event>, p: nat, c: nat, nmi: bool, n: nat)
    requires SysShape(s) && IsRun(s, es) && p < NUM_PROC
  {
    && WokenOnce(Trace(s, es), p, OnCond, n) && (n <= |es| ==> RousedBy(es[..n], c, nmi))
    && !Run(s, es).k.timedOut[p]
  }

  predicate Resting(s: Sys, p: nat, c: nat, nmi: bool)
    requires SysShape(s) && p < NUM_PROC && c < NCOND
  {
    s.k.status[p] == OnCond && s.k.at[p] == CondQueue(c) && !s.k.timedOut[p] && (s.k.pending[c] ==> nmi)
  }

  lemma PlainStep(s: Sys, e: Event, p: nat, c: nat, nmi: bool)
    requires SysInv(s) && Legal(s, e) && p < NUM_PROC && c < NCOND && Resting(s, p, c, nmi)
    ensures var r := Next(s, e);
            if r.k.status[p] == OnCond then Resting(r, p, c, nmi || e == NmiSignal(c))
            else Awake(r.k, p) && !r.k.timedOut[p] && RousedBy([e], c, nmi)
  {
    hide KInv, Books, BornOk, Next, Legal;
    WaiterFate(s, e, p, c);
    UntimedAwake(s.k, p);
    if Next(s, e).k.pending[c] && !s.k.pending[c] { FlagRises(s, e, c); }
  }

  lemma {:induction false} UntimedRuns(s: Sys, es: seq<Event>, p: nat, c: nat, nmi: bool) returns (n: nat)
    requires SysInv(s) && IsRun(s, es) && p < NUM_PROC && c < NCOND && NotYet(s, es, p) && s.pc[p].Resuming?
    requires Resting(s, p, c, nmi)
    ensures PlainStory(s, es, p, c, nmi, n)
    ensures Run(s, es).pc[p] == s.pc[p] && Run(s, es).rc[p] == s.rc[p]
    decreases |es|
  {
    n := 1;
    if es != [] {
      hide KInv, Books, BornOk, Next, Legal, Returns, PlainStory, RousedBy;
      var e, r := es[0], Next(s, es[0]);
      NextKeeps(s, e);
      PlainStep(s, e, p, c, nmi);
      StaysInside(s, e, p);
      if r.k.status[p] == OnCond {
        n := UntimedRuns(r, es[1..], p, c, nmi || e == NmiSignal(c));
        LongerPlain(s, es, p, c, nmi, n);
        n := n + 1;
      } else {
        AwakeRuns(r, es[1..], p);
        FirstWakes(s, es, p, OnCond);
        PlainEnds(s, es, p, c, nmi);
      }
    } else {
      PlainNoEvent(s, p, c, nmi);
    }
  }

  lemma PlainNoEvent(s: Sys, p: nat, c: nat, nmi: bool)
    requires SysShape(s) && p < NUM_PROC && s.k.status[p] == OnCond && !s.k.timedOut[p]
    ensures PlainStory(s, [], p, c, nmi, 1)
  {
  }

  lemma LongerPlain(s: Sys, es: seq<Event>, p: nat, c: nat, nmi: bool, n: nat)
    requires SysShape(s) && es != [] && IsRun(s, es) && p < NUM_PROC && s.k.status[p] == OnCond
    requires PlainStory(Next(s, es[0]), es[1..], p, c, nmi || es[0] == NmiSignal(c), n)
    ensures PlainStory(s, es, p, c, nmi, n + 1)
  {
    hide Next, Legal, RousedBy;
    assert n >= 1;
    hide WokenOnce, Trace;
    TraceMore(s, es);
    OneMore(s, Trace(Next(s, es[0]), es[1..]), p, OnCond, n);
    if n < |es| { RousedLonger(es, c, nmi, n); }
  }

  lemma PlainEnds(s: Sys, es: seq<Event>, p: nat, c: nat, nmi: bool)
    requires SysShape(s) && es != [] && IsRun(s, es) && p < NUM_PROC && WokenOnce(Trace(s, es), p, OnCond, 1)
    requires !Run(s, es).k.timedOut[p] && RousedBy([es[0]], c, nmi)
    ensures PlainStory(s, es, p, c, nmi, 1)
  {
    hide Next, Legal, WokenOnce, RousedBy;
    assert es[..1] == [es[0]];
  }

  /** A plain wait is woken once, and by nothing but a signal of its cond; then it returns 0,
      whatever ticks and other signals come. */
  lemma PlainWaitReturns(s: Sys, c: nat, m: Option<nat>, delay: nat, s1: Sys, es: seq<Event>)
    requires SysInv(s) && Legal(s, WaitCall(c, m, false, delay)) && !s.k.pending[c]
    requires s1 == Next(s, WaitCall(c, m, false, delay)) && IsRun(s1, es) && NotYet(s1, es, s.k.curr)
    ensures exists n: nat ::
              && PlainStory(s1, es, s.k.curr, c, false, n)
              && (Returns(Run(s1, es), WaitReturn, s.k.curr) ==>
                    && n <= |es| && Legal(Run(s1, es), WaitReturn)
                    && Next(Run(s1, es), WaitReturn).rc[s.k.curr] == Some(0))
  {
    hide KInv, Books, BornOk, Run, IsRun, NotYet, Next, Legal, PlainStory, Returns;
    var p := s.k.curr;
    NextKeeps(s, WaitCall(c, m, false, delay));
    PlainStarts(s, c, m, delay);
    var n := UntimedRuns(s1, es, p, c, false);
    RunKeeps(s1, es);
    if Returns(Run(s1, es), WaitReturn, p) { PlainRead(s1, es, p, c, n); }
  }

  lemma PlainRead(s: Sys, es: seq<Event>, p: nat, c: nat, n: nat)
    requires SysShape(s) && IsRun(s, es) && p < NUM_PROC && PlainStory(s, es, p, c, false, n)
    requires SysInv(Run(s, es)) && Returns(Run(s, es), WaitReturn, p) && Run(s, es).pc[p].Resuming?
    ensures n <= |es| && Legal(Run(s, es), WaitReturn) && Next(Run(s, es), WaitReturn).rc[p] == Some(0)
  {
    hide KInv, Books, BornOk, Run, IsRun, RousedBy;
    if n == |es| + 1 {
      TraceEnds(s, es);
      CurrNotTimed(Run(s, es).k);
    }
  }

  lemma PlainStarts(s: Sys, c: nat, m: Option<nat>, delay: nat)
    requires SysInv(s) && Legal(s, WaitCall(c, m, false, delay)) && !s.k.pending[c]
    ensures c < NCOND
    ensures var p, r := s.k.curr, Next(s, WaitCall(c, m, false, delay));
            r.pc[p] == Resuming(m) && Resting(r, p, c, false)
  {
    hide KInv, Books, BornOk, Wait;
    WaitParks(s.k, c, m, false, delay);
  }
}
