/** Which wakeups the NMI can and cannot lose. */
module CondRaces {
  import opened Config
  import opened ProcQueue
  import opened SleepList
  import opened KernelState
  import opened KernelInv
  import opened KernelSteps
  import opened KernelRuns
  import opened KernelTheorems
  import opened CondNmi

  // ---- nobody joins a cond queue but through wait() ----

  ghost predicate NoJoin(k: Kernel, r: Kernel)
    requires Shape(k) && Shape(r)
  {
    forall p :: 0 <= p < NUM_PROC && IsCondQueue(r.at[p]) ==> r.at[p] == k.at[p]
  }

  ghost predicate CondFrame(k: Kernel, r: Kernel)
    requires Shape(k) && Shape(r)
  {
    r.pending == k.pending && r.nmiPending == k.nmiPending && NoJoin(k, r)
  }

  lemma SchedFrame(k: Kernel)
    requires Struct(k, NULL) && CanSwitch(k)
    ensures CondFrame(k, Sched(k)) && CondFrame(k, SchedIfNeeded(k))
  {
    hide Queued, Asleep, PrioOk, PlacedBut, Sched;
    SchedPicksBest(k);
    PlacedAt(Sched(k), NULL, Sched(k).curr);
  }

  lemma WokeFrame(k: Kernel, r: Kernel)
    requires Shape(k) && Shape(r) && Woke(k, r)
    ensures CondFrame(k, r)
  {
    forall p | 0 <= p < NUM_PROC && IsCondQueue(r.at[p]) ensures r.at[p] == k.at[p] {
      assert Unmoved(k, r, p) || Awoken(k, r, p);
    }
  }

  lemma SemWaitFrame(k: Kernel, s: nat)
    requires KInv(k) && s < NSEM && (k.curr != NULL_PROC || k.count[s] > 0)
    ensures CondFrame(k, SemWait(k, s))
  {
    hide Queued, Asleep, PrioOk, PlacedBut, Enq, Sched;
    if k.count[s] <= 0 {
      var k1 := k.(count := k.count[s := k.count[s] - 1]);
      CurrInHand(k);
      StructFrame(k, k1, k.curr);
      ParkCurr(k1, OnSem, SemQueue(s));
      SchedFrame(Enq(SetStatus(k1, k1.curr, OnSem), SemQueue(s), k1.curr));
    }
  }

  lemma ReleaseFrame(k: Kernel, s: nat)
    requires Base(k) && s < NSEM
    ensures CondFrame(k, Release(k, s))
  {
    hide Queued, Asleep, PrioOk, PlacedBut, Deq, MakeAvail;
    var k1 := k.(count := k.count[s := k.count[s] + 1]);
    StructFrame(k, k1, NULL);
    if k1.count[s] <= 0 {
      assert |k.q[SemQueue(s)]| == -k.count[s];
      WakeFromSem(k1, s);
    }
  }

  lemma SemSignalFrame(k: Kernel, s: nat)
    requires KInv(k) && s < NSEM
    ensures CondFrame(k, SemSignal(k, s))
  {
    hide Queued, Asleep, PrioOk, PlacedBut, Release, SchedIfNeeded, SemOk, Flagged, Alert, Punctual;
    ReleaseFrame(k, s);
    ReleaseKeeps(k, s);
    SchedFrame(Release(k, s));
  }

  lemma CondSignalFrame(k: Kernel, c: nat)
    requires KInv(k) && c < NCOND
    ensures CondFrame(k, CondSignal(k, c))
  {
    hide Queued, Asleep, PrioOk, PlacedBut, Wake, SchedIfNeeded, SemOk, Flagged, Alert, Punctual, Woke;
    if k.q[CondQueue(c)] != [] {
      WakeFromCond(k, c);
      HeadAt(k, CondQueue(c));
      var r := Wake(Deq(k, CondQueue(c)), First(k, CondQueue(c)));
      hide Deq;
      WokeKeeps(k, r);
      WokeFrame(k, r);
      SchedFrame(r);
    } else {
      SchedFrame(k);
    }
  }

  lemma CondBroadcastFrame(k: Kernel, c: nat)
    requires KInv(k) && c < NCOND
    ensures CondFrame(k, CondBroadcast(k, c))
  {
    hide Queued, Asleep, PrioOk, PlacedBut, WakeAll, SchedIfNeeded, SemOk, Flagged, Alert, Punctual, Woke;
    WakeAllKeeps(k, c);
    WokeKeeps(k, WakeAll(k, c));
    WokeFrame(k, WakeAll(k, c));
    SchedFrame(WakeAll(k, c));
  }

  lemma IsrFrame(k: Kernel, c: nat)
    requires KInv(k) && c < NCOND
    ensures CondFrame(k.(pending := k.pending[c := true]), CondSignalIsr(k, c))
  {
    hide Queued, Asleep, PrioOk, PlacedBut, WakeAll, SemOk, Flagged, Alert, Punctual, Quiet, Woke;
    var k1 := k.(pending := k.pending[c := true]);
    RaisedKeeps(k, k1);
    WakeAllKeeps(k1, c);
    WokeFrame(k1, WakeAll(k1, c));
  }

  lemma SleepFrame(k: Kernel, delay: nat)
    requires KInv(k) && k.curr != NULL_PROC && delay < TWO31
    ensures CondFrame(k, Sleep(k, delay))
  {
    hide Queued, Asleep, PrioOk, PlacedBut, SleepInsert, Sched, SemOk, Flagged, Alert, Punctual;
    SleepNow(k, delay);
    SleepInsertFrame(SetStatus(k, k.curr, Timed), k.curr, delay);
    SchedFrame(SleepInsert(SetStatus(k, k.curr, Timed), k.curr, delay));
  }

  lemma ExitFrame(k: Kernel)
    requires KInv(k) && k.curr != NULL_PROC
    ensures CondFrame(k, Exit(k))
  {
    hide Queued, Asleep, PrioOk, PlacedBut, Sched, SemOk, Flagged, Alert, Punctual;
    CurrInHand(k);
    SetStatusStruct(k, k.curr, Unused);
    Settle(SetStatus(k, k.curr, Unused), k.curr);
    SchedFrame(SetStatus(k, k.curr, Unused));
  }

  lemma BirthFrame(k: Kernel, priority: int, stack: bool, p: nat)
    requires KInv(k) && p < NUM_PROC
    ensures CondFrame(k, Create(k, priority, stack)) && CondFrame(k, MakeAvail(k, p)) && CondFrame(k, Sched(k))
  {
    hide Queued, Asleep, PrioOk, PlacedBut, SemOk, Flagged, Alert, Punctual, Sched, Enq, FreePid;
    EnqFrame(SetStatus(k, p, Avail), AVAIL_LIST, p);
    SchedFrame(k);
  }

  /** The flags after a whole call: the ISR raises its own, nothing else touches any. */
  lemma CallFrame(s: Sys, e: Event)
    requires SysInv(s) && Legal(s, e) && IsWhole(e)
    ensures CondFrame(if e.IsrSignal? then s.k.(pending := s.k.pending[e.c := true]) else s.k, Next(s, e).k)
  {
    hide KInv, Books, BornOk, CondFrame, SemWait, SemSignal, Wait, Sleep, Sched, Tick, Create, Exit, MakeAvail,
         CondSignal, CondBroadcast, CondSignalIsr;
    match e {
      case SemWaitCall(i) => SemWaitFrame(s.k, i);
      case SemSignalCall(i) => SemSignalFrame(s.k, i);
      case LockCall(m) => SemWaitFrame(s.k, m);
      case UnlockSignal(m) => SemSignalFrame(s.k, m);
      case SignalCall(c) => CondSignalFrame(s.k, c);
      case BroadcastCall(c) => CondBroadcastFrame(s.k, c);
      case IsrSignal(c) => IsrFrame(s.k, c);
      case SleepCall(delay) => SleepFrame(s.k, delay);
      case CreateCall(priority, stack) => BirthFrame(s.k, priority, stack, 0);
      case MakeAvailCall(x) => BirthFrame(s.k, 0, false, x);
      case YieldCall => BirthFrame(s.k, 0, false, 0);
      case ExitCall => ExitFrame(s.k);
      case _ => SameFrame(s.k);
    }
  }

  lemma SameFrame(k: Kernel)
    requires Shape(k)
    ensures CondFrame(k, k)
  {
  }

  // ---- one step ----

  /** The cond whose flag the coming statement lowers. */
  function Lowers(x: Micro, v: Move): (c: Option<nat>)
    requires MShape(x) && SectionOk(x.sect)
    ensures c.Some? ==> c.value < NCOND
  {
    if !v.Step? then None
    else if x.sect.Waiting? && x.sect.pc == Clear then Some(x.sect.c)
    else if x.sect.Clocking? && x.sect.step == Drop then Some(x.sect.c)
    else None
  }

  predicate Joins(x: Micro, v: Move) {
    v.Step? && x.sect.Waiting? && x.sect.pc == Queue
  }

  /** Only wait() puts anyone on a cond queue, and only two statements lower a flag. */
  ghost predicate StepFrame(x: Micro, v: Move, r: Micro)
    requires MShape(x) && SectionOk(x.sect) && MShape(r)
  {
    && (forall p :: 0 <= p < NUM_PROC && IsCondQueue(r.s.k.at[p]) ==>
          r.s.k.at[p] == x.s.k.at[p] || (Joins(x, v) && p == x.s.k.curr && r.s.k.at[p] == CondQueue(x.sect.c)))
    && (forall d :: 0 <= d < NCOND && x.s.k.pending[d] && Lowers(x, v) != Some(d) ==> r.s.k.pending[d])
    && Raises(v, r.s.k)
  }

  /** An interrupt's signal leaves its flag set. */
  predicate Raises(v: Move, r: Kernel)
    requires Shape(r)
  {
    && (v.Nmi? && v.c < NCOND ==> r.pending[v.c])
    && (v.Call? && v.e.IsrSignal? && v.e.c < NCOND ==> r.pending[v.e.c])
  }

  lemma FrameStep(x: Micro, v: Move, r: Micro)
    requires MShape(x) && SectionOk(x.sect) && MShape(r)
    requires NoJoin(x.s.k, r.s.k) && Raises(v, r.s.k)
    requires forall d :: 0 <= d < NCOND && x.s.k.pending[d] ==> r.s.k.pending[d]
    ensures StepFrame(x, v, r)
  {
  }

  lemma CallStepFrame(x: Micro, e: Event)
    requires MInv(x) && Allowed(x, Call(e))
    ensures StepFrame(x, Call(e), Go(x, Call(e)))
  {
    hide KInv, Books, BornOk, Next, AllOwed;
    CallFrame(x.s, e);
    FrameStep(x, Call(e), Go(x, Call(e)));
  }

  lemma TickStartFrame(x: Micro, r: Micro)
    requires MInv(x) && x.sect.Open? && MShape(r) && r.s.k == SleepClock(x.s.k)
    ensures StepFrame(x, TickStart, r)
  {
    hide KInv, Books, BornOk, SleepClock, Woke, AllOwed;
    SleepClockKeeps(x.s.k);
    WokeFrame(x.s.k.(now := x.s.k.now + 1), r.s.k);
    FrameStep(x, TickStart, r);
  }

  lemma WaitEarlyFrame(x: Micro)
    requires MShape(x) && SectionOk(x.sect) && x.sect.Waiting? && x.sect.pc != Unlocking && x.sect.pc != Switch
    ensures StepFrame(x, Step, WaitStep(x))
  {
    hide Insert, InsertDue;
  }

  /** What the kernel looks like when wait() reaches its unlock. */
  lemma LateWait(x: Micro)
    requires MInv(x) && x.sect.Waiting? && (x.sect.pc == Unlocking || x.sect.pc == Switch)
    ensures Base(x.s.k)
  {
    hide KInv, Books, BornOk, Park, Release, AllOwed, Alert, Punctual, Flagged;
    var w, k := x.sect, x.sect.from.k;
    ParkKeeps(k, w.c, w.timed, w.delay);
    UnlockKeeps(Park(k, w.c, w.timed, w.delay), w.m);
    hide Unlock;
    var r := Partial(k, w.pc, w.c, w.m, w.timed, w.delay);
    assert Base(r);
    hide Partial;
    StructFrame(r, x.s.k, NULL);
    FlagsBase(r, x.s.k);
  }

  lemma WaitLateFrame(x: Micro, r: Micro)
    requires MShape(x) && SectionOk(x.sect) && x.sect.Waiting? && MShape(r) && Base(x.s.k)
    requires x.sect.pc == Switch && r.s.k == Sched(x.s.k)
    ensures StepFrame(x, Step, r)
  {
    hide Queued, Asleep, PrioOk, PlacedBut, CanSwitch, SemOk, Sched, StepFrame, Legal;
    SchedFrame(x.s.k);
    FrameStep(x, Step, r);
  }

  lemma WaitUnlockFrame(x: Micro, r: Micro)
    requires MShape(x) && SectionOk(x.sect) && x.sect.Waiting? && MShape(r) && Base(x.s.k)
    requires x.sect.m.Some? ==> x.sect.m.value < NSEM
    requires x.sect.pc == Unlocking && r.s.k == Unlock(x.s.k, x.sect.m)
    ensures StepFrame(x, Step, r)
  {
    hide Queued, Asleep, PrioOk, PlacedBut, CanSwitch, SemOk, Release, StepFrame, Legal;
    if x.sect.m.Some? { ReleaseFrame(x.s.k, x.sect.m.value); }
    FrameStep(x, Step, r);
  }

  lemma StepKernel(x: Micro)
    requires MShape(x) && SectionOk(x.sect) && x.sect.Waiting? && x.sect.pc != Clear
    ensures x.sect.pc == Switch ==> WaitStep(x).s.k == Sched(x.s.k)
    ensures x.sect.pc == Unlocking ==> WaitStep(x).s.k == Unlock(x.s.k, x.sect.m)
    ensures x.sect.pc != Switch ==> WaitStep(x).s.k.curr == x.s.k.curr
  {
    hide Next, Sched, Insert, InsertDue;
  }

  lemma ClockFrame(x: Micro)
    requires MInv(x) && x.sect.Clocking?
    ensures StepFrame(x, Step, ClockStep(x))
  {
    hide KInv, Queued, Asleep, PrioOk, PlacedBut, SemOk, Punctual, Books, BornOk, AllOwed, Sched, WakeAll, Woke;
    if x.sect.step == Rouse {
      WakeAllKeeps(x.s.k, x.sect.c);
      WokeFrame(x.s.k, WakeAll(x.s.k, x.sect.c));
    } else if x.sect.step == Reschedule {
      SchedFrame(x.s.k);
    }
  }

  lemma LateStep(x: Micro)
    requires MInv(x) && x.sect.Waiting? && (x.sect.pc == Unlocking || x.sect.pc == Switch)
    ensures StepFrame(x, Step, WaitStep(x))
  {
    hide Base, SysInv, WaitOk, AllOwed, WaitStep, StepFrame;
    LateWait(x);
    StepKernel(x);
    if x.sect.pc == Switch { WaitLateFrame(x, WaitStep(x)); } else { WaitUnlockFrame(x, WaitStep(x)); }
  }

  lemma GoFrame(x: Micro, v: Move)
    requires MInv(x) && Allowed(x, v)
    ensures StepFrame(x, v, Go(x, v))
  {
    hide SysInv, WaitOk, ClockOk, AllOwed, WaitStep, ClockStep, Legal, Next, StepFrame, SleepClock;
    match v {
      case Call(e) => CallStepFrame(x, e);
      case TickStart => TickStartFrame(x, Go(x, v));
      case Nmi(_) => FrameStep(x, v, Go(x, v));
      case Step =>
        if x.sect.Clocking? { ClockFrame(x); }
        else if x.sect.pc == Unlocking || x.sect.pc == Switch { LateStep(x); }
        else { WaitEarlyFrame(x); }
      case _ => FrameStep(x, v, Go(x, v));
    }
  }

  // ---- lost wakeups ----

  /** A process on a cond queue is no longer about to wait, and wait()'s caller checked first. */
  predicate Tidy(x: Micro)
    requires MShape(x)
  {
    && (forall p :: 0 <= p < NUM_PROC && IsCondQueue(x.s.k.at[p]) ==> x.checked[p] == None)
    && (x.sect.Waiting? && (x.sect.pc == Clear || x.sect.pc == Mark || x.sect.pc == Doze || x.sect.pc == Queue) ==>
          x.checked[x.s.k.curr] == Some(x.sect.c))
  }

  ghost predicate Inv(x: Micro) {
    MInv(x) && Tidy(x)
  }

  lemma CurrAt(k: Kernel)
    requires KInv(k) && k.curr != NULL_PROC
    ensures k.at[k.curr] == NULL
  {
    hide Queued, Asleep, PrioOk, PlacedBut;
    CurrInHand(k);
  }

  lemma TidyKeeps(x: Micro, v: Move, r: Micro)
    requires Inv(x) && Allowed(x, v) && r == Go(x, v)
    ensures Inv(r)
  {
    GoKeeps(x, v);
    GoFrame(x, v);
    hide MInv, Tidy, StepFrame;
    if v.Check? { OpenInv(x); CurrAt(x.s.k); }
    if v.Step? && x.sect.Waiting? && x.sect.pc != Clear { StepKernel(x); }
    TidyStep(x, v, r);
  }

  lemma OpenInv(x: Micro)
    requires MInv(x) && x.sect.Open?
    ensures SysInv(x.s) && KInv(x.s.k)
  {
  }

  lemma TidyStep(x: Micro, v: Move, r: Micro)
    requires MShape(x) && SectionOk(x.sect) && Allowed(x, v) && r == Go(x, v) && Tidy(x) && StepFrame(x, v, r)
    requires v.Check? ==> x.s.k.at[x.s.k.curr] == NULL
    requires v.Step? && x.sect.Waiting? && x.sect.pc != Clear && x.sect.pc != Switch ==> r.s.k.curr == x.s.k.curr
    ensures Tidy(r)
  {
    hide Next, Legal, Sched, Unlock, Marked, Dozed, Enq, WakeAll, SleepClock;
  }

  /** Every waiter the NMI or an ISR has signalled still has its flag set. */
  ghost predicate NoLoss(x: Micro)
    requires MShape(x)
  {
    forall p, c :: p in x.missed && 0 <= p < NUM_PROC && 0 <= c < NCOND && On(x, p, c) ==> x.s.k.pending[c]
  }

  /** Someone else still counts on the flag of c when it is lowered. */
  ghost predicate Bystander(x: Micro, c: nat, p: nat)
    requires MShape(x) && p < NUM_PROC
  {
    p in x.missed && On(x, p, c) && !(x.sect.Waiting? && p == x.s.k.curr)
  }

  /** A statement loses a wakeup exactly when it lowers the flag of a cond on which somebody
      else has been signalled and not yet woken. */
  lemma LossIff(x: Micro, v: Move, r: Micro)
    requires Inv(x) && Allowed(x, v) && NoLoss(x) && r == Go(x, v)
    ensures NoLoss(r) <==> !(Lowers(x, v).Some? && exists p :: 0 <= p < NUM_PROC && Bystander(x, Lowers(x, v).value, p))
  {
    GoFrame(x, v);
    hide MInv;
    if Lowers(x, v).Some? {
      LowersLoss(x, v, r);
    } else {
      RaiseSafe(x, v, r);
    }
  }

  lemma LowersLoss(x: Micro, v: Move, r: Micro)
    requires MShape(x) && SectionOk(x.sect) && Allowed(x, v) && Lowers(x, v).Some? && r == Go(x, v)
    requires NoLoss(x) && StepFrame(x, v, r) && Tidy(x)
    ensures NoLoss(r) <==> !exists p :: 0 <= p < NUM_PROC && Bystander(x, Lowers(x, v).value, p)
  {
    var c := Lowers(x, v).value;
    assert r.s.k == x.s.k.(pending := x.s.k.pending[c := false]);
    hide Legal, Go, StepFrame;
    forall p | 0 <= p < NUM_PROC && Bystander(x, c, p) ensures !NoLoss(r) {
      assert p in r.missed && On(r, p, c);
    }
    if !NoLoss(r) {
      var p, d :| p in r.missed && 0 <= p < NUM_PROC && 0 <= d < NCOND && On(r, p, d) && !r.s.k.pending[d];
      assert p in x.missed && On(x, p, d);
      assert Bystander(x, c, p);
    }
  }

  lemma RaiseSafe(x: Micro, v: Move, r: Micro)
    requires MShape(x) && SectionOk(x.sect) && Allowed(x, v) && Lowers(x, v) == None && r == Go(x, v)
    requires NoLoss(x) && StepFrame(x, v, r) && Tidy(x)
    ensures NoLoss(r)
  {
    hide Legal, StepFrame;
    forall p, c | p in r.missed && 0 <= p < NUM_PROC && 0 <= c < NCOND && On(r, p, c) ensures r.s.k.pending[c] {
      WasOn(x, v, r, p, c);
    }
  }

  lemma WasOn(x: Micro, v: Move, r: Micro, p: nat, c: nat)
    requires MShape(x) && SectionOk(x.sect) && Allowed(x, v) && Lowers(x, v) == None && r == Go(x, v)
    requires NoLoss(x) && StepFrame(x, v, r) && Tidy(x)
    requires p in r.missed && p < NUM_PROC && c < NCOND && On(r, p, c)
    ensures r.s.k.pending[c]
  {
    hide Next, Sched, Unlock, Marked, Dozed, Enq, WakeAll, SleepClock, CondSignalIsr;
    assert v.Check? ==> p != x.s.k.curr;
    assert On(x, p, c);
    if p in x.missed {
      assert x.s.k.pending[c];
    } else {
      assert v.Nmi? || (v.Call? && v.e.IsrSignal?);
      var d := if v.Nmi? then v.c else v.e.c;
      assert p in Signalled(x, d);
      OnOnce(x, p, c, d);
    }
  }

  lemma OnOnce(x: Micro, p: nat, c: nat, d: nat)
    requires MShape(x) && Tidy(x) && p < NUM_PROC && c < NCOND && d < NCOND && On(x, p, c) && On(x, p, d)
    ensures c == d
  {
  }

  // ---- runs ----

  predicate IsMRun(x: Micro, vs: seq<Move>)
    requires MShape(x) && SectionOk(x.sect)
    decreases |vs|
  {
    vs == [] || (Allowed(x, vs[0]) && IsMRun(Go(x, vs[0]), vs[1..]))
  }

  function MRun(x: Micro, vs: seq<Move>): (r: Micro)
    requires MShape(x) && SectionOk(x.sect) && IsMRun(x, vs)
    ensures MShape(r) && SectionOk(r.sect)
    decreases |vs|
  {
    if vs == [] then x else MRun(Go(x, vs[0]), vs[1..])
  }

  function Start(counts: seq<int>, mutex: seq<bool>): (x: Micro)
    requires Initial(counts, mutex)
    ensures MShape(x) && SectionOk(x.sect)
  {
    Micro(Init(counts, mutex), Open, seq(NUM_PROC, _ => None), {})
  }

  lemma StartInv(counts: seq<int>, mutex: seq<bool>)
    requires Initial(counts, mutex)
    ensures Inv(Start(counts, mutex)) && NoLoss(Start(counts, mutex))
  {
    InitInv(counts, mutex);
    hide SysInv, Init;
    assert Flagged(Start(counts, mutex).s.k);
    FlaggedOwed(Start(counts, mutex));
  }

  lemma {:induction false} MRunKeeps(x: Micro, vs: seq<Move>)
    requires Inv(x) && IsMRun(x, vs)
    ensures Inv(MRun(x, vs))
    decreases |vs|
  {
    hide SysInv, WaitOk, ClockOk, AllOwed, Tidy, Go, Allowed;
    if vs != [] {
      TidyKeeps(x, vs[0], Go(x, vs[0]));
      MRunKeeps(Go(x, vs[0]), vs[1..]);
    }
  }

  /** In every reachable state, between any two statements of any masked section: a flagged
      cond with waiters has nmi_pending set, or the pass of cond_clock under way has yet to
      come to it; outside masked sections nmi_pending is set. */
  lemma FlagsOwed(counts: seq<int>, mutex: seq<bool>, vs: seq<Move>, d: nat)
    requires Initial(counts, mutex) && IsMRun(Start(counts, mutex), vs) && d < NCOND
    ensures var x := MRun(Start(counts, mutex), vs);
            x.s.k.pending[d] && x.s.k.q[CondQueue(d)] != [] ==> x.s.k.nmiPending || PassOwes(x.sect, d)
  {
    hide SysInv, WaitOk, ClockOk, Tidy;
    StartInv(counts, mutex);
    MRunKeeps(Start(counts, mutex), vs);
    assert FlagOwed(MRun(Start(counts, mutex), vs), d);
  }

  // ---- one waiter per cond ----

  /** Only owner[c] ever waits for cond c. */
  ghost predicate Sole(x: Micro, owner: seq<nat>)
    requires MShape(x) && |owner| == NCOND
  {
    && (forall p, c :: 0 <= p < NUM_PROC && 0 <= c < NCOND && On(x, p, c) ==> p == owner[c])
    && (x.sect.Clocking? && (x.sect.step == Rouse || x.sect.step == Drop) ==>
          forall p :: 0 <= p < NUM_PROC ==> x.checked[p] != Some(x.sect.c))
  }

  /** Whoever checks a cond is its owner. */
  predicate ByOwner(x: Micro, v: Move, owner: seq<nat>)
    requires MShape(x) && |owner| == NCOND
  {
    v.Check? && v.c < NCOND ==> x.s.k.curr == owner[v.c]
  }

  lemma SoleOn(x: Micro, v: Move, r: Micro, owner: seq<nat>)
    requires MShape(x) && SectionOk(x.sect) && Allowed(x, v) && r == Go(x, v) && |owner| == NCOND
    requires Tidy(x) && StepFrame(x, v, r) && Sole(x, owner) && ByOwner(x, v, owner)
    ensures forall p, c :: 0 <= p < NUM_PROC && 0 <= c < NCOND && On(r, p, c) ==> p == owner[c]
  {
    hide Next, Legal, Sched, Unlock, Marked, Dozed, Enq, WakeAll, SleepClock, CondSignalIsr;
    forall p, c | 0 <= p < NUM_PROC && 0 <= c < NCOND && On(r, p, c) ensures p == owner[c] {
      assert On(x, p, c) || (v.Check? && p == x.s.k.curr);
    }
  }

  lemma SoleStep(x: Micro, v: Move, r: Micro, owner: seq<nat>)
    requires MShape(x) && SectionOk(x.sect) && Allowed(x, v) && r == Go(x, v) && |owner| == NCOND
    requires Tidy(x) && StepFrame(x, v, r) && Sole(x, owner) && ByOwner(x, v, owner)
    requires x.sect.Clocking? && x.sect.c < NCOND && x.s.k.q[CondQueue(x.sect.c)] != [] ==>
               exists h :: 0 <= h < NUM_PROC && x.s.k.at[h] == CondQueue(x.sect.c)
    ensures Sole(r, owner)
  {
    SoleOn(x, v, r, owner);
    hide Next, Legal, Sched, Unlock, Marked, Dozed, Enq, WakeAll, SleepClock, CondSignalIsr, StepFrame;
    if r.sect.Clocking? && r.sect.step == Rouse && !(x.sect.Clocking? && x.sect.step == Rouse) {
      var c := r.sect.c;
      var h :| 0 <= h < NUM_PROC && x.s.k.at[h] == CondQueue(c);
      assert On(x, h, c) && x.checked[h] == None;
      forall p | 0 <= p < NUM_PROC ensures r.checked[p] != Some(c) {
        assert x.checked[p] == Some(c) ==> On(x, p, c);
      }
    }
  }

  lemma SoleSafe(x: Micro, v: Move, r: Micro, owner: seq<nat>)
    requires Inv(x) && Allowed(x, v) && r == Go(x, v) && |owner| == NCOND && NoLoss(x) && Sole(x, owner)
        && ByOwner(x, v, owner)
    ensures Inv(r) && NoLoss(r) && Sole(r, owner)
  {
    hide SysInv, WaitOk, ClockOk, AllOwed, Tidy, NoLoss, StepFrame, Go, Allowed, Sole;
    TidyKeeps(x, v, r);
    GoFrame(x, v);
    LossIff(x, v, r);
    if x.sect.Clocking? { Queuers(x); }
    SoleStep(x, v, r, owner);
    if Lowers(x, v).Some? {
      NoBystander(x, v, owner);
    }
  }

  /** During the tick a cond queue that is not empty holds somebody. */
  lemma Queuers(x: Micro)
    requires MInv(x) && x.sect.Clocking?
    ensures forall c :: 0 <= c < NCOND && x.s.k.q[CondQueue(c)] != [] ==>
              exists h :: 0 <= h < NUM_PROC && x.s.k.at[h] == CondQueue(c)
    ensures x.sect.step == Drop ==> forall p :: 0 <= p < NUM_PROC ==> x.s.k.at[p] != CondQueue(x.sect.c)
  {
    hide Queued, Asleep, PrioOk, PlacedBut, SemOk, Books, BornOk, AllOwed, Punctual;
    forall c | 0 <= c < NCOND && x.s.k.q[CondQueue(c)] != []
      ensures exists h :: 0 <= h < NUM_PROC && x.s.k.at[h] == CondQueue(c)
    {
      HeadAt(x.s.k, CondQueue(c));
    }
    if x.sect.step == Drop {
      forall p | 0 <= p < NUM_PROC ensures x.s.k.at[p] != CondQueue(x.sect.c) {
        EmptyQueue(x.s.k, CondQueue(x.sect.c), p);
      }
    }
  }

  lemma NoBystander(x: Micro, v: Move, owner: seq<nat>)
    requires Inv(x) && |owner| == NCOND && Sole(x, owner) && Lowers(x, v).Some?
    ensures forall p :: 0 <= p < NUM_PROC ==> !Bystander(x, Lowers(x, v).value, p)
  {
    if x.sect.Clocking? { Queuers(x); }
    hide MInv;
    if x.sect.Waiting? {
      assert On(x, x.s.k.curr, x.sect.c);
    }
  }

  predicate OwnersOnly(x: Micro, vs: seq<Move>, owner: seq<nat>)
    requires MShape(x) && SectionOk(x.sect) && IsMRun(x, vs) && |owner| == NCOND
    decreases |vs|
  {
    vs == [] || (ByOwner(x, vs[0], owner) && OwnersOnly(Go(x, vs[0]), vs[1..], owner))
  }

  lemma {:induction false} SoleRun(x: Micro, vs: seq<Move>, owner: seq<nat>)
    requires Inv(x) && IsMRun(x, vs) && |owner| == NCOND && NoLoss(x) && Sole(x, owner) && OwnersOnly(x, vs, owner)
    ensures NoLoss(MRun(x, vs))
    decreases |vs|
  {
    hide SysInv, WaitOk, ClockOk, AllOwed, Tidy, Go, Allowed, NoLoss, Sole, ByOwner;
    if vs != [] {
      SoleSafe(x, vs[0], Go(x, vs[0]), owner);
      SoleRun(Go(x, vs[0]), vs[1..], owner);
    }
  }

  /** With one waiting process per cond, no interrupt's signal is ever lost, wherever the NMI
      lands: its flag stays set until the waiter has seen it. */
  lemma NeverLost(counts: seq<int>, mutex: seq<bool>, vs: seq<Move>, owner: seq<nat>)
    requires Initial(counts, mutex) && IsMRun(Start(counts, mutex), vs)
    requires |owner| == NCOND && OwnersOnly(Start(counts, mutex), vs, owner)
    ensures NoLoss(MRun(Start(counts, mutex), vs))
  {
    StartInv(counts, mutex);
    StartSole(counts, mutex, owner);
    hide MInv, Tidy, Go, Allowed, NoLoss, Sole, ByOwner, Start;
    SoleRun(Start(counts, mutex), vs, owner);
  }

  lemma StartSole(counts: seq<int>, mutex: seq<bool>, owner: seq<nat>)
    requires Initial(counts, mutex) && |owner| == NCOND
    ensures Sole(Start(counts, mutex), owner)
  {
  }

  // ---- a tick delivers, wherever the NMI lands ----

  /** p, parked on the flagged cond d when cond_clock began, is still to be reached by the
      pass or is already awake. */
  ghost predicate Watched(x: Micro, p: nat, d: nat)
    requires MShape(x) && p < NUM_PROC && d < NCOND
  {
    if x.sect.Open? then x.s.k.status[p] == Avail || x.s.k.status[p] == Curr
    else
      && x.sect.Clocking?
      && (x.s.k.status[p] == Avail
          || (x.s.k.at[p] == CondQueue(d) && x.s.k.pending[d]
              && (PassOwes(x.sect, d) || (x.sect.step == Look && x.s.k.nmiPending))))
  }

  lemma WokeFlags(k: Kernel, r: Kernel, p: nat)
    requires Shape(k) && Shape(r) && Woke(k, r) && p < NUM_PROC
    ensures r.pending == k.pending && r.nmiPending == k.nmiPending && (Unmoved(k, r, p) || Awoken(k, r, p))
  {
  }

  lemma RouseWakes(x: Micro, p: nat, d: nat)
    requires MInv(x) && x.sect.Clocking? && x.sect.step == Rouse && p < NUM_PROC && d < NCOND && Watched(x, p, d)
    ensures Watched(ClockStep(x), p, d)
  {
    hide Queued, Asleep, PrioOk, PlacedBut, Books, BornOk, SemOk, Punctual, WakeAll, AllOwed, Woke, CanSwitch;
    var k, c, r := x.s.k, x.sect.c, WakeAll(x.s.k, x.sect.c);
    WakeAllKeeps(k, c);
    PlacedAt(k, NULL, p);
    WokeFlags(k, r, p);
    if c == d { EmptyQueue(r, CondQueue(c), p); PlacedAt(r, NULL, p); }
  }

  lemma RescheduleWakes(x: Micro, p: nat, d: nat)
    requires MInv(x) && x.sect.Clocking? && x.sect.step == Reschedule && p < NUM_PROC && d < NCOND && Watched(x, p, d)
    ensures Watched(ClockStep(x), p, d)
  {
    hide Queued, Asleep, PrioOk, PlacedBut, Books, BornOk, SemOk, Punctual, Sched, AllOwed;
    SchedKeepsReady(x.s.k, p);
  }

  lemma WatchStep(x: Micro, v: Move, r: Micro, p: nat, d: nat)
    requires MInv(x) && Allowed(x, v) && (v.Step? || v.Nmi?) && r == Go(x, v) && p < NUM_PROC && d < NCOND
        && Watched(x, p, d)
    ensures Watched(r, p, d)
  {
    hide SysInv, WaitOk, ClockOk, AllOwed, ClockStep, WaitStep, Watched;
    WatchedSection(x, p, d);
    if v.Nmi? {
      WatchNmi(x, r, p, d);
    } else if x.sect.step == Rouse {
      RouseWakes(x, p, d);
    } else if x.sect.step == Reschedule {
      RescheduleWakes(x, p, d);
    } else {
      Parkers(x, p, d);
      WatchEasy(x, p, d);
    }
  }

  lemma WatchedSection(x: Micro, p: nat, d: nat)
    requires MShape(x) && p < NUM_PROC && d < NCOND && Watched(x, p, d)
    ensures x.sect.Open? || x.sect.Clocking?
  {
  }

  lemma WatchNmi(x: Micro, r: Micro, p: nat, d: nat)
    requires MShape(x) && MShape(r) && p < NUM_PROC && d < NCOND && Watched(x, p, d) && r.sect == x.sect
    requires r.s.k.status == x.s.k.status && r.s.k.at == x.s.k.at && r.s.k.nmiPending
        && (x.s.k.pending[d] ==> r.s.k.pending[d])
    ensures Watched(r, p, d)
  {
  }

  lemma WatchEasy(x: Micro, p: nat, d: nat)
    requires MShape(x) && SectionOk(x.sect) && x.sect.Clocking? && x.sect.step != Rouse && x.sect.step != Reschedule
    requires p < NUM_PROC && d < NCOND && Watched(x, p, d)
        && (x.s.k.at[p] == CondQueue(d) ==> x.s.k.q[CondQueue(d)] != [])
    ensures Watched(ClockStep(x), p, d)
  {
    hide WakeAll, Sched;
  }

  /** A process on a cond queue shows that the queue is not empty. */
  lemma Parkers(x: Micro, p: nat, d: nat)
    requires MInv(x) && x.sect.Clocking? && p < NUM_PROC && d < NCOND
    ensures x.s.k.at[p] == CondQueue(d) ==> x.s.k.q[CondQueue(d)] != []
  {
    hide Queued, Asleep, PrioOk, PlacedBut, Books, BornOk, SemOk, Punctual, AllOwed, CanSwitch;
    if x.s.k.q[CondQueue(d)] == [] { EmptyQueue(x.s.k, CondQueue(d), p); }
  }

  /** Whoever is parked on a flagged cond when cond_clock starts is awake when the tick is
      over, whatever the NMI does meanwhile. */
  lemma {:induction false} PassDelivers(x: Micro, vs: seq<Move>, p: nat, d: nat)
    requires Inv(x) && IsMRun(x, vs) && p < NUM_PROC && d < NCOND && Watched(x, p, d)
    requires forall v :: v in vs ==> v.Step? || v.Nmi?
    ensures Watched(MRun(x, vs), p, d)
    decreases |vs|
  {
    hide SysInv, WaitOk, ClockOk, AllOwed, Tidy, Go, Allowed, Watched;
    if vs != [] {
      TidyKeeps(x, vs[0], Go(x, vs[0]));
      WatchStep(x, vs[0], Go(x, vs[0]), p, d);
      PassDelivers(Go(x, vs[0]), vs[1..], p, d);
    }
  }

  /** The start of the pass: what AllOwed says of a parked process on a flagged cond. */
  lemma PassStarts(x: Micro, p: nat, d: nat)
    requires MInv(x) && x.sect == Clocking(Look, 0) && p < NUM_PROC && d < NCOND
    requires x.s.k.at[p] == CondQueue(d) && x.s.k.pending[d]
    ensures Watched(x, p, d)
  {
    Parkers(x, p, d);
    hide ClockOk;
    assert FlagOwed(x, d);
  }

  // ---- two waiters on one cond ----

  /** b's signal is lost: it counts as told, is about to wait, and the flag is gone. */
  ghost predicate Lost(x: Micro, b: nat, c: nat)
    requires MShape(x) && b < NUM_PROC && c < NCOND
  {
    b in x.missed && x.checked[b] == Some(c) && !x.s.k.pending[c]
  }

  /** cond_clock's pass is on its way to lower the flag that b counts on. */
  ghost predicate Hunted(x: Micro, a: nat, b: nat, c: nat)
    requires MShape(x) && a < NUM_PROC && b < NUM_PROC && c < NCOND
  {
    && x.sect.Clocking? && (x.sect.step == Probe || x.sect.step == Rouse || x.sect.step == Drop) && x.sect.c <= c
    && b in x.missed && x.checked[b] == Some(c) && x.s.k.pending[c]
    && (x.s.k.at[a] == CondQueue(c) || (x.sect.step == Drop && x.sect.c == c))
  }

  lemma HuntStep(x: Micro, r: Micro, a: nat, b: nat, c: nat)
    requires MInv(x) && x.sect.Clocking? && r == ClockStep(x)
    requires a < NUM_PROC && b < NUM_PROC && c < NCOND && Hunted(x, a, b, c)
    ensures Lost(r, b, c) || (Hunted(r, a, b, c) && Distance(r, c) < Distance(x, c))
  {
    if x.sect.step == Rouse { RouseSpares(x, a, c); }
    Parkers(x, a, c);
    hide MInv;
    HuntPart(x, r, a, b, c);
  }

  lemma HuntPart(x: Micro, r: Micro, a: nat, b: nat, c: nat)
    requires MShape(x) && SectionOk(x.sect) && x.sect.Clocking? && r == ClockStep(x)
    requires a < NUM_PROC && b < NUM_PROC && c < NCOND && Hunted(x, a, b, c)
    requires x.sect.step == Rouse ==> WakeAll(x.s.k, x.sect.c).pending == x.s.k.pending
    requires x.sect.step == Rouse && x.sect.c != c ==> WakeAll(x.s.k, x.sect.c).at[a] == CondQueue(c)
    requires x.s.k.at[a] == CondQueue(c) ==> x.s.k.q[CondQueue(c)] != []
    ensures Lost(r, b, c) || (Hunted(r, a, b, c) && Distance(r, c) < Distance(x, c))
  {
    hide WakeAll;
  }

  function Distance(x: Micro, c: nat): int {
    if x.sect.Clocking? then
      3 * (c - x.sect.c) + (if x.sect.step == Probe then 3 else if x.sect.step == Rouse then 2 else 1)
    else 0
  }

  lemma RouseSpares(x: Micro, a: nat, c: nat)
    requires MInv(x) && x.sect.Clocking? && x.sect.step == Rouse && a < NUM_PROC && c < NCOND
    requires x.s.k.at[a] == CondQueue(c)
    ensures WakeAll(x.s.k, x.sect.c).pending == x.s.k.pending
    ensures x.sect.c != c ==> WakeAll(x.s.k, x.sect.c).at[a] == x.s.k.at[a]
  {
    hide Queued, Asleep, PrioOk, PlacedBut, Books, BornOk, SemOk, Punctual, WakeAll, AllOwed;
    var k, r := x.s.k, WakeAll(x.s.k, x.sect.c);
    WakeAllKeeps(k, x.sect.c);
    PlacedAt(k, NULL, a);
    assert Unmoved(k, r, a) || Awoken(k, r, a);
  }

  predicate OnlySteps(vs: seq<Move>) {
    forall i :: 0 <= i < |vs| ==> vs[i] == Step
  }

  lemma {:induction false} HuntEnds(x: Micro, a: nat, b: nat, c: nat) returns (vs: seq<Move>)
    requires Inv(x) && a < NUM_PROC && b < NUM_PROC && c < NCOND && Hunted(x, a, b, c)
    ensures OnlySteps(vs) && IsMRun(x, vs) && Lost(MRun(x, vs), b, c)
    decreases Distance(x, c)
  {
    hide SysInv, WaitOk, ClockOk, AllOwed, Tidy, Go, Allowed, Hunted, Lost, ClockStep, Distance;
    StepIsClock(x, a, b, c);
    var r := ClockStep(x);
    TidyKeeps(x, Step, r);
    HuntStep(x, r, a, b, c);
    if Lost(r, b, c) {
      vs := [];
      assert MRun(r, vs) == r;
    } else {
      vs := HuntEnds(r, a, b, c);
    }
    RunOn(x, Step, vs);
    vs := [Step] + vs;
  }

  lemma StepIsClock(x: Micro, a: nat, b: nat, c: nat)
    requires MShape(x) && SectionOk(x.sect) && a < NUM_PROC && b < NUM_PROC && c < NCOND && Hunted(x, a, b, c)
    ensures x.sect.Clocking? && Allowed(x, Step) && Go(x, Step) == ClockStep(x) && Distance(x, c) >= 0
  {
  }

  lemma RunOn(x: Micro, v: Move, vs: seq<Move>)
    requires MShape(x) && SectionOk(x.sect) && Allowed(x, v) && IsMRun(Go(x, v), vs)
    ensures IsMRun(x, [v] + vs) && MRun(x, [v] + vs) == MRun(Go(x, v), vs)
  {
    hide Go, Allowed;
    assert ([v] + vs)[1..] == vs;
  }

  /** a is parked on c in a wait that the next tick does not end by itself. */
  ghost predicate Outlasts(k: Kernel, a: nat, c: nat)
    requires Shape(k) && a < NUM_PROC && c < NCOND
  {
    k.at[a] == CondQueue(c) && !DueNext(k, a)
  }

  lemma StillParked(x: Micro, a: nat, c: nat)
    requires MInv(x) && x.sect.Open? && a < NUM_PROC && c < NCOND && Outlasts(x.s.k, a, c)
    ensures var k := SleepClock(x.s.k);
            k.at[a] == CondQueue(c) && k.pending == x.s.k.pending && k.nmiPending == x.s.k.nmiPending
                && k.curr == x.s.k.curr
  {
    hide Queued, Asleep, PrioOk, PlacedBut, Books, BornOk, SemOk, Flagged, Alert, Punctual, SleepClock, AllOwed;
    SleepClockKeeps(x.s.k);
    PlacedAt(x.s.k, NULL, a);
    WokeAt(x.s.k.(now := x.s.k.now + 1), SleepClock(x.s.k), a);
  }

  lemma WokeAt(k: Kernel, r: Kernel, a: nat)
    requires Shape(k) && Shape(r) && Woke(k, r) && a < NUM_PROC && r.status[a] == k.status[a] && k.status[a] != Avail
    ensures r.at[a] == k.at[a]
  {
    assert Unmoved(k, r, a) || Awoken(k, r, a);
  }

  lemma InvShape(x: Micro)
    requires MInv(x)
    ensures MShape(x) && SectionOk(x.sect)
  {
  }

  lemma TickBegins(x: Micro, c: nat, r: Micro)
    requires Inv(x) && x.sect.Open? && c < NCOND && x.s.k.pending[c] && MShape(r)
    requires r == x.(s := x.s.(k := SleepClock(x.s.k)), sect := Clocking(Look, 0))
    ensures Inv(r) && r.s.k.pending[c] && r.s.k.nmiPending == x.s.k.nmiPending && r.s.k.curr == x.s.k.curr
  {
    hide MInv, SleepClock;
    InvShape(x);
    TickFlags(x);
    TickStartKeeps(x, r);
    TickStartFrame(x, r);
    TidyFrame(x, r);
  }

  lemma TickFlags(x: Micro)
    requires MInv(x) && x.sect.Open?
    ensures var k := SleepClock(x.s.k);
            k.pending == x.s.k.pending && k.nmiPending == x.s.k.nmiPending && k.curr == x.s.k.curr
  {
    hide Queued, Asleep, PrioOk, PlacedBut, Books, BornOk, SemOk, Flagged, Alert, Punctual, SleepClock, AllOwed;
    SleepClockKeeps(x.s.k);
  }

  lemma TidyFrame(x: Micro, r: Micro)
    requires MShape(x) && SectionOk(x.sect) && MShape(r) && Tidy(x) && StepFrame(x, TickStart, r)
    requires r.checked == x.checked && r.sect.Clocking?
    ensures Tidy(r)
  {
  }

  /** The tick that comes right after a signal of c has begun, and b has been told. */
  ghost predicate Ticking(x: Micro, c: nat, b: nat)
    requires MShape(x) && c < NCOND && b < NUM_PROC
  {
    x.sect == Clocking(Look, 0) && x.s.k.nmiPending && x.s.k.pending[c] && b in x.missed && x.checked[b] == Some(c)
  }

  /** The first two statements of the pass: nmi_pending is found set and lowered. */
  lemma PassBegins(x: Micro, c: nat, b: nat, r: Micro)
    requires Inv(x) && c < NCOND && b < NUM_PROC && Ticking(x, c, b) && MShape(r)
    requires r == x.(s := x.s.(k := x.s.k.(nmiPending := false)), sect := Clocking(Probe, 0))
    ensures Inv(r)
    ensures forall vs :: IsMRun(r, vs) ==>
              IsMRun(x, [Step] + ([Step] + vs)) && MRun(x, [Step] + ([Step] + vs)) == MRun(r, vs)
  {
    var m := x.(sect := Clocking(Lower, 0));
    LookLower(x, m, r);
    hide Inv, Go, Allowed, ClockStep;
    TidyKeeps(x, Step, m);
    TidyKeeps(m, Step, r);
    forall vs | IsMRun(r, vs)
      ensures IsMRun(x, [Step] + ([Step] + vs)) && MRun(x, [Step] + ([Step] + vs)) == MRun(r, vs)
    {
      RunOn(m, Step, vs);
      RunOn(x, Step, [Step] + vs);
    }
  }

  lemma LookLower(x: Micro, m: Micro, r: Micro)
    requires MShape(x) && x.sect == Clocking(Look, 0) && x.s.k.nmiPending && m == x.(sect := Clocking(Lower, 0))
    requires MShape(r) && r == x.(s := x.s.(k := x.s.k.(nmiPending := false)), sect := Clocking(Probe, 0))
    ensures Allowed(x, Step) && Go(x, Step) == m && Allowed(m, Step) && Go(m, Step) == r
  {
    hide WaitStep, Next, Legal, SleepClock, WakeAll, Sched;
  }

  /** A process parked on c that outlasts the tick has its flag lowered, and with it b's. */
  lemma Pursue(x: Micro, c: nat, a: nat, b: nat) returns (vs: seq<Move>)
    requires Inv(x) && c < NCOND && a < NUM_PROC && b < NUM_PROC && Ticking(x, c, b) && x.s.k.at[a] == CondQueue(c)
    ensures OnlySteps(vs) && IsMRun(x, vs) && Lost(MRun(x, vs), b, c)
  {
    InvShape(x);
    var r := x.(s := x.s.(k := x.s.k.(nmiPending := false)), sect := Clocking(Probe, 0));
    hide Inv, Lost, OnlySteps;
    PassBegins(x, c, b, r);
    assert Hunted(r, a, b, c);
    vs := HuntEnds(r, a, b, c);
    StepsMore(vs);
    vs := [Step] + ([Step] + vs);
  }

  lemma StepsMore(vs: seq<Move>)
    requires OnlySteps(vs)
    ensures OnlySteps([Step] + ([Step] + vs))
  {
  }

  /** Nobody is parked on the flagged cond c, and the pass is not about to lower its flag. */
  ghost predicate Safe(x: Micro, c: nat)
    requires MShape(x) && c < NCOND
  {
    && x.s.k.pending[c]
    && (x.sect.Open?
        || (x.sect.Clocking? && x.s.k.q[CondQueue(c)] == []
            && (x.sect.step == Rouse || x.sect.step == Drop ==> x.sect.c != c)))
  }

  lemma SafeStep(x: Micro, r: Micro, c: nat)
    requires MInv(x) && x.sect.Clocking? && r == ClockStep(x) && c < NCOND && Safe(x, c)
    ensures Safe(r, c)
  {
    InvShape(x);
    hide MInv, WakeAll, Sched;
    if x.sect.step == Rouse {
      RouseFrame(x);
    } else if x.sect.step == Reschedule {
      RescheduleFrame(x);
    }
  }

  lemma RouseFrame(x: Micro)
    requires MInv(x) && x.sect.Clocking? && x.sect.step == Rouse
    ensures var r := WakeAll(x.s.k, x.sect.c);
            && r.pending == x.s.k.pending
            && (forall c :: 0 <= c < NCOND && x.s.k.q[CondQueue(c)] == [] ==> r.q[CondQueue(c)] == [])
  {
    hide Queued, Asleep, PrioOk, PlacedBut, Books, BornOk, SemOk, Punctual, WakeAll, AllOwed;
    WakeAllKeeps(x.s.k, x.sect.c);
  }

  lemma RescheduleFrame(x: Micro)
    requires MInv(x) && x.sect.Clocking? && x.sect.step == Reschedule
    ensures Sched(x.s.k).pending == x.s.k.pending
  {
    hide Queued, Asleep, PrioOk, PlacedBut, Books, BornOk, SemOk, Punctual, Sched, AllOwed;
    SchedFrame(x.s.k);
  }

  lemma StepsFirst(vs: seq<Move>)
    requires OnlySteps(vs) && vs != []
    ensures vs[0] == Step && OnlySteps(vs[1..])
  {
  }

  lemma SafeClocks(x: Micro, c: nat)
    requires MShape(x) && SectionOk(x.sect) && Allowed(x, Step) && c < NCOND && Safe(x, c)
    ensures x.sect.Clocking? && Go(x, Step) == ClockStep(x)
  {
    hide ClockStep, WaitStep, Next, Legal, SleepClock;
  }

  lemma {:induction false} SafeRun(x: Micro, vs: seq<Move>, c: nat)
    requires Inv(x) && OnlySteps(vs) && IsMRun(x, vs) && c < NCOND && Safe(x, c)
    ensures MRun(x, vs).s.k.pending[c]
    decreases |vs|
  {
    hide SysInv, WaitOk, ClockOk, AllOwed, Tidy, Go, Allowed, ClockStep, OnlySteps;
    InvShape(x);
    if vs != [] {
      StepsFirst(vs);
      SafeClocks(x, c);
      hide Safe;
      var r := ClockStep(x);
      TidyKeeps(x, Step, r);
      SafeStep(x, r, c);
      SafeRun(r, vs[1..], c);
    }
  }

  lemma ParkedStill(x: Micro, c: nat)
    requires MInv(x) && x.sect.Open? && c < NCOND && SleepClock(x.s.k).q[CondQueue(c)] != []
    ensures exists a :: 0 <= a < NUM_PROC && Outlasts(x.s.k, a, c)
  {
    OpenInv(x);
    hide MInv, SleepClock, KInv, Outlasts;
    var h := HeadStill(x.s.k, c);
  }

  /** Whoever is still parked on c once the sleepers are done outlasts the tick. */
  lemma HeadStill(k: Kernel, c: nat) returns (h: nat)
    requires KInv(k) && c < NCOND && SleepClock(k).q[CondQueue(c)] != []
    ensures h < NUM_PROC && Outlasts(k, h, c)
  {
    hide Queued, Asleep, PrioOk, PlacedBut, SemOk, Flagged, Alert, Punctual, SleepClock, Woke, DueNext;
    var r := SleepClock(k);
    SleepClockKeeps(k);
    HeadAt(r, CondQueue(c));
    h := r.q[CondQueue(c)][0];
    PlacedAt(r, NULL, h);
    WokeOnCond(k.(now := k.now + 1), r, h);
  }

  lemma WokeOnCond(k: Kernel, r: Kernel, h: nat)
    requires Shape(k) && Shape(r) && Woke(k, r) && h < NUM_PROC && IsCondQueue(r.at[h])
    ensures k.at[h] == r.at[h]
  {
    assert Unmoved(k, r, h) || Awoken(k, r, h);
  }

  /** The NMI signals c and the tick begins. */
  function Tolled(x: Micro, c: nat): (r: Micro)
    requires MShape(x) && x.sect.Open? && c < NCOND
    ensures MShape(r) && SectionOk(r.sect)
  {
    Go(Go(x, Nmi(c)), TickStart)
  }

  lemma Lead(x: Micro, c: nat, vs: seq<Move>)
    requires MShape(x) && x.sect.Open? && c < NCOND
    ensures IsMRun(x, [Nmi(c), TickStart] + vs) <==> IsMRun(Tolled(x, c), vs)
    ensures IsMRun(Tolled(x, c), vs) ==> MRun(x, [Nmi(c), TickStart] + vs) == MRun(Tolled(x, c), vs)
  {
    var y := Go(x, Nmi(c));
    assert y.sect.Open? && Allowed(y, TickStart);
    hide Go;
    assert ([Nmi(c), TickStart] + vs)[1..] == [TickStart] + vs && ([TickStart] + vs)[1..] == vs;
  }

  lemma TolledIs(x: Micro, c: nat)
    requires Inv(x) && x.sect.Open? && c < NCOND && x.checked[x.s.k.curr] == Some(c)
    ensures var r := Tolled(x, c);
            Inv(r) && Ticking(r, c, x.s.k.curr) && r.s.k == SleepClock(CondSignalNmi(x.s.k, c))
  {
    hide SysInv, WaitOk, ClockOk, AllOwed, SleepClock, Tidy, Legal;
    var y := Go(x, Nmi(c));
    TidyKeeps(x, Nmi(c), y);
    assert On(x, x.s.k.curr, c);
    TickBegins(y, c, Tolled(x, c));
  }

  /** What the tick will find of a process parked on c does not depend on the flags. */
  lemma OutlastsFlags(k: Kernel, a: nat, c: nat)
    requires Shape(k) && a < NUM_PROC && c < NCOND
    ensures Outlasts(CondSignalNmi(k, c), a, c) == Outlasts(k, a, c)
  {
  }

  /** The running process has checked c and is about to wait. A signal from the NMI and a tick
      right after it lose its wakeup exactly when a process is parked on c whose own time does
      not come with that tick: waking that one lowers the flag the running one counted on. */
  lemma SecondWaiterLoses(x: Micro, c: nat)
    requires Inv(x) && x.sect.Open? && c < NCOND && x.checked[x.s.k.curr] == Some(c)
    ensures (exists vs :: OnlySteps(vs) && TickLoses(x, c, vs)) <==>
            exists a :: 0 <= a < NUM_PROC && Outlasts(x.s.k, a, c)
  {
    InvShape(x);
    TolledIs(x, c);
    hide Inv, Outlasts, Ticking, OnlySteps, Tolled;
    if a :| 0 <= a < NUM_PROC && Outlasts(x.s.k, a, c) {
      Outlasting(x, c, a);
      var vs := Pursue(Tolled(x, c), c, a, x.s.k.curr);
      Lead(x, c, vs);
      assert TickLoses(x, c, vs);
    } else {
      forall vs | OnlySteps(vs) ensures !TickLoses(x, c, vs) {
        Lead(x, c, vs);
        if IsMRun(Tolled(x, c), vs) { Spares(x, c, vs); }
      }
    }
  }

  ghost predicate TickLoses(x: Micro, c: nat, vs: seq<Move>)
    requires MShape(x) && x.sect.Open? && c < NCOND
  {
    IsMRun(x, [Nmi(c), TickStart] + vs) && Lost(MRun(x, [Nmi(c), TickStart] + vs), x.s.k.curr, c)
  }

  lemma Outlasting(x: Micro, c: nat, a: nat)
    requires Inv(x) && x.sect.Open? && c < NCOND && a < NUM_PROC && Outlasts(x.s.k, a, c)
    ensures Tolled(x, c).s.k.at[a] == CondQueue(c)
  {
    hide SysInv, WaitOk, ClockOk, AllOwed, SleepClock, Tidy, Legal;
    var y := Go(x, Nmi(c));
    TidyKeeps(x, Nmi(c), y);
    OutlastsFlags(x.s.k, a, c);
    hide Outlasts;
    StillParked(y, a, c);
  }

  lemma Spares(x: Micro, c: nat, vs: seq<Move>)
    requires Inv(x) && x.sect.Open? && c < NCOND && x.checked[x.s.k.curr] == Some(c) && OnlySteps(vs)
    requires IsMRun(Tolled(x, c), vs) && forall a :: 0 <= a < NUM_PROC ==> !Outlasts(x.s.k, a, c)
    ensures MRun(Tolled(x, c), vs).s.k.pending[c]
  {
    hide SysInv, WaitOk, ClockOk, AllOwed, SleepClock, Tidy, Legal;
    var y := Go(x, Nmi(c));
    TidyKeeps(x, Nmi(c), y);
    forall a | 0 <= a < NUM_PROC ensures !Outlasts(y.s.k, a, c) { OutlastsFlags(x.s.k, a, c); }
    if SleepClock(y.s.k).q[CondQueue(c)] != [] { ParkedStill(y, c); }
    TolledIs(x, c);
    assert Safe(Tolled(x, c), c);
    hide Inv, Go, Tolled;
    SafeRun(Tolled(x, c), vs, c);
  }

  // ---- exactly when a wakeup can be lost ----

  /** The signal comes from the NMI or from an interrupt handler. */
  function Signal(c: nat, isr: bool): Move {
    if isr then Call(IsrSignal(c)) else Nmi(c)
  }

  lemma StillLegal(s: Sys, r: Sys, c: nat, m: Option<nat>, timed: bool, delay: nat)
    requires SysShape(s) && SysShape(r) && r == s.(k := r.k) && r.k.curr == s.k.curr
    requires Legal(s, WaitCall(c, m, timed, delay))
    ensures Legal(r, WaitCall(c, m, timed, delay))
  {
  }

  lemma NmiIs(x: Micro, c: nat)
    requires MShape(x) && x.sect.Open? && c < NCOND
    ensures Allowed(x, Nmi(c))
    ensures Go(x, Nmi(c)) == x.(s := x.s.(k := CondSignalNmi(x.s.k, c)), missed := x.missed + Signalled(x, c))
  {
  }

  lemma IsrIs(x: Micro, c: nat)
    requires MShape(x) && x.sect.Open? && c < NCOND
    ensures Allowed(x, Call(IsrSignal(c)))
    ensures Go(x, Call(IsrSignal(c))) ==
              x.(s := x.s.(k := CondSignalIsr(x.s.k, c)), missed := x.missed + Signalled(x, c))
  {
    hide CondSignalIsr, Signalled;
  }

  lemma IsrCurr(k: Kernel, c: nat)
    requires KInv(k) && c < NCOND
    ensures CondSignalIsr(k, c).curr == k.curr && CondSignalIsr(k, c).pending[c]
  {
    hide Queued, Asleep, PrioOk, PlacedBut, WakeAll, SemOk, Flagged, Alert, Punctual, Quiet;
    var k1 := k.(pending := k.pending[c := true]);
    RaisedKeeps(k, k1);
    WakeAllKeeps(k1, c);
  }

  /** Somebody else counts on c: parked on it, or between its check of c and its wait. An
      interrupt handler, unlike the NMI, wakes the parked ones itself. */
  ghost predicate Rival(x: Micro, a: nat, c: nat, isr: bool)
    requires MShape(x) && a < NUM_PROC && c < NCOND
  {
    a != x.s.k.curr && if isr then x.checked[a] == Some(c) else On(x, a, c)
  }

  /** Nothing but the kernel has moved, the same process runs, and the flag of c is up. */
  predicate Same(x: Micro, r: Micro, c: nat)
    requires MShape(x) && MShape(r) && c < NCOND
  {
    r.sect.Open? && r.s.k.pending[c] && r.s.k.curr == x.s.k.curr && r.s == x.s.(k := r.s.k)
  }

  /** After the signal everyone who still counts on c has been told and the flag is up. */
  ghost predicate Told(x: Micro, r: Micro, c: nat, isr: bool)
    requires MShape(x) && MShape(r) && c < NCOND
  {
    && Same(x, r, c)
    && (forall p :: 0 <= p < NUM_PROC ==>
          && On(r, p, c) == (if isr then x.checked[p] == Some(c) else On(x, p, c))
          && (On(r, p, c) ==> p in r.missed))
  }

  lemma SignalTells(x: Micro, c: nat, isr: bool)
    requires MShape(x) && x.sect.Open? && c < NCOND && KInv(x.s.k)
    ensures Allowed(x, Signal(c, isr)) && Told(x, Go(x, Signal(c, isr)), c, isr)
  {
    if isr { IsrTells(x, c); } else { NmiTells(x, c); }
  }

  lemma NmiTells(x: Micro, c: nat)
    requires MShape(x) && x.sect.Open? && c < NCOND
    ensures Allowed(x, Signal(c, false)) && Told(x, Go(x, Signal(c, false)), c, false)
  {
    NmiIs(x, c);
    hide Go;
  }

  lemma IsrTells(x: Micro, c: nat)
    requires MShape(x) && x.sect.Open? && c < NCOND && KInv(x.s.k)
    ensures Allowed(x, Signal(c, true)) && Told(x, Go(x, Signal(c, true)), c, true)
  {
    IsrIs(x, c);
    hide KInv, Go, CondSignalIsr;
    IsrCurr(x.s.k, c);
    forall p | 0 <= p < NUM_PROC ensures CondSignalIsr(x.s.k, c).at[p] != CondQueue(c) { IsrEmpties(x.s.k, c, p); }
  }

  lemma IsrEmpties(k: Kernel, c: nat, p: nat)
    requires KInv(k) && c < NCOND && p < NUM_PROC
    ensures CondSignalIsr(k, c).at[p] != CondQueue(c)
  {
    hide Queued, Asleep, PrioOk, PlacedBut, WakeAll, SemOk, Flagged, Alert, Punctual, Quiet;
    var k1 := k.(pending := k.pending[c := true]);
    RaisedKeeps(k, k1);
    WakeAllKeeps(k1, c);
    EmptyQueue(CondSignalIsr(k, c), CondQueue(c), p);
  }

  /** wait() finds the flag: the first statement of the section is the one that lowers it. */
  lemma BeginsClear(x: Micro, c: nat, m: Option<nat>, timed: bool, delay: nat)
    requires MShape(x) && x.sect.Open? && c < NCOND && x.s.k.pending[c] && Allowed(x, Begin(c, m, timed, delay))
    ensures var r := Go(x, Begin(c, m, timed, delay));
            && r == x.(sect := Waiting(Clear, x.s, c, m, timed, delay))
            && Allowed(r, Step) && Lowers(r, Step) == Some(c) && Lowers(x, Begin(c, m, timed, delay)) == None
            && Go(r, Step) == x.(s := x.s.(k := x.s.k.(pending := x.s.k.pending[c := false]),
                                           rc := x.s.rc[x.s.k.curr := Some(0)]),
                                 checked := x.checked[x.s.k.curr := None], missed := x.missed - {x.s.k.curr})
  {
    hide Legal, Next;
  }

  /** a was told of c's signal and has not seen it, and its flag is gone. */
  ghost predicate LeftBehind(x: Micro, a: nat, c: nat)
    requires MShape(x) && a < NUM_PROC && c < NCOND
  {
    a in x.missed && On(x, a, c) && !x.s.k.pending[c]
  }

  lemma Three(x: Micro, u: Move, v: Move, w: Move)
    requires MShape(x) && SectionOk(x.sect) && Allowed(x, u) && Allowed(Go(x, u), v) && Allowed(Go(Go(x, u), v), w)
    ensures IsMRun(x, [u, v, w]) && MRun(x, [u, v, w]) == Go(Go(Go(x, u), v), w)
  {
    hide Go, Allowed;
    var x1, x2 := Go(x, u), Go(Go(x, u), v);
    assert IsMRun(Go(x2, w), []) && MRun(Go(x2, w), []) == Go(x2, w);
    RunOn(x2, w, []);
    RunOn(x1, v, [w] + []);
    RunOn(x, u, [v] + ([w] + []));
    assert [u] + ([v] + ([w] + [])) == [u, v, w];
  }

  /** The running process has checked c and is about to wait. If the signal comes now and the
      wait goes ahead, the wakeups lost are exactly those of everybody else who counts on c:
      parked or about to park, timed or not, due next tick or never, under whatever mutex. */
  lemma SharedLoses(x: Micro, c: nat, isr: bool, m: Option<nat>, timed: bool, delay: nat)
    requires Inv(x) && NoLoss(x) && x.sect.Open? && c < NCOND && x.checked[x.s.k.curr] == Some(c)
    requires Legal(x.s, WaitCall(c, m, timed, delay))
    ensures var vs := [Signal(c, isr), Begin(c, m, timed, delay), Step];
            && IsMRun(x, vs)
            && (forall a :: 0 <= a < NUM_PROC ==> (LeftBehind(MRun(x, vs), a, c) <==> Rival(x, a, c, isr)))
            && (!NoLoss(MRun(x, vs)) <==> exists a :: 0 <= a < NUM_PROC && Rival(x, a, c, isr))
  {
    InvShape(x);
    OpenInv(x);
    hide MInv, Tidy, SysInv, KInv, Go, Allowed, NoLoss, LeftBehind, Rival;
    SignalTells(x, c, isr);
    assert Same(x, Go(x, Signal(c, isr)), c);
    hide Told;
    var x1 := Go(x, Signal(c, isr));
    LossIff(x, Signal(c, isr), x1);
    TidyKeeps(x, Signal(c, isr), x1);
    SignalLeaves(x, x1, c, isr);
    TakesLoses(x, x1, c, isr, m, timed, delay);
    hide Legal;
    Three(x, Signal(c, isr), Begin(c, m, timed, delay), Step);
  }

  lemma SignalLeaves(x: Micro, r: Micro, c: nat, isr: bool)
    requires MShape(x) && SectionOk(x.sect) && c < NCOND && Allowed(x, Signal(c, isr)) && r == Go(x, Signal(c, isr))
    ensures r.checked == x.checked && Lowers(x, Signal(c, isr)) == None
  {
    hide Next, Legal;
  }

  lemma TakesLoses(x: Micro, x1: Micro, c: nat, isr: bool, m: Option<nat>, timed: bool, delay: nat)
    requires MShape(x) && Inv(x1) && NoLoss(x1) && c < NCOND && Told(x, x1, c, isr) && Same(x, x1, c)
    requires x1.checked[x1.s.k.curr] == Some(c) && Legal(x.s, WaitCall(c, m, timed, delay))
    ensures Allowed(x1, Begin(c, m, timed, delay)) && Allowed(Go(x1, Begin(c, m, timed, delay)), Step)
    ensures var r := Go(Go(x1, Begin(c, m, timed, delay)), Step);
            && (forall a :: 0 <= a < NUM_PROC ==> (LeftBehind(r, a, c) <==> Rival(x, a, c, isr)))
            && (!NoLoss(r) <==> exists a :: 0 <= a < NUM_PROC && Rival(x, a, c, isr))
  {
    InvShape(x1);
    hide MInv, Tidy, SysInv, NoLoss, Rival, Bystander, LeftBehind, Told, On;
    StillLegal(x.s, x1.s, c, m, timed, delay);
    assert Allowed(x1, Begin(c, m, timed, delay));
    hide Legal;
    BeginsClear(x1, c, m, timed, delay);
    var x2 := Go(x1, Begin(c, m, timed, delay));
    hide Go, Allowed;
    LossIff(x1, Begin(c, m, timed, delay), x2);
    TidyKeeps(x1, Begin(c, m, timed, delay), x2);
    var x3 := Go(x2, Step);
    LossIff(x2, Step, x3);
    forall a | 0 <= a < NUM_PROC ensures Bystander(x2, c, a) == Rival(x, a, c, isr) == LeftBehind(x3, a, c) {
      Told1(x, x1, c, isr, a);
      BehindIs(x1, x2, x3, c, a);
    }
  }

  lemma BehindIs(x1: Micro, x2: Micro, x3: Micro, c: nat, a: nat)
    requires MShape(x1) && MShape(x2) && MShape(x3) && c < NCOND && a < NUM_PROC && x2.sect.Waiting?
    requires x2 == x1.(sect := x2.sect) && (On(x1, a, c) ==> a in x1.missed)
    requires x3.s.k == x1.s.k.(pending := x1.s.k.pending[c := false])
    requires x3.checked == x1.checked[x1.s.k.curr := None] && x3.missed == x1.missed - {x1.s.k.curr}
    ensures Bystander(x2, c, a) == (a != x1.s.k.curr && On(x1, a, c)) == LeftBehind(x3, a, c)
  {
  }

  lemma Told1(x: Micro, r: Micro, c: nat, isr: bool, a: nat)
    requires MShape(x) && MShape(r) && c < NCOND && Told(x, r, c, isr) && a < NUM_PROC
    ensures Rival(x, a, c, isr) == (a != r.s.k.curr && On(r, a, c)) && (On(r, a, c) ==> a in r.missed)
  {
  }
}
