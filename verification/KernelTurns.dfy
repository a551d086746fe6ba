/** Round robin over runs: processes of equal priority take turns whatever harmless calls,
    interrupts and ticks come between two reschedules. */
module KernelTurns {
  import opened Config
  import opened ProcQueue
  import opened KernelState
  import opened KernelInv
  import opened KernelSteps
  import opened KernelRuns
  import opened KernelTheorems

  /** e blocks nobody, wakes nobody and starts or ends nobody: the token or flag asked for is
      there, nobody waits for what is given, no sleeper is due and no flagged cond has waiters. */
  ghost predicate Harmless(s: Sys, e: Event)
    requires SysShape(s)
  {
    var k := s.k;
    match e
    case SemWaitCall(i) => i < NSEM && k.count[i] > 0
    case LockCall(m) => m < NSEM && k.count[m] > 0
    case SemSignalCall(i) => i < NSEM && k.count[i] >= 0
    case UnlockSignal(m) => m < NSEM && k.count[m] >= 0
    case WaitCall(c, _, _, _) => c < NCOND && k.pending[c]
    case SignalCall(c) => c < NCOND && k.q[CondQueue(c)] == []
    case BroadcastCall(c) => c < NCOND && k.q[CondQueue(c)] == []
    case IsrSignal(c) => c < NCOND && k.q[CondQueue(c)] == []
    case TickIntr =>
      && (forall p :: 0 <= p < NUM_PROC ==> !DueNext(k, p))
      && (forall c :: 0 <= c < NCOND && k.pending[c] ==> k.q[CondQueue(c)] == [])
    case SleepCall(_) => false
    case MakeAvailCall(_) => false
    case ExitCall => false
    case _ => true
  }

  /** e reschedules: a yield and a tick always do, a call that signals does if asked to. */
  predicate Reschedules(s: Sys, e: Event) {
    e.YieldCall? || e.TickIntr?
    || (s.k.needResched && (e.SemSignalCall? || e.UnlockSignal? || e.SignalCall? || e.BroadcastCall?))
  }

  /** Nothing the scheduler goes by differs. */
  ghost predicate SameReady(k: Kernel, r: Kernel)
    requires Shape(k) && Shape(r)
  {
    && r.curr == k.curr && r.status[k.curr] == k.status[k.curr] && r.q[AVAIL_LIST] == k.q[AVAIL_LIST]
    && r.prio[k.curr] == k.prio[k.curr] && forall p :: p in k.q[AVAIL_LIST] && p < NUM_PROC ==> r.prio[p] == k.prio[p]
  }

  lemma RingStays(k: Kernel, r: Kernel, ring: seq<nat>, rest: seq<nat>)
    requires Ring(k, ring, rest) && Struct(r, NULL) && CanSwitch(r) && SameReady(k, r)
    ensures Ring(r, ring, rest)
  {
    assert Shape(k);
    hide Struct, CanSwitch;
    assert forall a :: 1 <= a < |ring| ==> ring[a] == k.q[AVAIL_LIST][a - 1];
    assert forall a :: 0 <= a < |rest| ==> rest[a] == k.q[AVAIL_LIST][|ring| - 1 + a];
  }

  /** What an event does before its reschedule, if it has one. */
  ghost predicate Readied(k: Kernel, m: Kernel)
    requires Shape(k)
  {
    Shape(m) && Struct(m, NULL) && CanSwitch(m) && SameReady(k, m)
  }

  lemma SignalReadied(k: Kernel, i: nat)
    requires KInv(k) && i < NSEM && k.count[i] >= 0
    ensures Readied(k, Release(k, i))
    ensures SemSignal(k, i) == if k.needResched then Sched(Release(k, i)) else Release(k, i)
  {
    hide Queued, Asleep, PrioOk, PlacedBut, Sched, SemOk, Flagged, Alert, Punctual;
    StructFrame(k, k.(count := k.count[i := k.count[i] + 1]), NULL);
  }

  lemma CondReadied(k: Kernel, c: nat)
    requires KInv(k) && c < NCOND && k.q[CondQueue(c)] == []
    ensures Readied(k, k)
    ensures CondSignal(k, c) == CondBroadcast(k, c) == if k.needResched then Sched(k) else k
    ensures CondSignalIsr(k, c) == k.(pending := k.pending[c := true])
  {
    hide Queued, Asleep, PrioOk, PlacedBut, Sched, SemOk, Flagged, Alert, Punctual;
  }

  lemma {:induction false} NothingDelivered(k: Kernel, c: nat)
    requires Shape(k) && c <= NCOND && forall d :: 0 <= d < NCOND && k.pending[d] ==> k.q[CondQueue(d)] == []
    ensures DeliverFrom(k, c) == k
    decreases NCOND - c
  {
    hide WakeAll;
    if c < NCOND { NothingDelivered(k, c + 1); }
  }

  lemma TickReadied(k: Kernel) returns (m: Kernel)
    requires KInv(k) && (forall p :: 0 <= p < NUM_PROC ==> !DueNext(k, p))
    requires forall c :: 0 <= c < NCOND && k.pending[c] ==> k.q[CondQueue(c)] == []
    ensures Readied(k, m) && Tick(k) == Sched(m)
  {
    hide Queued, Asleep, PrioOk, PlacedBut, Sched, SemOk, Flagged, Alert, WakeAll, DeliverFrom;
    var k1 := k.(now := k.now + 1);
    assert !Expired(k1) by {
      if k.sleepers != [] { assert k.sleepers[0] in k.sleepers && !DueNext(k, k.sleepers[0]); }
    }
    NextTickStruct(k);
    m := k1.(nmiPending := false);
    StructFrame(k1, m, NULL);
    if k1.nmiPending { NothingDelivered(m, 0); } else { assert m == k1; }
  }

  lemma CreateReadied(k: Kernel, priority: int, stack: bool)
    requires KInv(k)
    ensures SameReady(k, Create(k, priority, stack))
  {
    hide Asleep, PrioOk, PlacedBut, SemOk, Flagged, Alert, Punctual, Fifo;
    var pid := FreePid(k, 1);
    if pid.Some? {
      PlacedAt(k, NULL, pid.value);
      QueuedAt(k, AVAIL_LIST);
    }
  }

  /** One harmless event: a turn if it reschedules, nothing otherwise. */
  lemma HarmlessStep(s: Sys, e: Event, ring: seq<nat>, rest: seq<nat>)
    requires SysInv(s) && Legal(s, e) && Harmless(s, e) && Ring(s.k, ring, rest)
    ensures ring != [] && Ring(Next(s, e).k, if Reschedules(s, e) then Rotate(ring) else ring, rest)
  {
    RingHead(s.k, ring, rest);
    NextKeeps(s, e);
    hide SysInv, Next, Legal, Ring, Rotate;
    if e.YieldCall? || e.TickIntr? { ClockStep(s, e, ring, rest); }
    else if e.SemSignalCall? || e.UnlockSignal? || e.SignalCall? || e.BroadcastCall? { GiveStep(s, e, ring, rest); }
    else { TakeStep(s, e); Stays(s, e, ring, rest); }
  }

  lemma ClockStep(s: Sys, e: Event, ring: seq<nat>, rest: seq<nat>)
    requires SysInv(s) && Legal(s, e) && Harmless(s, e) && Ring(s.k, ring, rest) && (e.YieldCall? || e.TickIntr?)
    ensures ring != [] && Ring(Next(s, e).k, Rotate(ring), rest)
  {
    RingHead(s.k, ring, rest);
    ClockIs(s, e);
    hide Next, Legal, Books, BornOk, Ring, KInv, Sched, Tick, Rotate, DueNext;
    if e.TickIntr? { TickTurns(s.k, ring, rest); } else { RotateStep(s.k, ring, rest); }
  }

  lemma TickTurns(k: Kernel, ring: seq<nat>, rest: seq<nat>)
    requires KInv(k) && Ring(k, ring, rest) && (forall p :: 0 <= p < NUM_PROC ==> !DueNext(k, p))
    requires forall c :: 0 <= c < NCOND && k.pending[c] ==> k.q[CondQueue(c)] == []
    ensures ring != [] && Ring(Tick(k), Rotate(ring), rest)
  {
    RingHead(k, ring, rest);
    hide KInv, Ring, Sched, Tick, Rotate, Readied;
    var m := TickReadied(k);
    Settles(k, m, Tick(k), true, ring, rest);
  }

  lemma ClockIs(s: Sys, e: Event)
    requires SysShape(s) && Legal(s, e) && (e.YieldCall? || e.TickIntr?)
    ensures Next(s, e).k == if e.TickIntr? then Tick(s.k) else Sched(s.k)
  {
    hide Tick, Sched;
  }

  lemma GiveStep(s: Sys, e: Event, ring: seq<nat>, rest: seq<nat>)
    requires SysInv(s) && Legal(s, e) && Harmless(s, e) && Ring(s.k, ring, rest)
    requires e.SemSignalCall? || e.UnlockSignal? || e.SignalCall? || e.BroadcastCall?
    ensures ring != [] && Ring(Next(s, e).k, if Reschedules(s, e) then Rotate(ring) else ring, rest)
  {
    RingHead(s.k, ring, rest);
    hide SysInv, Next, Legal, Harmless, Ring, Sched, Rotate, Readied;
    var m := Given(s, e);
    Settles(s.k, m, Next(s, e).k, s.k.needResched, ring, rest);
  }

  lemma Given(s: Sys, e: Event) returns (m: Kernel)
    requires SysInv(s) && Legal(s, e) && Harmless(s, e)
    requires e.SemSignalCall? || e.UnlockSignal? || e.SignalCall? || e.BroadcastCall?
    ensures Readied(s.k, m) && Next(s, e).k == if s.k.needResched then Sched(m) else m
  {
    hide KInv, Books, BornOk, Sched, SemSignal, CondSignal, CondBroadcast, Release, Readied;
    if e.SemSignalCall? || e.UnlockSignal? {
      var i := if e.SemSignalCall? then e.s else e.m;
      SignalReadied(s.k, i);
      m := Release(s.k, i);
    } else {
      CondReadied(s.k, e.c);
      m := s.k;
    }
  }

  lemma TakeStep(s: Sys, e: Event)
    requires SysInv(s) && Legal(s, e) && Harmless(s, e)
    requires !(e.YieldCall? || e.TickIntr? || e.SemSignalCall? || e.UnlockSignal? || e.SignalCall? || e.BroadcastCall?)
    ensures SameReady(s.k, Next(s, e).k)
  {
    hide KInv, Books, BornOk, Sched, CondSignalIsr, Create, SemWait, Wait, SameReady;
    match e {
      case IsrSignal(c) => IsrReady(s.k, c);
      case CreateCall(priority, stack) => CreateReadied(s.k, priority, stack);
      case _ => CallStays(s, e);
    }
  }

  lemma IsrReady(k: Kernel, c: nat)
    requires KInv(k) && c < NCOND && k.q[CondQueue(c)] == []
    ensures SameReady(k, CondSignalIsr(k, c))
  {
    CondReadied(k, c);
    hide KInv, CondSignalIsr;
  }

  lemma Settles(k: Kernel, m: Kernel, r: Kernel, turn: bool, ring: seq<nat>, rest: seq<nat>)
    requires Ring(k, ring, rest) && Shape(k) && Readied(k, m) && Shape(r) && r == (if turn then Sched(m) else m)
    ensures ring != [] && Ring(r, if turn then Rotate(ring) else ring, rest)
  {
    RingHead(k, ring, rest);
    RingStays(k, m, ring, rest);
    hide Ring, Sched, Rotate, SameReady, Struct, CanSwitch;
    if turn { RotateStep(m, ring, rest); }
  }

  lemma Stays(s: Sys, e: Event, ring: seq<nat>, rest: seq<nat>)
    requires SysShape(s) && Legal(s, e) && Ring(s.k, ring, rest) && SysInv(Next(s, e)) && SameReady(s.k, Next(s, e).k)
    ensures Ring(Next(s, e).k, ring, rest)
  {
    hide Next, Legal, Books, BornOk, SameReady, Queued, Asleep, PrioOk, PlacedBut, Ring;
    RingStays(s.k, Next(s, e).k, ring, rest);
  }

  /** Taking a token or a flag, and the statements outside masked sections. */
  lemma CallStays(s: Sys, e: Event)
    requires SysShape(s) && Legal(s, e) && Harmless(s, e) && !Reschedules(s, e)
    requires e.SemWaitCall? || e.LockCall? || e.WaitCall? || e.LockReturn? || e.UnlockTest? || e.WaitReturn?
        || e.NmiSignal?
    ensures SameReady(s.k, Next(s, e).k)
  {
    hide Sched, Park, Unlock, Enq;
  }

  // ---- runs ----

  ghost predicate AllHarmless(s: Sys, es: seq<Event>)
    requires SysShape(s) && IsRun(s, es)
    decreases |es|
  {
    es == [] || (Harmless(s, es[0]) && AllHarmless(Next(s, es[0]), es[1..]))
  }

  /** How many of the events reschedule. */
  function Turns(s: Sys, es: seq<Event>): nat
    requires SysShape(s) && IsRun(s, es)
    decreases |es|
  {
    if es == [] then 0 else (if Reschedules(s, es[0]) then 1 else 0) + Turns(Next(s, es[0]), es[1..])
  }

  function Turned(ring: seq<nat>, n: nat): (r: seq<nat>)
    requires ring != []
    ensures |r| == |ring|
    decreases n
  {
    if n == 0 then ring else Turned(Rotate(ring), n - 1)
  }

  lemma {:induction false} TurnedIs(ring: seq<nat>, n: nat)
    requires ring != [] && n <= |ring|
    ensures Turned(ring, n) == ring[n..] + ring[..n]
    decreases n
  {
    if n == 1 {
      assert Turned(ring, 1) == Rotate(ring);
    } else if n > 1 {
      TurnedIs(Rotate(ring), n - 1);
      assert Rotate(ring)[n - 1..] + Rotate(ring)[..n - 1] == ring[n..] + ring[..n];
    }
  }

  lemma {:induction false} RingRuns(s: Sys, es: seq<Event>, ring: seq<nat>, rest: seq<nat>)
    requires SysInv(s) && IsRun(s, es) && AllHarmless(s, es) && Ring(s.k, ring, rest)
    ensures ring != [] && Ring(Run(s, es).k, Turned(ring, Turns(s, es)), rest)
    decreases |es|
  {
    RingHead(s.k, ring, rest);
    if es != [] {
      hide SysInv, Next, Legal, Harmless, Ring, Rotate, Reschedules;
      var turned := if Reschedules(s, es[0]) then Rotate(ring) else ring;
      RunOne(s, es);
      HarmlessStep(s, es[0], ring, rest);
      hide Run, IsRun, AllHarmless, Turned, Turns;
      RingRuns(Next(s, es[0]), es[1..], turned, rest);
      TurnMore(s, es, ring);
    }
  }

  lemma TurnMore(s: Sys, es: seq<Event>, ring: seq<nat>)
    requires SysShape(s) && IsRun(s, es) && es != [] && ring != []
    ensures Turned(ring, Turns(s, es)) ==
            Turned(if Reschedules(s, es[0]) then Rotate(ring) else ring, Turns(Next(s, es[0]), es[1..]))
  {
    hide Next, Legal, Reschedules, Rotate;
  }

  lemma RunOne(s: Sys, es: seq<Event>)
    requires SysInv(s) && IsRun(s, es) && AllHarmless(s, es) && es != []
    ensures Legal(s, es[0]) && SysInv(Next(s, es[0])) && IsRun(Next(s, es[0]), es[1..])
    ensures Harmless(s, es[0]) && AllHarmless(Next(s, es[0]), es[1..]) && Run(s, es) == Run(Next(s, es[0]), es[1..])
  {
    hide KInv, Books, BornOk, Next, Legal, Harmless;
    NextKeeps(s, es[0]);
  }

  /** Equals of top priority take turns over any run of harmless events: after n of them have
      rescheduled the n-th of the ring runs, and after as many as there are the round begins
      anew, in the same order. */
  lemma RoundsOverRuns(s: Sys, es: seq<Event>, ring: seq<nat>, rest: seq<nat>)
    requires SysInv(s) && IsRun(s, es) && AllHarmless(s, es) && Ring(s.k, ring, rest) && Turns(s, es) <= |ring|
    ensures var r, n := Run(s, es).k, Turns(s, es);
            && r.curr == ring[if n == |ring| then 0 else n]
            && Ring(r, ring[n..] + ring[..n], rest)
  {
    RingRuns(s, es, ring, rest);
    TurnedIs(ring, Turns(s, es));
    RingHead(Run(s, es).k, Turned(ring, Turns(s, es)), rest);
    hide SysInv, Ring, Turned, AllHarmless, Run, IsRun;
  }
}
