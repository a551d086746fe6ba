/** The kernel as the source writes it: tables updated in place, every entry point one method
    that does to the fields what KernelState says it does to their abstract value. */
module Kernel {
  import opened Config
  import opened ProcQueue
  import opened SleepList
  import KS = KernelState
  import opened KernelInv
  import opened KernelSteps

  /** The slot depends only on the keys of those queued, which are their priorities. */
  lemma InsertKeys(s: seq<nat>, p: nat, at: seq<int>, keys: seq<int>, prio: seq<int>, i: nat)
    requires InRange(s) && Keyed(at, keys, prio) && p < NUM_PROC
    requires forall a :: 0 <= a < |s| ==> at[s[a]] == i
    ensures Insert(s, p, prio[p], keys[p := prio[p]]) == Insert(s, p, prio[p], prio)
    ensures Keyed(at[p := i], keys[p := prio[p]], prio)
  {
    SlotUnique(s, prio[p], keys[p := prio[p]], Slot(s, prio[p], prio));
  }

  class System {
    const pq: ProcQueues
    const sl: Sleepers
    var status: seq<KS.Status>
    var prio: seq<int>
    var timedOut: seq<bool>
    var curr: nat
    var needResched: bool
    var count: seq<int>
    var pending: seq<bool>
    var nmiPending: bool
    ghost var stamp: seq<nat>
    ghost var clock: nat

    /** The abstract value of all the tables. */
    ghost function State(): KS.Kernel
      reads this, pq, sl
    {
      KS.Kernel(status, prio, timedOut, curr, needResched, pq.qs, pq.at, stamp, clock, count, pending, nmiPending,
          sl.s, sl.due, sl.now)
    }

    /** The tables are well formed, and a queued process is queued under its priority. */
    ghost predicate Valid()
      reads this, pq, pq.entries, sl
    {
      && pq.Valid() && sl.Valid() && |pq.qs| == NUM_QUEUE && |pq.keys| == NUM_PROC && KS.Shape(State())
      && Keyed(pq.at, pq.keys, prio)
    }

    /** start(): every queue opened in order, then the null process made available. */
    constructor (counts: seq<int>)
      requires |counts| == NSEM
      ensures Valid() && fresh(pq) && fresh(pq.entries) && fresh(sl)
      ensures State() == KS.Boot(counts)
    {
      pq := new ProcQueues();
      sl := new Sleepers();
      status := seq(NUM_PROC, p => if p == 0 then KS.Curr else KS.Unused);
      prio, timedOut := seq(NUM_PROC, _ => 0), seq(NUM_PROC, _ => false);
      curr, needResched := NULL_PROC, false;
      count, pending, nmiPending := counts, seq(NCOND, _ => false), false;
      stamp, clock := seq(NUM_PROC, _ => 0), 0;
      new;
      hide Insert, Sleepers.Valid, KS.MakeAvail, KS.Boot, ProcQueues.Valid;
      OpenQueues();
      BootState(counts, State());
      MakeAvail(NULL_PROC);
    }

    method OpenQueues()
      requires pq.Valid() && pq.qs == [] && pq.at == seq(NUM_PROC, _ => NULL)
      modifies pq, pq.entries
      ensures pq.Valid() && pq.at == old(pq.at) && pq.keys == old(pq.keys) && pq.qs == seq(NUM_QUEUE, _ => [])
    {
      var i := 0;
      while i < NUM_QUEUE
        invariant 0 <= i <= NUM_QUEUE && pq.Valid() && pq.at == old(pq.at) && pq.keys == old(pq.keys)
            && pq.qs == seq(i, _ => [])
      {
        var q := pq.NewQueue();
        i := i + 1;
      }
    }

    // ---- queue primitives ----

    method Enqueue(i: nat, pid: nat)
      requires Valid() && i < NUM_QUEUE && pid < NUM_PROC && pq.at[pid] == NULL && MIN_KEY < prio[pid] <= MAX_KEY
      modifies this`stamp, this`clock, pq, pq.entries
      ensures Valid() && State() == KS.Enq(old(State()), i, pid)
    {
      hide Insert, ProcQueues.Valid, Sleepers.Valid, Keyed, Linked;
      ghost var k := State();
      MembersOf(pq, i);
      InsertKeys(pq.qs[i], pid, pq.at, pq.keys, prio, i);
      pq.Enqueue(i, pid, prio[pid]);
      stamp, clock := stamp[pid := clock], clock + 1;
      assert State() == KS.Enq(k, i, pid);
    }

    method Dequeue(i: nat) returns (pid: nat)
      requires Valid() && i < NUM_QUEUE
      modifies pq, pq.entries
      ensures Valid() && pid == KS.First(old(State()), i) && State() == KS.Deq(old(State()), i)
    {
      ghost var k := State();
      pid := pq.Dequeue(i);
      assert State() == KS.Deq(k, i);
    }

    method Unqueue(pid: nat)
      requires Valid() && pid < NUM_PROC
      modifies pq, pq.entries
      ensures Valid() && State() == KS.Unqueue(old(State()), pid) && pq.at[pid] == NULL
    {
      ghost var k := State();
      pq.Remove(pid);
      assert State() == KS.Unqueue(k, pid);
    }

    // ---- make_avail.c, sched.c ----

    method MakeAvail(pid: nat)
      requires Valid() && pid < NUM_PROC && pq.at[pid] == NULL && MIN_KEY < prio[pid] <= MAX_KEY
      modifies this`status, this`needResched, this`stamp, this`clock, pq, pq.entries
      ensures Valid() && State() == KS.MakeAvail(old(State()), pid)
    {
      hide KS.Enq, ProcQueues.Valid, Sleepers.Valid, Keyed;
      status := status[pid := KS.Avail];
      Enqueue(KS.AVAIL_LIST, pid);
      if prio[pid] > prio[curr] { needResched := true; }
    }

    /** Up to the switch of stacks: the process now running is curr. */
    method Sched()
      requires Valid() && CanSched(State())
      modifies this`status, this`curr, this`needResched, this`stamp, this`clock, pq, pq.entries
      ensures Valid() && State() == KS.Sched(old(State()))
    {
      hide KS.Enq, KS.Deq, ProcQueues.Valid, Sleepers.Valid, Keyed;
      needResched := false;
      if status[curr] == KS.Curr {
        status := status[curr := KS.Avail];
        Enqueue(KS.AVAIL_LIST, curr);
      }
      curr := Dequeue(KS.AVAIL_LIST);
      status := status[curr := KS.Curr];
    }

    // ---- sem.c ----

    method SemWait(s: nat)
      requires Valid() && KInv(State()) && s < NSEM && (curr != NULL_PROC || count[s] > 0)
      modifies this, pq, pq.entries
      ensures Valid() && State() == KS.SemWait(old(State()), s) && KInv(State())
    {
      hide ProcQueues.Valid, Sleepers.Valid, Keyed, KInv, KS.Enq, KS.Sched;
      ghost var k := State();
      SemWaitKeeps(k, s);
      count := count[s := count[s] - 1];
      if count[s] < 0 {
        CurrIdle(k);
        status := status[curr := KS.OnSem];
        Enqueue(KS.SemQueue(s), curr);
        Sched();
      }
    }

    /** sem_signal up to its reschedule. */
    method Release(s: nat)
      requires Valid() && Base(State()) && s < NSEM
      modifies this, pq, pq.entries
      ensures Valid() && State() == KS.Release(old(State()), s)
    {
      hide ProcQueues.Valid, Sleepers.Valid, Keyed, Base, HeadReady, KS.Deq, KS.First, KS.MakeAvail;
      ReleaseReady(State(), s);
      count := count[s := count[s] + 1];
      if count[s] <= 0 { WakeHead(KS.SemQueue(s)); }
    }

    /** Dequeues the first process and makes it available. */
    method WakeHead(i: nat)
      requires Valid() && i < NUM_QUEUE && HeadReady(State(), i)
      modifies this, pq, pq.entries
      ensures Valid() && State() == KS.MakeAvail(KS.Deq(old(State()), i), KS.First(old(State()), i))
    {
      hide ProcQueues.Valid, Sleepers.Valid, Keyed, KS.Deq, KS.First, KS.MakeAvail;
      var pid := Dequeue(i);
      MakeAvail(pid);
    }

    method SemSignal(s: nat)
      requires Valid() && KInv(State()) && s < NSEM
      modifies this, pq, pq.entries
      ensures Valid() && State() == KS.SemSignal(old(State()), s) && KInv(State())
    {
      hide ProcQueues.Valid, Sleepers.Valid, Keyed, KInv, KS.Release, KS.Sched;
      SemSignalKeeps(State(), s);
      BaseAt(State());
      ReleaseKeeps(State(), s);
      Ready(KS.Release(State(), s));
      Release(s);
      if needResched { Sched(); }
    }

    method MutexLock(m: nat)
      requires Valid() && KInv(State()) && m < NSEM && (curr != NULL_PROC || count[m] > 0)
      modifies this, pq, pq.entries
      ensures Valid() && State() == KS.SemWait(old(State()), m) && KInv(State())
    {
      SemWait(m);
    }

    method MutexUnlock(m: nat)
      requires Valid() && KInv(State()) && m < NSEM
      modifies this, pq, pq.entries
      ensures Valid() && KInv(State())
      ensures State() == if old(count)[m] < 1 then KS.SemSignal(old(State()), m) else old(State())
    {
      hide KInv, KS.SemSignal;
      if count[m] < 1 { SemSignal(m); }
    }

    // ---- sleep.c ----

    method SleepEnqueue(pid: nat, delay: nat)
      requires Valid() && pid < NUM_PROC && pid !in sl.s && delay < DELAY_LIMIT
      modifies sl
      ensures Valid() && State() == KS.SleepInsert(old(State()), pid, delay)
    {
      hide InsertDue, ProcQueues.Valid, Keyed;
      ghost var k := State();
      sl.Enqueue(pid, delay);
      assert State() == KS.SleepInsert(k, pid, delay);
    }

    method SleepRemove(pid: nat)
      requires Valid() && pid < NUM_PROC
      modifies sl
      ensures Valid() && State() == KS.SleepRemove(old(State()), pid)
    {
      hide Without, ProcQueues.Valid, Keyed;
      ghost var k := State();
      sl.Remove(pid);
      assert State() == KS.SleepRemove(k, pid);
    }

    method Sleep(delay: nat)
      requires Valid() && KInv(State()) && curr != NULL_PROC && delay < DELAY_LIMIT
      modifies this, pq, pq.entries, sl
      ensures Valid() && State() == KS.Sleep(old(State()), delay) && KInv(State())
    {
      hide ProcQueues.Valid, Sleepers.Valid, Keyed, KInv, KS.Sched, InsertDue;
      SleepKeeps(State(), delay);
      CurrIdle(State());
      status := status[curr := KS.Timed];
      SleepEnqueue(curr, delay);
      Sched();
    }

    /** One turn of sleep_clock's loop, if any is left to take. */
    method WakeExpired() returns (more: bool)
      requires Valid() && PrioOk(State())
      modifies this, pq, pq.entries, sl
      ensures Valid() && more == KS.Expired(old(State()))
      ensures State() == if more then KS.WakeExpired(old(State())) else old(State())
    {
      hide ProcQueues.Valid, Keyed, KS.MakeAvail, KS.Unqueue;
      var pid := sl.PopExpired();
      more := pid != NULL;
      if more {
        Unqueue(pid);
        timedOut := timedOut[pid := true];
        MakeAvail(pid);
      }
    }

    method SleepClock()
      requires Valid() && KInv(State())
      modifies this, pq, pq.entries, sl
      ensures Valid() && State() == KS.SleepClock(old(State())) && KInv(State())
    {
      hide ProcQueues.Valid, Sleepers.Valid, Keyed, KInv, PrioOk, Punctual, KS.Expire;
      Tables(State());
      StartTick();
      ExpireAll();
    }

    /** sleep_clock's loop. */
    method ExpireAll()
      requires Valid() && PrioOk(State())
      modifies this, pq, pq.entries, sl
      ensures Valid() && State() == KS.Expire(old(State()))
    {
      hide ProcQueues.Valid, Sleepers.Valid, Keyed, PrioOk, KS.Expired, KS.Expire, KS.WakeExpired, KS.Shape;
      ghost var k := State();
      ExpireTurn(k);
      var more := true;
      while more
        invariant Valid() && PrioOk(State()) && KS.Expire(State()) == KS.Expire(k)
        invariant !more ==> KS.Expire(State()) == State()
        decreases |sl.s|, more
      {
        ExpireTurn(State());
        more := WakeExpired();
      }
    }

    method StartTick()
      requires Valid() && Punctual(State())
      modifies sl
      ensures Valid() && State() == old(State()).(now := old(sl.now) + 1)
    {
      hide ProcQueues.Valid, Keyed;
      sl.Advance();
    }
  
    // ---- cond.c ----

    method Wake(pid: nat)
      requires Valid() && pid < NUM_PROC && pq.at[pid] == NULL && MIN_KEY < prio[pid] <= MAX_KEY
      modifies this, pq, pq.entries, sl
      ensures Valid() && State() == KS.Wake(old(State()), pid)
    {
      hide ProcQueues.Valid, Sleepers.Valid, Keyed, KS.MakeAvail, Without;
      if status[pid] == KS.Timed { SleepRemove(pid); }
      MakeAvail(pid);
    }

    method WakeAll(c: nat)
      requires Valid() && PrioOk(State()) && c < NCOND
      modifies this, pq, pq.entries, sl
      ensures Valid() && State() == KS.WakeAll(old(State()), c)
    {
      hide ProcQueues.Valid, Sleepers.Valid, Keyed, KS.Wake, KS.WakeAll, KS.First, KS.Deq;
      ghost var k := State();
      WakeTurn(k, c);
      var pid: nat := Dequeue(KS.CondQueue(c));
      while pid != NULL_PROC
        invariant Valid() && PrioOk(State()) && pid < NUM_PROC
        invariant pid != NULL_PROC ==> pq.at[pid] == NULL
        invariant KS.WakeAll(k, c) == if pid == NULL_PROC then State() else KS.WakeAll(KS.Wake(State(), pid), c)
        decreases |pq.qs[KS.CondQueue(c)]|, pid != NULL_PROC
      {
        WakeFrame(State(), c, pid);
        Wake(pid);
        WakeTurn(State(), c);
        pid := Dequeue(KS.CondQueue(c));
      }
    }

    /** wait() up to its unlock, for a caller that found no flag. */
    method Park(c: nat, timed: bool, delay: nat)
      requires Valid() && KInv(State()) && curr != NULL_PROC && c < NCOND && delay < DELAY_LIMIT
      modifies this, pq, pq.entries, sl
      ensures Valid() && State() == KS.Park(old(State()), c, timed, delay)
    {
      hide ProcQueues.Valid, Sleepers.Valid, Keyed, KInv, KS.Enq, InsertDue;
      CurrIdle(State());
      timedOut := timedOut[curr := false];
      status := status[curr := if timed then KS.Timed else KS.OnCond];
      if timed { SleepEnqueue(curr, delay); }
      Enqueue(KS.CondQueue(c), curr);
    }

    /** wait() up to the switch of stacks; what follows it is mutex_lock. The unlock may
        reschedule; if it does not, the caller, no longer running, does so itself. */
    method Wait(c: nat, m: Option<nat>, timed: bool, delay: nat)
      requires Valid() && KInv(State()) && curr != NULL_PROC && c < NCOND && (m.Some? ==> m.value < NSEM)
          && delay < DELAY_LIMIT
      modifies this, pq, pq.entries, sl
      ensures Valid() && State() == KS.Wait(old(State()), c, m, timed, delay) && KInv(State())
    {
      hide ProcQueues.Valid, Sleepers.Valid, Keyed, KInv, Base, CanSched, KS.Park, KS.Release, KS.Sched;
      WaitReady(State(), c, m, timed, delay);
      if pending[c] {
        pending := pending[c := false];
        return;
      }
      Park(c, timed, delay);
      if m.Some? && count[m.value] < 1 {
        Release(m.value);
        if needResched {
          Sched();
          return;
        }
      }
      Sched();
    }

    method CondSignal(c: nat)
      requires Valid() && KInv(State()) && c < NCOND
      modifies this, pq, pq.entries, sl
      ensures Valid() && State() == KS.CondSignal(old(State()), c) && KInv(State())
    {
      hide ProcQueues.Valid, Sleepers.Valid, Keyed, KInv, CanSched, KS.Wake, KS.Sched, KS.First, KS.Deq;
      SignalReady(State(), c);
      var pid := Dequeue(KS.CondQueue(c));
      if pid != NULL_PROC { Wake(pid); }
      if needResched { Sched(); }
    }

    method CondBroadcast(c: nat)
      requires Valid() && KInv(State()) && c < NCOND
      modifies this, pq, pq.entries, sl
      ensures Valid() && State() == KS.CondBroadcast(old(State()), c) && KInv(State())
    {
      hide ProcQueues.Valid, Sleepers.Valid, Keyed, KInv, CanSched, PrioOk, KS.WakeAll, KS.Sched;
      BroadcastReady(State(), c);
      WakeAll(c);
      if needResched { Sched(); }
    }

    method CondSignalIsr(c: nat)
      requires Valid() && KInv(State()) && c < NCOND
      modifies this, pq, pq.entries, sl
      ensures Valid() && State() == KS.CondSignalIsr(old(State()), c) && KInv(State())
    {
      hide ProcQueues.Valid, Sleepers.Valid, Keyed, KInv, PrioOk, KS.WakeAll;
      IsrReady(State(), c);
      pending := pending[c := true];
      WakeAll(c);
    }

    method CondSignalNmi(c: nat)
      requires Valid() && KInv(State()) && c < NCOND
      modifies this`pending, this`nmiPending
      ensures Valid() && State() == KS.CondSignalNmi(old(State()), c) && KInv(State())
    {
      hide ProcQueues.Valid, Sleepers.Valid, Keyed, KInv;
      CondSignalNmiKeeps(State(), c);
      pending := pending[c := true];
      nmiPending := true;
    }

    method Deliver(c: nat)
      requires Valid() && PrioOk(State()) && c < NCOND
      modifies this, pq, pq.entries, sl
      ensures Valid() && State() == KS.Deliver(old(State()), c)
    {
      hide ProcQueues.Valid, Sleepers.Valid, Keyed, PrioOk, KS.WakeAll;
      if pending[c] {
        var empty := IsEmpty(KS.CondQueue(c));
        if !empty {
          WakeAll(c);
          pending := pending[c := false];
        }
      }
    }

    method IsEmpty(i: nat) returns (empty: bool)
      requires Valid() && i < NUM_QUEUE
      ensures empty <==> State().q[i] == []
    {
      empty := pq.Empty(i);
    }

    method CondClock()
      requires Valid() && PrioOk(State())
      modifies this, pq, pq.entries, sl
      ensures Valid() && State() == KS.CondClock(old(State()))
    {
      hide ProcQueues.Valid, Sleepers.Valid, Keyed, KS.Deliver, KS.DeliverFrom, PrioOk;
      if !nmiPending { return; }
      nmiPending := false;
      ghost var k := State();
      PrioFrame(old(State()), k);
      var c := 0;
      while c < NCOND
        invariant 0 <= c <= NCOND && Valid() && PrioOk(State()) && KS.DeliverFrom(State(), c) == KS.DeliverFrom(k, 0)
      {
        DeliverTurn(State(), c);
        Deliver(c);
        c := c + 1;
      }
      DeliverDone(State());
    }

    /** handle_cpu_timer_intr. */
    method Tick()
      requires Valid() && KInv(State())
      modifies this, pq, pq.entries, sl
      ensures Valid() && State() == KS.Tick(old(State())) && KInv(State())
    {
      hide ProcQueues.Valid, Sleepers.Valid, Keyed, KInv, PrioOk, CanSched, KS.SleepClock, KS.CondClock, KS.Sched;
      TickReady(State());
      SleepClock();
      CondClock();
      Sched();
    }

    // ---- get_pid.c, create.c, start_proc.c ----

    method GetPid() returns (pid: Option<nat>)
      requires Valid()
      modifies this`status
      ensures Valid() && pid == KS.FreePid(old(State()), 1)
      ensures State() == if pid.Some? then KS.SetStatus(old(State()), pid.value, KS.Unavail) else old(State())
    {
      hide ProcQueues.Valid, Sleepers.Valid, Keyed;
      var i := 1;
      while i < NUM_PROC
        invariant 1 <= i <= NUM_PROC && Valid() && State() == old(State())
            && KS.FreePid(State(), 1) == KS.FreePid(State(), i)
      {
        if status[i] == KS.Unused {
          status := status[i := KS.Unavail];
          return Some(i);
        }
        i := i + 1;
      }
      pid := None;
    }

    /** `stack` tells whether alloc_stack found room. */
    method Create(priority: int, stack: bool) returns (pid: Option<nat>)
      requires Valid() && KInv(State()) && MIN_KEY < priority <= MAX_KEY
      modifies this`status, this`prio
      ensures Valid() && State() == KS.Create(old(State()), priority, stack) && KInv(State())
      ensures pid == if stack then KS.FreePid(old(State()), 1) else None
    {
      hide ProcQueues.Valid, Sleepers.Valid, KInv, KS.FreePid;
      CreateReady(State(), priority, stack);
      pid := GetPid();
      if pid.None? { return; }
      if !stack {
        status := status[pid.value := KS.Unused];
        return None;
      }
      status := status[pid.value := KS.Avail];
      prio := prio[pid.value := priority];
    }

    method Exit()
      requires Valid() && KInv(State()) && curr != NULL_PROC
      modifies this, pq, pq.entries
      ensures Valid() && State() == KS.Exit(old(State())) && KInv(State())
    {
      hide ProcQueues.Valid, Sleepers.Valid, Keyed, KInv, KS.Sched;
      ExitKeeps(State());
      CurrIdle(State());
      status := status[curr := KS.Unused];
      Sched();
    }
  }

  ghost predicate Keyed(at: seq<int>, keys: seq<int>, prio: seq<int>)
  {
    |at| == |keys| == |prio| == NUM_PROC && forall p :: 0 <= p < NUM_PROC && at[p] != NULL ==> keys[p] == prio[p]
  }

  lemma MembersOf(pq: ProcQueues, i: nat)
    requires pq.Valid() && i < |pq.qs|
    ensures forall a :: 0 <= a < |pq.qs[i]| ==> 0 <= pq.qs[i][a] < NUM_PROC && pq.at[pq.qs[i][a]] == i
  {
  }

  /** The tables as start() has set them up before make_avail(NULL_PROC). */
  lemma BootState(counts: seq<int>, k: KS.Kernel)
    requires |counts| == NSEM
    requires k.status == seq(NUM_PROC, p => if p == 0 then KS.Curr else KS.Unused)
    requires k.prio == seq(NUM_PROC, _ => 0) && k.timedOut == seq(NUM_PROC, _ => false)
    requires k.curr == NULL_PROC && !k.needResched && k.count == counts && k.pending == seq(NCOND, _ => false)
        && !k.nmiPending
    requires k.q == seq(NUM_QUEUE, _ => []) && k.at == seq(NUM_PROC, _ => NULL)
    requires k.stamp == seq(NUM_PROC, _ => 0) && k.clock == 0
    requires k.sleepers == [] && k.due == seq(NUM_PROC, _ => 0) && k.now == 0
    ensures KS.Shape(k) && KS.MakeAvail(k, NULL_PROC) == KS.Boot(counts)
  {
    var r, b := KS.MakeAvail(k, NULL_PROC), KS.Boot(counts);
    assert r.q[0] == [NULL_PROC];
    assert forall i :: 0 <= i < NUM_QUEUE ==> r.q[i] == b.q[i];
    assert r.q == b.q && r.status == b.status && r.at == b.at && r.stamp == b.stamp;
  }

  /** The running process is nowhere else and has a rank. */
  lemma CurrIdle(k: KS.Kernel)
    requires KInv(k) && k.curr != NULL_PROC
    ensures k.at[k.curr] == NULL && k.curr !in k.sleepers && MIN_KEY < k.prio[k.curr] <= MAX_KEY
  {
    CurrInHand(k);
  }

  /** What a reschedule needs of its caller. */
  predicate CanSched(k: KS.Kernel)
    requires KS.Shape(k)
  {
    MIN_KEY < k.prio[k.curr] <= MAX_KEY && (k.status[k.curr] == KS.Curr ==> k.at[k.curr] == NULL)
  }

  lemma Ready(k: KS.Kernel)
    requires Struct(k, NULL)
    ensures CanSched(k)
  {
    PlacedAt(k, NULL, k.curr);
  }

  lemma BaseAt(k: KS.Kernel)
    requires KInv(k)
    ensures Base(k)
  {
  }

  /** With a negative count there is a waiter to hand the token to. */
  lemma ReleaseReady(k: KS.Kernel, s: nat)
    requires Base(k) && s < NSEM
    ensures k.count[s] < 0 ==> HeadReady(k.(count := k.count[s := k.count[s] + 1]), KS.SemQueue(s))
  {
    hide Queued, Asleep, PlacedBut;
    if k.count[s] < 0 {
      assert |k.q[KS.SemQueue(s)]| == -k.count[s];
      HeadAt(k, KS.SemQueue(s));
    }
  }

  /** The first process on queue i leaves it with a rank and on no queue. */
  ghost predicate HeadReady(k: KS.Kernel, i: nat)
    requires KS.Shape(k) && i < NUM_QUEUE
  {
    var p, r := KS.First(k, i), KS.Deq(k, i);
    r.at[p] == NULL && MIN_KEY < r.prio[p] <= MAX_KEY
  }

  /** One turn of sleep_clock's loop shortens the list and leaves ranks alone. */
  lemma ExpireTurn(k: KS.Kernel)
    requires KS.Shape(k) && PrioOk(k)
    ensures !KS.Expired(k) ==> KS.Expire(k) == k
    ensures KS.Expired(k) ==> KS.Expire(k) == KS.Expire(KS.WakeExpired(k)) && PrioOk(KS.WakeExpired(k))
    ensures KS.Expired(k) ==> |KS.WakeExpired(k).sleepers| < |k.sleepers|
  {
    hide Insert, Without;
  }

  lemma Tables(k: KS.Kernel)
    requires KInv(k)
    ensures PrioOk(k) && PrioOk(k.(now := k.now + 1)) && Punctual(k) && KInv(KS.SleepClock(k))
  {
    SleepClockKeeps(k);
  }

  lemma PrioFrame(k: KS.Kernel, r: KS.Kernel)
    requires KS.Shape(k) && KS.Shape(r) && PrioOk(k) && r.prio == k.prio
    ensures PrioOk(r)
  {
  }

  /** One turn of wake_all's loop. */
  lemma WakeTurn(k: KS.Kernel, c: nat)
    requires KS.Shape(k) && PrioOk(k) && c < NCOND
    ensures var p, r := KS.First(k, KS.CondQueue(c)), KS.Deq(k, KS.CondQueue(c));
            && KS.WakeAll(k, c) == (if p == NULL_PROC then r else KS.WakeAll(KS.Wake(r, p), c))
            && PrioOk(r) && (p != NULL_PROC ==> r.at[p] == NULL && |r.q[KS.CondQueue(c)]| < |k.q[KS.CondQueue(c)]|)
            && |r.q[KS.CondQueue(c)]| <= |k.q[KS.CondQueue(c)]|
  {
    hide KS.Wake;
  }

  lemma WakeFrame(k: KS.Kernel, c: nat, p: nat)
    requires KS.Shape(k) && PrioOk(k) && c < NCOND && p < NUM_PROC
    ensures PrioOk(KS.Wake(k, p)) && KS.Wake(k, p).q[KS.CondQueue(c)] == k.q[KS.CondQueue(c)]
  {
    hide Insert, Without;
  }

  lemma WaitReady(k: KS.Kernel, c: nat, m: Option<nat>, timed: bool, delay: nat)
    requires KInv(k) && k.curr != NULL_PROC && c < NCOND && (m.Some? ==> m.value < NSEM) && delay < DELAY_LIMIT
    ensures KInv(KS.Wait(k, c, m, timed, delay))
    ensures !k.pending[c] ==> Base(KS.Park(k, c, timed, delay)) && CanSched(KS.Unlock(KS.Park(k, c, timed, delay), m))
  {
    WaitKeeps(k, c, m, timed, delay);
    if !k.pending[c] {
      ParkKeeps(k, c, timed, delay);
      hide Queued, Asleep, PrioOk, PlacedBut, KS.Park, KS.Unlock;
      UnlockKeeps(KS.Park(k, c, timed, delay), m);
      Ready(KS.Unlock(KS.Park(k, c, timed, delay), m));
    }
  }

  lemma SignalReady(k: KS.Kernel, c: nat)
    requires KInv(k) && c < NCOND
    ensures var p, r := KS.First(k, KS.CondQueue(c)), KS.Deq(k, KS.CondQueue(c));
            && KInv(KS.CondSignal(k, c)) && (p != NULL_PROC ==> r.at[p] == NULL && MIN_KEY < r.prio[p] <= MAX_KEY)
            && CanSched(if p != NULL_PROC then KS.Wake(r, p) else r)
  {
    hide Queued, Asleep, PlacedBut, SemOk, Flagged, Alert, Punctual, KS.Wake, Woke;
    CondSignalKeeps(k, c);
    if k.q[KS.CondQueue(c)] != [] {
      HeadAt(k, KS.CondQueue(c));
      WakeFromCond(k, c);
      Ready(KS.Wake(KS.Deq(k, KS.CondQueue(c)), KS.First(k, KS.CondQueue(c))));
    } else {
      Ready(k);
    }
  }

  lemma BroadcastReady(k: KS.Kernel, c: nat)
    requires KInv(k) && c < NCOND
    ensures PrioOk(k) && CanSched(KS.WakeAll(k, c)) && KInv(KS.CondBroadcast(k, c))
  {
    CondBroadcastKeeps(k, c);
    WakeAllKeeps(k, c);
    hide Queued, Asleep, PlacedBut, KS.WakeAll;
    Ready(KS.WakeAll(k, c));
  }

  lemma IsrReady(k: KS.Kernel, c: nat)
    requires KInv(k) && c < NCOND
    ensures PrioOk(k.(pending := k.pending[c := true])) && KInv(KS.CondSignalIsr(k, c))
  {
    CondSignalIsrKeeps(k, c);
  }

  lemma DeliverTurn(k: KS.Kernel, c: nat)
    requires KS.Shape(k) && PrioOk(k) && c < NCOND
    ensures KS.DeliverFrom(k, c) == KS.DeliverFrom(KS.Deliver(k, c), c + 1) && PrioOk(KS.Deliver(k, c))
  {
    WakeAllPrio(k, c);
  }

  lemma {:induction false} WakeAllPrio(k: KS.Kernel, c: nat)
    requires KS.Shape(k) && c < NCOND
    ensures KS.WakeAll(k, c).prio == k.prio
    decreases |k.q[KS.CondQueue(c)]|
  {
    hide Insert, Without;
    if k.q[KS.CondQueue(c)] != [] && KS.First(k, KS.CondQueue(c)) != NULL_PROC {
      WakeAllPrio(KS.Wake(KS.Deq(k, KS.CondQueue(c)), KS.First(k, KS.CondQueue(c))), c);
    }
  }

  lemma DeliverDone(k: KS.Kernel)
    requires KS.Shape(k)
    ensures KS.DeliverFrom(k, NCOND) == k
  {
  }

  lemma TickReady(k: KS.Kernel)
    requires KInv(k)
    ensures KInv(KS.Tick(k)) && PrioOk(KS.SleepClock(k)) && CanSched(KS.CondClock(KS.SleepClock(k)))
  {
    TickKeeps(k);
    SleepClockKeeps(k);
    CondClockKeeps(KS.SleepClock(k));
    hide Queued, Asleep, PlacedBut, KS.SleepClock, KS.CondClock;
    Ready(KS.CondClock(KS.SleepClock(k)));
  }

  lemma CreateReady(k: KS.Kernel, priority: int, stack: bool)
    requires KInv(k) && MIN_KEY < priority <= MAX_KEY
    ensures KInv(KS.Create(k, priority, stack))
    ensures KS.FreePid(k, 1).Some? ==> k.at[KS.FreePid(k, 1).value] == NULL
  {
    CreateKeeps(k, priority, stack);
    if KS.FreePid(k, 1).Some? { PlacedAt(k, NULL, KS.FreePid(k, 1).value); }
  }
}
