/** Processes making kernel calls, interleaved with ticks, interrupts and the NMI in any
    order. Each masked section is one event; the unmasked gaps (inside mutex_unlock, between
    the two halves of wait, inside spawn) are where other events can come in between. */
module KernelRuns {
  import opened Config
  import opened ProcQueue
  import opened KernelState
  import opened KernelInv
  import opened KernelSteps

  /** Where a process stands inside a call that is not one masked section.
      Releasing: mutex_unlock saw a count below 1 and has yet to call sem_signal.
      Acquiring: mutex_lock called sem_wait and has not returned from it.
      Resuming: wait() has switched away and has yet to read its verdict.
      Relocking: it has read its verdict and has yet to call mutex_lock. */
  datatype Pc = User | Releasing(m: nat) | Acquiring(m: nat) | Resuming(mutex: Option<nat>) | Relocking(m: nat)

  /** `has[p]` is p's own view: the mutexes it locked and has not begun to unlock. `rc[p]` is
      what p's last wait() returns, once it has read it. `holder`, `signals` and `calls` only
      observe. */
  datatype Sys = Sys(
    k: Kernel, mutex: seq<bool>, pc: seq<Pc>, has: seq<set<nat>>,
    holder: seq<Option<nat>>, born: set<nat>,
    initial: seq<int>, signals: seq<nat>, calls: seq<nat>, rc: seq<Option<int>>)

  datatype Event =
    | SemWaitCall(s: nat)
    | SemSignalCall(s: nat)
    | LockCall(m: nat)
    | LockReturn(m: nat)
    | UnlockTest(m: nat)
    | UnlockSignal(m: nat)
    | WaitCall(c: nat, mutex: Option<nat>, timed: bool, delay: nat)
    | WaitReturn
    | SignalCall(c: nat)
    | BroadcastCall(c: nat)
    | SleepCall(delay: nat)
    | YieldCall
    | CreateCall(priority: int, stack: bool)
    | MakeAvailCall(p: nat)
    | ExitCall
    | TickIntr
    | IsrSignal(c: nat)
    | NmiSignal(c: nat)

  predicate SysShape(s: Sys) {
    && Shape(s.k) && |s.mutex| == NSEM && |s.pc| == NUM_PROC && |s.has| == NUM_PROC
    && |s.holder| == NSEM && |s.initial| == NSEM && |s.signals| == NSEM && |s.calls| == NSEM
    && |s.rc| == NUM_PROC
  }

  /** What the source asks of its callers: the null process never blocks, mutexes are used
      through lock and unlock only, unlocked only by their holder (unlocking a free mutex
      does nothing), released by wait only when held, and delays stay below 2^31 ticks. */
  predicate Legal(s: Sys, e: Event)
    requires SysShape(s)
  {
    var p := s.k.curr;
    var idle := s.pc[p] == User;
    match e
    case SemWaitCall(i) => idle && i < NSEM && !s.mutex[i] && (p != NULL_PROC || s.k.count[i] > 0)
    case SemSignalCall(i) => idle && i < NSEM && !s.mutex[i]
    case LockCall(m) => (idle || s.pc[p] == Relocking(m)) && m < NSEM && s.mutex[m]
        && (p != NULL_PROC || s.k.count[m] > 0)
    case LockReturn(m) => m < NSEM && s.pc[p] == Acquiring(m)
    case UnlockTest(m) => idle && m < NSEM && s.mutex[m] && (m in s.has[p] || s.k.count[m] >= 1)
    case UnlockSignal(m) => m < NSEM && s.pc[p] == Releasing(m)
    case WaitCall(c, m, timed, delay) =>
      idle && p != NULL_PROC && c < NCOND && delay < TWO31 && (m.Some? ==> m.value < NSEM && m.value in s.has[p])
    case WaitReturn => s.pc[p].Resuming?
    case SignalCall(c) => idle && c < NCOND
    case BroadcastCall(c) => idle && c < NCOND
    case SleepCall(delay) => idle && p != NULL_PROC && delay < TWO31
    case YieldCall => idle
    case CreateCall(priority, _) => idle && MIN_KEY < priority <= MAX_KEY
    case MakeAvailCall(x) => x < NUM_PROC && x in s.born
    case ExitCall => idle && p != NULL_PROC && s.has[p] == {}
    case TickIntr => true
    case IsrSignal(c) => c < NCOND
    case NmiSignal(c) => c < NCOND
  }

  /** Bookkeeping of one sem_signal on m: the token goes to the first waiter, if any. */
  function Handed(s: Sys, m: nat): (r: Sys)
    requires SysShape(s) && m < NSEM
    ensures SysShape(r)
  {
    s.(signals := s.signals[m := s.signals[m] + 1],
       holder := s.holder[m := if s.k.count[m] < 0
           && s.k.q[SemQueue(m)] != [] then Some(s.k.q[SemQueue(m)][0]) else None])
  }

  function Next(s: Sys, e: Event): (r: Sys)
    requires SysShape(s) && Legal(s, e)
    ensures SysShape(r)
  {
    var p := s.k.curr;
    match e
    case SemWaitCall(i) => s.(k := SemWait(s.k, i), calls := s.calls[i := s.calls[i] + 1])
    case SemSignalCall(i) => Handed(s, i).(k := SemSignal(s.k, i))
    case LockCall(m) =>
      s.(k := SemWait(s.k, m), calls := s.calls[m := s.calls[m] + 1], pc := s.pc[p := Acquiring(m)],
         holder := if s.k.count[m] > 0 then s.holder[m := Some(p)] else s.holder)
    case LockReturn(m) => s.(pc := s.pc[p := User], has := s.has[p := s.has[p] + {m}])
    case UnlockTest(m) =>
      if s.k.count[m] < 1 then s.(pc := s.pc[p := Releasing(m)], has := s.has[p := s.has[p] - {m}]) else s
    case UnlockSignal(m) => Handed(s, m).(k := SemSignal(s.k, m), pc := s.pc[p := User])
    case WaitCall(c, m, timed, delay) =>
      var k := Wait(s.k, c, m, timed, delay);
      if s.k.pending[c] then s.(k := k, rc := s.rc[p := Some(0)])
      else if m.None? then s.(k := k, pc := s.pc[p := Resuming(m)], rc := s.rc[p := None])
      else
        Handed(s, m.value).(k := k, pc := s.pc[p := Resuming(m)], has := s.has[p := s.has[p] - {m.value}],
                            rc := s.rc[p := None])
    case WaitReturn =>
      s.(rc := s.rc[p := Some(if s.k.timedOut[p] then -1 else 0)],
         pc := s.pc[p := if s.pc[p].mutex.Some? then Relocking(s.pc[p].mutex.value) else User])
    case SignalCall(c) => s.(k := CondSignal(s.k, c))
    case BroadcastCall(c) => s.(k := CondBroadcast(s.k, c))
    case SleepCall(delay) => s.(k := Sleep(s.k, delay))
    case YieldCall => s.(k := Sched(s.k))
    case CreateCall(priority, stack) =>
      var pid := FreePid(s.k, 1);
      var k := Create(s.k, priority, stack);
      if pid.Some? && stack then
        s.(k := k, born := s.born + {pid.value}, pc := s.pc[pid.value := User], has := s.has[pid.value := {}])
      else s.(k := k)
    case MakeAvailCall(x) => s.(k := MakeAvail(s.k, x), born := s.born - {x})
    case ExitCall => s.(k := Exit(s.k))
    case TickIntr => s.(k := Tick(s.k))
    case IsrSignal(c) => s.(k := CondSignalIsr(s.k, c))
    case NmiSignal(c) => s.(k := CondSignalNmi(s.k, c))
  }

  // ---- the invariant of the whole system ----

  /** A mutex is free exactly when its count is 1, and then nobody owns it. */
  ghost predicate MutexOk(s: Sys, m: nat)
    requires SysShape(s) && m < NSEM
  {
    s.mutex[m] ==> s.k.count[m] <= 1 && (s.holder[m] == None <==> s.k.count[m] == 1)
  }

  /** What a process owns, it is the one holder of. */
  ghost predicate HasOk(s: Sys, p: nat)
    requires SysShape(s) && p < NUM_PROC
  {
    forall m :: m in s.has[p] ==> m < NSEM && s.mutex[m] && s.holder[m] == Some(p)
  }

  ghost predicate PcOk(s: Sys, p: nat)
    requires SysShape(s) && p < NUM_PROC
  {
    match s.pc[p]
    case User => true
    case Releasing(m) => m < NSEM && s.mutex[m] && s.holder[m] == Some(p) && m !in s.has[p]
    case Acquiring(m) => m < NSEM && s.mutex[m] && (p in s.k.q[SemQueue(m)] || s.holder[m] == Some(p))
    case Resuming(m) => m.Some? ==> m.value < NSEM && s.mutex[m.value]
    case Relocking(m) => m < NSEM && s.mutex[m]
  }

  /** Whoever queues on a mutex is inside mutex_lock. */
  ghost predicate QueueOk(s: Sys, m: nat)
    requires SysShape(s) && m < NSEM
  {
    s.mutex[m] ==> forall p :: p in s.k.q[SemQueue(m)] ==> p < NUM_PROC && s.pc[p] == Acquiring(m)
  }

  predicate CountOk(s: Sys, i: nat)
    requires SysShape(s) && i < NSEM
  {
    s.k.count[i] == s.initial[i] + s.signals[i] - s.calls[i]
  }

  ghost predicate BornOk(s: Sys)
    requires SysShape(s)
  {
    && (forall p :: 0 <= p < NUM_PROC ==> (p in s.born <==> Unspawned(s.k, p)))
    && (forall p :: p in s.born ==> p < NUM_PROC)
  }

  ghost predicate Books(s: Sys)
    requires SysShape(s)
  {
    && (forall m :: 0 <= m < NSEM ==> MutexOk(s, m) && QueueOk(s, m) && CountOk(s, m))
    && (forall p :: 0 <= p < NUM_PROC ==> HasOk(s, p) && PcOk(s, p))
  }

  ghost predicate SysInv(s: Sys) {
    SysShape(s) && KInv(s.k) && Books(s) && BornOk(s)
  }

  // ---- each event keeps the books ----

  lemma CurrNotQueued(k: Kernel, m: nat)
    requires KInv(k) && m < NSEM
    ensures k.curr !in k.q[SemQueue(m)]
  {
    hide Asleep, PrioOk, PlacedBut;
    PlacedAt(k, NULL, k.curr);
    QueuedAt(k, SemQueue(m));
  }

  /** Anything that leaves semaphores and births alone leaves the books alone. */
  lemma BooksQuiet(s: Sys, r: Sys)
    requires SysShape(s) && SysShape(r) && Books(s) && BornOk(s)
    requires r == s.(k := r.k, rc := r.rc) && Quiet(s.k, r.k)
    ensures Books(r) && BornOk(r)
  {
    forall m | 0 <= m < NSEM ensures MutexOk(r, m) && QueueOk(r, m) && CountOk(r, m) {
      assert MutexOk(s, m) && QueueOk(s, m) && CountOk(s, m);
    }
    forall p | 0 <= p < NUM_PROC ensures HasOk(r, p) && PcOk(r, p) {
      assert HasOk(s, p) && PcOk(s, p);
    }
    forall p | 0 <= p < NUM_PROC ensures p in r.born <==> Unspawned(r.k, p) {
      assert Unspawned(r.k, p) == Unspawned(s.k, p);
    }
  }

  /** A process on no mutex queue gets further inside wait(). */
  lemma BooksPc(s: Sys, r: Sys, p: nat)
    requires SysShape(s) && SysShape(r) && Books(s) && BornOk(s) && p < NUM_PROC
    requires r == s.(pc := s.pc[p := r.pc[p]], rc := r.rc) && PcOk(r, p)
    requires forall m :: 0 <= m < NSEM ==> p !in s.k.q[SemQueue(m)]
    ensures Books(r) && BornOk(r)
  {
    forall m | 0 <= m < NSEM ensures MutexOk(r, m) && QueueOk(r, m) && CountOk(r, m) {
      assert MutexOk(s, m) && QueueOk(s, m) && CountOk(s, m);
    }
    forall x | 0 <= x < NUM_PROC ensures HasOk(r, x) && PcOk(r, x) {
      assert HasOk(s, x) && PcOk(s, x);
    }
    hide Books;
    forall x | 0 <= x < NUM_PROC ensures x in r.born <==> Unspawned(r.k, x) {
      assert Unspawned(r.k, x) == Unspawned(s.k, x);
    }
  }

  lemma BornStep(s: Sys, r: Sys, i: nat, count: int)
    requires SysShape(s) && SysShape(r) && BornOk(s) && i < NSEM && SemStep(s.k, r.k, i, count) && r.born == s.born
    ensures BornOk(r)
  {
    forall p | 0 <= p < NUM_PROC ensures p in r.born <==> Unspawned(r.k, p) {
      assert Unspawned(r.k, p) == Unspawned(s.k, p);
    }
  }

  /** A semaphore that is not a mutex: only its count is booked. */
  lemma BooksPlain(s: Sys, r: Sys, i: nat, count: int)
    requires SysShape(s) && SysShape(r) && Books(s) && i < NSEM && !s.mutex[i]
    requires SemStep(s.k, r.k, i, count)
    requires r.mutex == s.mutex && r.pc == s.pc && r.has == s.has && r.initial == s.initial
    requires forall j :: 0 <= j < NSEM && j != i ==>
               r.holder[j] == s.holder[j] && r.signals[j] == s.signals[j] && r.calls[j] == s.calls[j]
    requires count == r.initial[i] + r.signals[i] - r.calls[i]
    ensures Books(r)
  {
    forall m | 0 <= m < NSEM ensures MutexOk(r, m) && QueueOk(r, m) && CountOk(r, m) {
      assert MutexOk(s, m) && QueueOk(s, m) && CountOk(s, m);
    }
    forall p | 0 <= p < NUM_PROC ensures HasOk(r, p) && PcOk(r, p) {
      assert HasOk(s, p) && PcOk(s, p);
    }
  }

  lemma BooksLock(s: Sys, m: nat)
    requires SysInv(s) && Legal(s, LockCall(m))
    ensures KInv(Next(s, LockCall(m)).k) && Books(Next(s, LockCall(m))) && BornOk(Next(s, LockCall(m)))
  {
    hide KInv, SemWait;
    var p, r := s.k.curr, Next(s, LockCall(m));
    SemWaitKeeps(s.k, m);
    BornStep(s, r, m, s.k.count[m] - 1);
    forall j | 0 <= j < NSEM ensures MutexOk(r, j) && CountOk(r, j) && QueueOk(r, j) {
      assert MutexOk(s, j) && QueueOk(s, j) && CountOk(s, j);
      if j != m { CurrNotQueued(s.k, j); }
    }
    forall x | 0 <= x < NUM_PROC ensures HasOk(r, x) && PcOk(r, x) {
      assert HasOk(s, x) && PcOk(s, x) && MutexOk(s, m);
    }
  }

  /** The holder of mutex m signals it and gives it up. */
  ghost predicate HandsOver(s: Sys, r: Sys, m: nat)
    requires SysShape(s) && SysShape(r)
  {
    && m < NSEM && s.mutex[m] && s.holder[m] == Some(s.k.curr)
    && r == Handed(s, m).(k := r.k, pc := r.pc, has := r.has, rc := r.rc)
    && r.pc == s.pc[s.k.curr := r.pc[s.k.curr]] && (r.pc[s.k.curr] == User || r.pc[s.k.curr] == Resuming(Some(m)))
    && r.has == s.has[s.k.curr := s.has[s.k.curr] - {m}]
    && SemStep(s.k, r.k, m, s.k.count[m] + 1)
    && (s.k.count[m] < 0 ==> s.k.q[SemQueue(m)] != [])
    && r.k.q[SemQueue(m)] == (if s.k.count[m] < 0 then s.k.q[SemQueue(m)][1..] else s.k.q[SemQueue(m)])
  }

  lemma BooksHanded(s: Sys, r: Sys, m: nat)
    requires SysShape(s) && SysShape(r) && Books(s) && KInv(s.k) && HandsOver(s, r, m)
    ensures Books(r)
  {
    forall j | 0 <= j < NSEM ensures MutexOk(r, j) && CountOk(r, j) && QueueOk(r, j) {
      CurrNotQueued(s.k, j);
      hide KInv;
      MutexHanded(s, r, m, j);
    }
    hide KInv;
    forall x | 0 <= x < NUM_PROC ensures HasOk(r, x) && PcOk(r, x) {
      ProcHanded(s, r, m, x);
    }
  }

  lemma MutexHanded(s: Sys, r: Sys, m: nat, j: nat)
    requires SysShape(s) && SysShape(r) && Books(s) && HandsOver(s, r, m) && j < NSEM
    requires s.k.curr !in s.k.q[SemQueue(j)]
    ensures MutexOk(r, j) && CountOk(r, j) && QueueOk(r, j)
  {
    assert MutexOk(s, j) && QueueOk(s, j) && CountOk(s, j);
  }

  lemma ProcHanded(s: Sys, r: Sys, m: nat, x: nat)
    requires SysShape(s) && SysShape(r) && Books(s) && HandsOver(s, r, m) && x < NUM_PROC
    ensures HasOk(r, x) && PcOk(r, x)
  {
    assert HasOk(s, x) && PcOk(s, x);
  }

  lemma BooksRelease(s: Sys, m: nat)
    requires SysInv(s) && Legal(s, UnlockSignal(m))
    ensures KInv(Next(s, UnlockSignal(m)).k) && Books(Next(s, UnlockSignal(m))) && BornOk(Next(s, UnlockSignal(m)))
  {
    hide KInv, SemSignal;
    var r := Next(s, UnlockSignal(m));
    SemSignalKeeps(s.k, m);
    BornStep(s, r, m, s.k.count[m] + 1);
    assert PcOk(s, s.k.curr);
    assert s.has[s.k.curr] - {m} == s.has[s.k.curr];
    BooksHanded(s, r, m);
  }

  lemma BooksWait(s: Sys, c: nat, m: Option<nat>, timed: bool, delay: nat)
    requires SysInv(s) && Legal(s, WaitCall(c, m, timed, delay))
    ensures var r := Next(s, WaitCall(c, m, timed, delay)); KInv(r.k) && Books(r) && BornOk(r)
  {
    hide KInv, Wait;
    var r := Next(s, WaitCall(c, m, timed, delay));
    WaitKeeps(s.k, c, m, timed, delay);
    if s.k.pending[c] || m.None? {
      var r1 := s.(k := r.k);
      BooksQuiet(s, r1);
      forall j | 0 <= j < NSEM ensures s.k.curr !in r.k.q[SemQueue(j)] { CurrNotQueued(s.k, j); }
      if s.k.pending[c] { assert PcOk(r1, s.k.curr); }
      BooksPc(r1, r, s.k.curr);
    } else {
      assert HasOk(s, s.k.curr) && MutexOk(s, m.value);
      BornStep(s, r, m.value, s.k.count[m.value] + 1);
      BooksHanded(s, r, m.value);
    }
  }

  lemma BooksUnlockTest(s: Sys, m: nat)
    requires SysInv(s) && Legal(s, UnlockTest(m))
    ensures KInv(Next(s, UnlockTest(m)).k) && Books(Next(s, UnlockTest(m))) && BornOk(Next(s, UnlockTest(m)))
  {
    hide KInv;
    var r, p := Next(s, UnlockTest(m)), s.k.curr;
    forall j | 0 <= j < NSEM ensures MutexOk(r, j) && CountOk(r, j) && QueueOk(r, j) {
      assert MutexOk(s, j) && QueueOk(s, j) && CountOk(s, j);
    }
    forall x | 0 <= x < NUM_PROC ensures HasOk(r, x) && PcOk(r, x) {
      assert HasOk(s, x) && PcOk(s, x);
    }
  }

  /** Every path of mutex_lock, and so every path of a mutexed wait, returns as the holder. */
  lemma LockReturnsHeld(s: Sys, m: nat)
    requires SysInv(s) && Legal(s, LockReturn(m))
    ensures s.mutex[m] && s.holder[m] == Some(s.k.curr)
  {
    CurrNotQueued(s.k, m);
    hide KInv;
    assert PcOk(s, s.k.curr);
  }

  lemma BooksLockReturn(s: Sys, m: nat)
    requires SysInv(s) && Legal(s, LockReturn(m))
    ensures KInv(Next(s, LockReturn(m)).k) && Books(Next(s, LockReturn(m))) && BornOk(Next(s, LockReturn(m)))
  {
    LockReturnsHeld(s, m);
    forall j | 0 <= j < NSEM ensures s.k.curr !in s.k.q[SemQueue(j)] { CurrNotQueued(s.k, j); }
    hide KInv;
    var r := Next(s, LockReturn(m));
    forall j | 0 <= j < NSEM ensures MutexOk(r, j) && CountOk(r, j) && QueueOk(r, j) {
      assert MutexOk(s, j) && QueueOk(s, j) && CountOk(s, j);
    }
    forall x | 0 <= x < NUM_PROC ensures HasOk(r, x) && PcOk(r, x) {
      assert HasOk(s, x) && PcOk(s, x);
    }
  }

  lemma BooksWaitReturn(s: Sys)
    requires SysInv(s) && Legal(s, WaitReturn)
    ensures KInv(Next(s, WaitReturn).k) && Books(Next(s, WaitReturn)) && BornOk(Next(s, WaitReturn))
  {
    forall j | 0 <= j < NSEM ensures s.k.curr !in s.k.q[SemQueue(j)] { CurrNotQueued(s.k, j); }
    hide KInv;
    assert PcOk(s, s.k.curr);
    BooksPc(s, Next(s, WaitReturn), s.k.curr);
  }

  lemma BooksCreate(s: Sys, priority: int, stack: bool)
    requires SysInv(s) && Legal(s, CreateCall(priority, stack))
    ensures var r := Next(s, CreateCall(priority, stack)); KInv(r.k) && Books(r) && BornOk(r)
  {
    hide KInv, Create, FreePid;
    CreateKeeps(s.k, priority, stack);
    var r, pid := Next(s, CreateCall(priority, stack)), FreePid(s.k, 1);
    if pid.Some? {
      forall j | 0 <= j < NSEM ensures pid.value !in s.k.q[SemQueue(j)] { UnusedNotQueued(s.k, pid.value, j); }
    }
    forall j | 0 <= j < NSEM ensures MutexOk(r, j) && CountOk(r, j) && QueueOk(r, j) {
      assert MutexOk(s, j) && QueueOk(s, j) && CountOk(s, j);
    }
    forall x | 0 <= x < NUM_PROC ensures HasOk(r, x) && PcOk(r, x) {
      assert HasOk(s, x) && PcOk(s, x);
    }
    forall x | 0 <= x < NUM_PROC ensures x in r.born <==> Unspawned(r.k, x) {
      assert Unspawned(r.k, x) == (Unspawned(s.k, x) || (stack && pid == Some(x)));
    }
  }

  lemma UnusedNotQueued(k: Kernel, p: nat, m: nat)
    requires KInv(k) && m < NSEM && p < NUM_PROC && k.status[p] == Unused
    ensures p !in k.q[SemQueue(m)]
  {
    hide Asleep, PrioOk, PlacedBut;
    PlacedAt(k, NULL, p);
    QueuedAt(k, SemQueue(m));
  }

  lemma BooksMakeAvail(s: Sys, p: nat)
    requires SysInv(s) && Legal(s, MakeAvailCall(p))
    ensures var r := Next(s, MakeAvailCall(p)); KInv(r.k) && Books(r) && BornOk(r)
  {
    hide KInv, MakeAvail;
    assert Unspawned(s.k, p);
    MakeAvailNewKeeps(s.k, p);
    var r := Next(s, MakeAvailCall(p));
    forall j | 0 <= j < NSEM ensures MutexOk(r, j) && CountOk(r, j) && QueueOk(r, j) {
      assert MutexOk(s, j) && QueueOk(s, j) && CountOk(s, j);
    }
    forall x | 0 <= x < NUM_PROC ensures HasOk(r, x) && PcOk(r, x) {
      assert HasOk(s, x) && PcOk(s, x);
    }
    forall x | 0 <= x < NUM_PROC ensures x in r.born <==> Unspawned(r.k, x) {
      assert Unspawned(r.k, x) == (Unspawned(s.k, x) && x != p);
    }
  }

  /** The events that touch no semaphore. */
  predicate IsQuiet(e: Event) {
    e.SignalCall? || e.BroadcastCall? || e.SleepCall? || e.YieldCall? || e.ExitCall? || e.TickIntr? || e.IsrSignal?
        || e.NmiSignal?
  }

  lemma QuietEvents(s: Sys, e: Event)
    requires SysInv(s) && Legal(s, e) && IsQuiet(e)
    ensures KInv(Next(s, e).k) && Quiet(s.k, Next(s, e).k) && Next(s, e) == s.(k := Next(s, e).k)
  {
    hide KInv, Quiet, Books, CondSignal, CondBroadcast, Sleep, Sched, Exit, Tick, CondSignalIsr, CondSignalNmi;
    match e {
      case SignalCall(c) => CondSignalKeeps(s.k, c);
      case BroadcastCall(c) => CondBroadcastKeeps(s.k, c);
      case SleepCall(delay) => SleepKeeps(s.k, delay);
      case YieldCall => YieldKeeps(s.k);
      case ExitCall => ExitKeeps(s.k);
      case TickIntr => TickKeeps(s.k);
      case IsrSignal(c) => CondSignalIsrKeeps(s.k, c);
      case NmiSignal(c) => CondSignalNmiKeeps(s.k, c);
    }
  }

  lemma YieldKeeps(k: Kernel)
    requires KInv(k)
    ensures KInv(Sched(k)) && Quiet(k, Sched(k))
  {
    hide Struct, Sched, SemOk, Flagged, Alert, Punctual;
    SchedKeeps(k);
  }

  lemma BooksSem(s: Sys, i: nat)
    requires SysInv(s)
    ensures Legal(s, SemWaitCall(i)) ==> var r := Next(s, SemWaitCall(i)); KInv(r.k) && Books(r) && BornOk(r)
    ensures Legal(s, SemSignalCall(i)) ==> var r := Next(s, SemSignalCall(i)); KInv(r.k) && Books(r) && BornOk(r)
  {
    hide KInv, SemWait, SemSignal;
    if Legal(s, SemWaitCall(i)) {
      SemWaitKeeps(s.k, i);
      var r := Next(s, SemWaitCall(i));
      BornStep(s, r, i, s.k.count[i] - 1);
      assert CountOk(s, i);
      BooksPlain(s, r, i, s.k.count[i] - 1);
    }
    if Legal(s, SemSignalCall(i)) {
      SemSignalKeeps(s.k, i);
      var r := Next(s, SemSignalCall(i));
      BornStep(s, r, i, s.k.count[i] + 1);
      assert CountOk(s, i);
      BooksPlain(s, r, i, s.k.count[i] + 1);
    }
  }

  /** One event, whichever it is, keeps the system invariant. */
  lemma NextKeeps(s: Sys, e: Event)
    requires SysInv(s) && Legal(s, e)
    ensures SysInv(Next(s, e))
  {
    hide KInv, Books, BornOk, Next;
    if IsQuiet(e) {
      QuietEvents(s, e);
      BooksQuiet(s, Next(s, e));
    } else {
      match e {
        case SemWaitCall(i) => BooksSem(s, i);
        case SemSignalCall(i) => BooksSem(s, i);
        case LockCall(m) => BooksLock(s, m);
        case LockReturn(m) => BooksLockReturn(s, m);
        case UnlockTest(m) => BooksUnlockTest(s, m);
        case UnlockSignal(m) => BooksRelease(s, m);
        case WaitCall(c, m, timed, delay) => BooksWait(s, c, m, timed, delay);
        case WaitReturn => BooksWaitReturn(s);
        case CreateCall(priority, stack) => BooksCreate(s, priority, stack);
        case MakeAvailCall(p) => BooksMakeAvail(s, p);
        case _ =>
      }
    }
  }

  // ---- runs ----

  /** Boot with the given semaphore rows: initial counts, and which rows are mutexes. */
  function Init(counts: seq<int>, mutex: seq<bool>): Sys
    requires |counts| == NSEM == |mutex|
  {
    Sys(Boot(counts), mutex, seq(NUM_PROC, _ => User), seq(NUM_PROC, _ => {}),
        seq(NSEM, _ => None), {}, counts, seq(NSEM, _ => 0), seq(NSEM, _ => 0), seq(NUM_PROC, _ => None))
  }

  predicate Initial(counts: seq<int>, mutex: seq<bool>) {
    && |counts| == NSEM == |mutex|
    && (forall i :: 0 <= i < NSEM ==> 0 <= counts[i])
    && (forall i :: 0 <= i < NSEM && mutex[i] ==> counts[i] == 1)
  }

  predicate IsRun(s: Sys, es: seq<Event>)
    requires SysShape(s)
    decreases |es|
  {
    es == [] || (Legal(s, es[0]) && IsRun(Next(s, es[0]), es[1..]))
  }

  function Run(s: Sys, es: seq<Event>): (r: Sys)
    requires SysShape(s) && IsRun(s, es)
    ensures SysShape(r)
    decreases |es|
  {
    if es == [] then s else Run(Next(s, es[0]), es[1..])
  }

  lemma InitInv(counts: seq<int>, mutex: seq<bool>)
    requires Initial(counts, mutex)
    ensures SysInv(Init(counts, mutex))
  {
    BootInv(counts);
    var s := Init(counts, mutex);
    hide KInv;
    forall p | 0 <= p < NUM_PROC ensures p in s.born <==> Unspawned(s.k, p) {
    }
  }

  lemma {:induction false} RunKeeps(s: Sys, es: seq<Event>)
    requires SysInv(s) && IsRun(s, es)
    ensures SysInv(Run(s, es))
    decreases |es|
  {
    hide KInv, Books, BornOk, Next, Legal;
    if es != [] {
      NextKeeps(s, es[0]);
      RunKeeps(Next(s, es[0]), es[1..]);
    }
  }

  /** Every state reached from boot satisfies the kernel invariant. */
  lemma ReachableInv(counts: seq<int>, mutex: seq<bool>, es: seq<Event>)
    requires Initial(counts, mutex) && IsRun(Init(counts, mutex), es)
    ensures SysInv(Run(Init(counts, mutex), es))
  {
    InitInv(counts, mutex);
    RunKeeps(Init(counts, mutex), es);
  }
}
