/** What each kernel entry point of src/system does to the process table, the queues,
    the sleep list and the flags, written on values. Class Kernel.System does the same
    steps in place and is proved to match these functions. */
module KernelState {
  import opened Config
  import opened ProcQueue
  import opened SleepList

  datatype Status = Unused | Unavail | Avail | Curr | OnCond | OnSem | Timed

  /** Queue 0 is the avail list, then one queue per semaphore, then one per cond:
      the order in which start() opens them. `at`, `stamp` and `clock` only observe:
      which queue holds a pid, and in which order pids were queued. `now` and `due`
      count ticks without wrapping. */
  datatype Kernel = Kernel(
    status: seq<Status>, prio: seq<int>, timedOut: seq<bool>,
    curr: nat, needResched: bool,
    q: Queues, at: seq<int>, stamp: seq<nat>, clock: nat,
    count: seq<int>,
    pending: seq<bool>, nmiPending: bool,
    sleepers: seq<nat>, due: seq<nat>, now: nat)

  const AVAIL_LIST: nat := 0

  function SemQueue(s: nat): nat { 1 + s }

  function CondQueue(c: nat): nat { 1 + NSEM + c }

  predicate IsCondQueue(i: int) { NSEM < i < NUM_QUEUE }

  predicate Shape(k: Kernel) {
    && |k.status| == NUM_PROC && |k.prio| == NUM_PROC && |k.timedOut| == NUM_PROC && |k.stamp| == NUM_PROC
    && k.curr < NUM_PROC && |k.q| == NUM_QUEUE && |k.at| == NUM_PROC
    && |k.count| == NSEM && |k.pending| == NCOND
    && |k.due| == NUM_PROC && InRange(k.sleepers)
    && forall i :: 0 <= i < NUM_QUEUE ==> InRange(k.q[i])
  }

  lemma InsertInRange(s: seq<nat>, k: nat, p: nat)
    requires InRange(s) && p < NUM_PROC && k <= |s|
    ensures InRange(InsertAt(s, k, p))
  {
    var t := InsertAt(s, k, p);
    forall a | 0 <= a < |t| ensures t[a] < NUM_PROC {
      assert t[a] == (if a < k then s[a] else if a == k then p else s[a - 1]);
    }
  }

  lemma WithoutInRange(s: seq<nat>, p: nat)
    requires InRange(s)
    ensures InRange(Without(s, p))
  {
    forall a | 0 <= a < |Without(s, p)| ensures Without(s, p)[a] < NUM_PROC {
      assert Without(s, p)[a] in s;
    }
  }

  // ---- queue primitives ----

  function Enq(k: Kernel, i: nat, p: nat): (r: Kernel)
    requires Shape(k) && i < NUM_QUEUE && p < NUM_PROC
    ensures Shape(r)
  {
    InsertInRange(k.q[i], Slot(k.q[i], k.prio[p], k.prio), p);
    k.(q := k.q[i := Insert(k.q[i], p, k.prio[p], k.prio)], at := k.at[p := i],
       stamp := k.stamp[p := k.clock], clock := k.clock + 1)
  }

  /** proc_dequeue: the null process stands for an empty queue. */
  function First(k: Kernel, i: nat): (p: nat)
    requires Shape(k) && i < NUM_QUEUE
    ensures p < NUM_PROC
  {
    if k.q[i] == [] then NULL_PROC else k.q[i][0]
  }

  function Deq(k: Kernel, i: nat): (r: Kernel)
    requires Shape(k) && i < NUM_QUEUE
    ensures Shape(r)
  {
    if k.q[i] == [] then k
    else k.(q := k.q[i := k.q[i][1..]], at := k.at[k.q[i][0] := NULL])
  }

  /** proc_remove */
  function Unqueue(k: Kernel, p: nat): (r: Kernel)
    requires Shape(k) && p < NUM_PROC
    ensures Shape(r)
  {
    if 0 <= k.at[p] < NUM_QUEUE then
      WithoutInRange(k.q[k.at[p]], p);
      k.(q := k.q[k.at[p] := Without(k.q[k.at[p]], p)], at := k.at[p := NULL])
    else k
  }

  function SetStatus(k: Kernel, p: nat, st: Status): (r: Kernel)
    requires Shape(k) && p < NUM_PROC
    ensures Shape(r)
  {
    k.(status := k.status[p := st])
  }

  // ---- scheduling: make_avail.c, sched.c ----

  function MakeAvail(k: Kernel, p: nat): (r: Kernel)
    requires Shape(k) && p < NUM_PROC
    ensures Shape(r)
  {
    Enq(SetStatus(k, p, Avail), AVAIL_LIST, p)
      .(needResched := k.needResched || k.prio[p] > k.prio[k.curr])
  }

  function Preempt(k: Kernel): (r: Kernel)
    requires Shape(k)
    ensures Shape(r)
  {
    if k.status[k.curr] == Curr then Enq(SetStatus(k, k.curr, Avail), AVAIL_LIST, k.curr) else k
  }

  function Sched(k: Kernel): (r: Kernel)
    requires Shape(k)
    ensures Shape(r)
  {
    var k1 := Preempt(k.(needResched := false));
    var p := First(k1, AVAIL_LIST);
    SetStatus(Deq(k1, AVAIL_LIST).(curr := p), p, Curr)
  }

  function SchedIfNeeded(k: Kernel): (r: Kernel)
    requires Shape(k)
    ensures Shape(r)
  {
    if k.needResched then Sched(k) else k
  }

  // ---- sem.c ----

  function SemWait(k: Kernel, s: nat): (r: Kernel)
    requires Shape(k) && s < NSEM
    ensures Shape(r)
  {
    var k1 := k.(count := k.count[s := k.count[s] - 1]);
    if k1.count[s] < 0 then Sched(Enq(SetStatus(k1, k1.curr, OnSem), SemQueue(s), k1.curr)) else k1
  }

  /** sem_signal up to its reschedule. */
  function Release(k: Kernel, s: nat): (r: Kernel)
    requires Shape(k) && s < NSEM
    ensures Shape(r)
  {
    var k1 := k.(count := k.count[s := k.count[s] + 1]);
    if k1.count[s] <= 0 then MakeAvail(Deq(k1, SemQueue(s)), First(k1, SemQueue(s))) else k1
  }

  function SemSignal(k: Kernel, s: nat): (r: Kernel)
    requires Shape(k) && s < NSEM
    ensures Shape(r)
  {
    SchedIfNeeded(Release(k, s))
  }

  // ---- sleep.c ----

  function SleepInsert(k: Kernel, p: nat, delay: nat): (r: Kernel)
    requires Shape(k) && p < NUM_PROC
    ensures Shape(r)
  {
    var due := k.due[p := k.now + delay];
    InsertInRange(k.sleepers, DueSlot(k.sleepers, due[p], due), p);
    k.(due := due, sleepers := InsertDue(k.sleepers, p, due))
  }

  function SleepRemove(k: Kernel, p: nat): (r: Kernel)
    requires Shape(k) && p < NUM_PROC
    ensures Shape(r)
  {
    WithoutInRange(k.sleepers, p);
    k.(sleepers := Without(k.sleepers, p))
  }

  function Sleep(k: Kernel, delay: nat): (r: Kernel)
    requires Shape(k)
    ensures Shape(r)
  {
    Sched(SleepInsert(SetStatus(k, k.curr, Timed), k.curr, delay))
  }

  predicate Expired(k: Kernel)
    requires Shape(k)
  {
    k.sleepers != [] && k.due[k.sleepers[0]] <= k.now
  }

  /** One turn of sleep_clock's loop. */
  function WakeExpired(k: Kernel): (r: Kernel)
    requires Shape(k) && Expired(k)
    ensures Shape(r)
  {
    var p := k.sleepers[0];
    var k1 := Unqueue(k.(sleepers := k.sleepers[1..]), p);
    MakeAvail(k1.(timedOut := k1.timedOut[p := true]), p)
  }

  function Expire(k: Kernel): (r: Kernel)
    requires Shape(k)
    ensures Shape(r)
    decreases |k.sleepers|
  {
    if Expired(k) then Expire(WakeExpired(k)) else k
  }

  function SleepClock(k: Kernel): (r: Kernel)
    requires Shape(k)
    ensures Shape(r)
  {
    Expire(k.(now := k.now + 1))
  }

  // ---- cond.c ----

  function Wake(k: Kernel, p: nat): (r: Kernel)
    requires Shape(k) && p < NUM_PROC
    ensures Shape(r)
  {
    MakeAvail(if k.status[p] == Timed then SleepRemove(k, p) else k, p)
  }

  function WakeAll(k: Kernel, c: nat): (r: Kernel)
    requires Shape(k) && c < NCOND
    ensures Shape(r)
    decreases |k.q[CondQueue(c)]|
  {
    var p := First(k, CondQueue(c));
    if p == NULL_PROC then Deq(k, CondQueue(c)) else WakeAll(Wake(Deq(k, CondQueue(c)), p), c)
  }

  /** The part of wait() before its reschedule, for a caller that found no pending flag. */
  function Park(k: Kernel, c: nat, timed: bool, delay: nat): (r: Kernel)
    requires Shape(k) && c < NCOND
    ensures Shape(r)
  {
    var k1 := SetStatus(k.(timedOut := k.timedOut[k.curr := false]), k.curr, if timed then Timed else OnCond);
    var k2 := if timed then SleepInsert(k1, k1.curr, delay) else k1;
    Enq(k2, CondQueue(c), k2.curr)
  }

  /** mutex_unlock up to its reschedule; MUTEX_NONE is None. */
  function Unlock(k: Kernel, m: Option<nat>): (r: Kernel)
    requires Shape(k) && (m.Some? ==> m.value < NSEM)
    ensures Shape(r)
  {
    if m.Some? && k.count[m.value] < 1 then Release(k, m.value) else k
  }

  /** wait() until it switches away, or returns because the flag was already set. Whether
      the unlock reschedules or the last test does, the parked caller is switched out once. */
  function Wait(k: Kernel, c: nat, m: Option<nat>, timed: bool, delay: nat): (r: Kernel)
    requires Shape(k) && c < NCOND && (m.Some? ==> m.value < NSEM)
    ensures Shape(r)
  {
    if k.pending[c] then k.(pending := k.pending[c := false])
    else Sched(Unlock(Park(k, c, timed, delay), m))
  }

  function CondSignal(k: Kernel, c: nat): (r: Kernel)
    requires Shape(k) && c < NCOND
    ensures Shape(r)
  {
    var p := First(k, CondQueue(c));
    var k1 := Deq(k, CondQueue(c));
    SchedIfNeeded(if p != NULL_PROC then Wake(k1, p) else k1)
  }

  function CondBroadcast(k: Kernel, c: nat): (r: Kernel)
    requires Shape(k) && c < NCOND
    ensures Shape(r)
  {
    SchedIfNeeded(WakeAll(k, c))
  }

  function CondSignalIsr(k: Kernel, c: nat): (r: Kernel)
    requires Shape(k) && c < NCOND
    ensures Shape(r)
  {
    WakeAll(k.(pending := k.pending[c := true]), c)
  }

  function CondSignalNmi(k: Kernel, c: nat): (r: Kernel)
    requires Shape(k) && c < NCOND
    ensures Shape(r)
  {
    k.(pending := k.pending[c := true], nmiPending := true)
  }

  /** One turn of cond_clock's loop. */
  function Deliver(k: Kernel, c: nat): (r: Kernel)
    requires Shape(k) && c < NCOND
    ensures Shape(r)
  {
    if k.pending[c] && k.q[CondQueue(c)] != [] then
      var k1 := WakeAll(k, c);
      k1.(pending := k1.pending[c := false])
    else k
  }

  function DeliverFrom(k: Kernel, c: nat): (r: Kernel)
    requires Shape(k) && c <= NCOND
    ensures Shape(r)
    decreases NCOND - c
  {
    if c == NCOND then k else DeliverFrom(Deliver(k, c), c + 1)
  }

  function CondClock(k: Kernel): (r: Kernel)
    requires Shape(k)
    ensures Shape(r)
  {
    if k.nmiPending then DeliverFrom(k.(nmiPending := false), 0) else k
  }

  /** handle_cpu_timer_intr: sleepers first, then flagged conds, then the scheduler. */
  function Tick(k: Kernel): (r: Kernel)
    requires Shape(k)
    ensures Shape(r)
  {
    Sched(CondClock(SleepClock(k)))
  }

  // ---- create.c, get_pid.c, start_proc.c ----

  /** get_pid: the least unused row above the null process. */
  function FreePid(k: Kernel, p: nat): (r: Option<nat>)
    requires Shape(k) && 1 <= p <= NUM_PROC
    ensures r.Some? ==> p <= r.value < NUM_PROC && k.status[r.value] == Unused
    ensures forall x :: p <= x < (if r.Some? then r.value else NUM_PROC) ==> k.status[x] != Unused
    decreases NUM_PROC - p
  {
    if p == NUM_PROC then None else if k.status[p] == Unused then Some(p) else FreePid(k, p + 1)
  }

  /** The row create fills in: AVAIL, but on no queue until make_avail. */
  function Newborn(k: Kernel, p: nat, priority: int): (r: Kernel)
    requires Shape(k) && p < NUM_PROC
    ensures Shape(r)
  {
    SetStatus(k, p, Avail).(prio := k.prio[p := priority])
  }

  /** create: `stack` tells whether alloc_stack found room. */
  function Create(k: Kernel, priority: int, stack: bool): (r: Kernel)
    requires Shape(k)
    ensures Shape(r)
  {
    var pid := FreePid(k, 1);
    if pid.None? || !stack then k else Newborn(k, pid.value, priority)
  }

  function Exit(k: Kernel): (r: Kernel)
    requires Shape(k)
    ensures Shape(r)
  {
    Sched(SetStatus(k, k.curr, Unused))
  }

  /** start() after make_avail(NULL_PROC): the null process runs but sits on the avail list. */
  function Boot(counts: seq<int>): (r: Kernel)
    requires |counts| == NSEM
    ensures Shape(r)
  {
    Kernel(seq(NUM_PROC, p => if p == 0 then Avail else Unused),
           seq(NUM_PROC, _ => 0), seq(NUM_PROC, _ => false), NULL_PROC, false,
           seq(NUM_QUEUE, i => if i == 0 then [NULL_PROC] else []),
           seq(NUM_PROC, p => if p == 0 then AVAIL_LIST else NULL), seq(NUM_PROC, _ => 0), 1,
           counts, seq(NCOND, _ => false), false,
           [], seq(NUM_PROC, _ => 0), 0)
  }
}
