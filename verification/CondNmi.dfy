/** wait() and cond_clock() one statement at a time, with the NMI free to fire between any
    two of them. Masked sections exclude everything else, so all other calls stay whole. */
module CondNmi {
  import opened Config
  import opened ProcQueue
  import opened SleepList
  import opened KernelState
  import opened KernelInv
  import opened KernelSteps
  import opened KernelRuns

  /** The statement of wait() that comes next. Clear follows a test that found the flag set,
      Mark one that did not. */
  datatype WaitPc = Clear | Mark | Doze | Queue | Unlocking | Switch

  /** The statement of the tick that comes next once sleep_clock is done. */
  datatype ClockPc = Look | Lower | Probe | Rouse | Drop | Reschedule

  /** The masked section in progress. `from` is the system as wait()'s test found it. */
  datatype Section =
    | Open
    | Waiting(pc: WaitPc, from: Sys, c: nat, m: Option<nat>, timed: bool, delay: nat)
    | Clocking(step: ClockPc, c: nat)

  /** `checked[p]`: the cond whose condition p last found false, and for which it is about to
      wait. `missed`: the processes whose cond was signalled by an interrupt since then. */
  datatype Micro = Micro(s: Sys, sect: Section, checked: seq<Option<nat>>, missed: set<nat>)

  datatype Move =
    | Check(c: nat)
    | Forget
    | Begin(c: nat, m: Option<nat>, timed: bool, delay: nat)
    | Call(e: Event)
    | TickStart
    | Step
    | Nmi(c: nat)

  predicate MShape(x: Micro) {
    SysShape(x.s) && |x.checked| == NUM_PROC
  }

  /** p waits for cond c, or is about to. */
  predicate On(x: Micro, p: nat, c: nat)
    requires MShape(x) && p < NUM_PROC
  {
    x.checked[p] == Some(c) || x.s.k.at[p] == CondQueue(c)
  }

  function WithFlags(k: Kernel, f: Kernel): (r: Kernel)
    requires Shape(k) && Shape(f)
    ensures Shape(r)
  {
    k.(pending := f.pending, nmiPending := f.nmiPending)
  }

  function Marked(k: Kernel, timed: bool): (r: Kernel)
    requires Shape(k)
    ensures Shape(r)
  {
    SetStatus(k.(timedOut := k.timedOut[k.curr := false]), k.curr, if timed then Timed else OnCond)
  }

  function Dozed(k: Kernel, timed: bool, delay: nat): (r: Kernel)
    requires Shape(k)
    ensures Shape(r)
  {
    if timed then SleepInsert(k, k.curr, delay) else k
  }

  /** wait() up to, not including, the statement `pc`, without interruptions. */
  function Partial(k: Kernel, pc: WaitPc, c: nat, m: Option<nat>, timed: bool, delay: nat): (r: Kernel)
    requires Shape(k) && c < NCOND && (m.Some? ==> m.value < NSEM)
    ensures Shape(r)
  {
    match pc
    case Clear | Mark => k
    case Doze => Marked(k, timed)
    case Queue => Dozed(Marked(k, timed), timed, delay)
    case Unlocking => Park(k, c, timed, delay)
    case Switch => Unlock(Park(k, c, timed, delay), m)
  }

  predicate SectionOk(x: Section) {
    match x
    case Open => true
    case Waiting(_, from, c, m, timed, delay) => SysShape(from) && Legal(from, WaitCall(c, m, timed, delay))
    case Clocking(step, c) => c <= NCOND && ((step == Rouse || step == Drop) ==> c < NCOND)
  }

  /** Calls that run with no NMI in sight of the flags: all but wait, the tick and the NMI. */
  predicate IsWhole(e: Event) {
    !e.WaitCall? && !e.TickIntr? && !e.NmiSignal?
  }

  predicate Allowed(x: Micro, v: Move)
    requires MShape(x) && SectionOk(x.sect)
  {
    match v
    case Check(c) => x.sect.Open? && c < NCOND && x.s.k.curr != NULL_PROC
    case Forget => x.sect.Open?
    case Begin(c, m, timed, delay) =>
      x.sect.Open? && Legal(x.s, WaitCall(c, m, timed, delay)) && x.checked[x.s.k.curr] == Some(c)
    case Call(e) => x.sect.Open? && IsWhole(e) && Legal(x.s, e)
    case TickStart => x.sect.Open?
    case Step => !x.sect.Open?
    case Nmi(c) => c < NCOND
  }

  /** One statement of wait(). */
  function WaitStep(x: Micro): (r: Micro)
    requires MShape(x) && SectionOk(x.sect) && x.sect.Waiting?
    ensures MShape(r) && SectionOk(r.sect)
  {
    var k, c, w := x.s.k, x.sect.c, x.sect;
    match w.pc
    case Clear =>
      x.(s := x.s.(k := k.(pending := k.pending[c := false]), rc := x.s.rc[k.curr := Some(0)]), sect := Open,
         checked := x.checked[k.curr := None], missed := x.missed - {k.curr})
    case Mark =>
      x.(s := x.s.(k := Marked(k, w.timed)), sect := w.(pc := Doze))
    case Doze => x.(s := x.s.(k := Dozed(k, w.timed, w.delay)), sect := w.(pc := Queue))
    case Queue =>
      x.(s := x.s.(k := Enq(k, CondQueue(c), k.curr)), sect := w.(pc := Unlocking),
          checked := x.checked[k.curr := None])
    case Unlocking => x.(s := x.s.(k := Unlock(k, w.m)), sect := w.(pc := Switch))
    case Switch =>
      x.(s := Next(w.from, WaitCall(c, w.m, w.timed, w.delay)).(k := Sched(k)), sect := Open)
  }

  /** One statement of the tick handler after sleep_clock. */
  function ClockStep(x: Micro): (r: Micro)
    requires MShape(x) && SectionOk(x.sect) && x.sect.Clocking?
    ensures MShape(r) && SectionOk(r.sect)
  {
    var k, c := x.s.k, x.sect.c;
    match x.sect.step
    case Look => x.(sect := Clocking(if k.nmiPending then Lower else Reschedule, 0))
    case Lower => x.(s := x.s.(k := k.(nmiPending := false)), sect := Clocking(Probe, 0))
    case Probe =>
      x.(sect := if c == NCOND then Clocking(Reschedule, c)
                 else if k.pending[c] && k.q[CondQueue(c)] != [] then Clocking(Rouse, c)
                 else Clocking(Probe, c + 1))
    case Rouse => x.(s := x.s.(k := WakeAll(k, c)), sect := Clocking(Drop, c))
    case Drop => x.(s := x.s.(k := k.(pending := k.pending[c := false])), sect := Clocking(Probe, c + 1))
    case Reschedule => x.(s := x.s.(k := Sched(k)), sect := Open)
  }

  /** Everyone waiting on c, or about to, has now been signalled. */
  function Signalled(x: Micro, c: nat): set<nat>
    requires MShape(x)
  {
    set p: nat | p < NUM_PROC && On(x, p, c)
  }

  function Go(x: Micro, v: Move): (r: Micro)
    requires MShape(x) && SectionOk(x.sect) && Allowed(x, v)
    ensures MShape(r) && SectionOk(r.sect)
  {
    var k := x.s.k;
    match v
    case Check(c) => x.(checked := x.checked[k.curr := Some(c)], missed := x.missed - {k.curr})
    case Forget => x.(checked := x.checked[k.curr := None])
    case Begin(c, m, timed, delay) => x.(sect := Waiting(if k.pending[c] then Clear else Mark, x.s, c, m, timed, delay))
    case Call(e) =>
      x.(s := Next(x.s, e), missed := if e.IsrSignal? then x.missed + Signalled(x, e.c) else x.missed)
    case TickStart => x.(s := x.s.(k := SleepClock(k)), sect := Clocking(Look, 0))
    case Step => if x.sect.Waiting? then WaitStep(x) else ClockStep(x)
    case Nmi(c) => x.(s := x.s.(k := CondSignalNmi(k, c)), missed := x.missed + Signalled(x, c))
  }

  // ---- the invariant between any two statements ----

  /** Flags only went up since `from`, and each that did left nmi_pending set. */
  predicate Raised(k: Kernel, r: Kernel)
    requires Shape(k) && Shape(r)
  {
    && (k.nmiPending ==> r.nmiPending)
    && (forall d :: 0 <= d < NCOND && k.pending[d] ==> r.pending[d])
    && (forall d :: 0 <= d < NCOND && r.pending[d] && !k.pending[d] ==> r.nmiPending)
  }

  /** The pass of cond_clock in progress has yet to look at cond d. */
  predicate PassOwes(x: Section, d: nat) {
    x.Clocking? && match x.step
                   case Lower => true
                   case Probe | Rouse => x.c <= d
                   case Drop => x.c < d
                   case Look | Reschedule => false
  }

  /** A flagged cond with waiters: this pass or the next tick will see it. */
  predicate FlagOwed(x: Micro, d: nat)
    requires MShape(x) && d < NCOND
  {
    x.s.k.pending[d] && x.s.k.q[CondQueue(d)] != [] ==> x.s.k.nmiPending || PassOwes(x.sect, d)
  }

  predicate AllOwed(x: Micro)
    requires MShape(x)
  {
    forall d :: 0 <= d < NCOND ==> FlagOwed(x, d)
  }

  /** Halfway through the tick. */
  ghost predicate ClockOk(x: Micro)
    requires MShape(x) && x.sect.Clocking?
  {
    && Base(x.s.k) && Punctual(x.s.k) && Books(x.s) && BornOk(x.s)
    && (x.sect.step == Rouse ==> x.sect.c < NCOND && x.s.k.pending[x.sect.c])
    && (x.sect.step == Drop ==> x.sect.c < NCOND && x.s.k.q[CondQueue(x.sect.c)] == [])
  }

  /** Halfway through wait(): what has been done so far, plus the flags raised meanwhile. */
  ghost predicate WaitOk(x: Micro)
    requires MShape(x) && SectionOk(x.sect) && x.sect.Waiting?
  {
    var w := x.sect;
    && SysInv(w.from)
    && Raised(w.from.k, x.s.k)
    && w.from.k.pending[w.c] == (w.pc == Clear)
    && x.s == w.from.(k := WithFlags(Partial(w.from.k, w.pc, w.c, w.m, w.timed, w.delay), x.s.k))
  }

  ghost predicate MInv(x: Micro) {
    && MShape(x) && SectionOk(x.sect) && AllOwed(x)
    && (x.sect.Open? ==> SysInv(x.s))
    && (x.sect.Waiting? ==> WaitOk(x))
    && (x.sect.Clocking? ==> ClockOk(x))
  }

  // ---- raising flags ----

  /** Raising flags keeps the whole system invariant when nmi_pending covers them. */
  lemma FlagsInv(s: Sys, r: Sys)
    requires SysInv(s) && SysShape(r) && r == s.(k := WithFlags(s.k, r.k), rc := r.rc) && Flagged(r.k)
    ensures SysInv(r)
  {
    hide KInv, Books, BornOk, Quiet, Flagged;
    FlagKeeps(s.k, r.k);
    BooksQuiet(s, r);
  }

  lemma RaisedFlagged(k: Kernel, r: Kernel)
    requires Shape(k) && Shape(r) && r == WithFlags(k, r) && Raised(k, r) && Flagged(k)
    ensures Flagged(r)
  {
  }

  lemma FlaggedOwed(x: Micro)
    requires MShape(x)
    ensures Flagged(x.s.k) ==> AllOwed(x)
    ensures AllOwed(x) && (forall d :: 0 <= d < NCOND ==> !PassOwes(x.sect, d)) ==> Flagged(x.s.k)
  {
    if AllOwed(x) && (forall d :: 0 <= d < NCOND ==> !PassOwes(x.sect, d)) {
      forall d | 0 <= d < NCOND && x.s.k.pending[d] && x.s.k.q[CondQueue(d)] != [] ensures x.s.k.nmiPending {
        assert FlagOwed(x, d);
      }
    }
  }

  // ---- wait() statement by statement ----

  lemma EnqFlags(k: Kernel, i: nat, p: nat, f: Kernel)
    requires Shape(k) && Shape(f) && i < NUM_QUEUE && p < NUM_PROC
    ensures Enq(WithFlags(k, f), i, p) == WithFlags(Enq(k, i, p), f)
  {
    hide Insert;
  }

  lemma MakeAvailFlags(k: Kernel, p: nat, f: Kernel)
    requires Shape(k) && Shape(f) && p < NUM_PROC
    ensures MakeAvail(WithFlags(k, f), p) == WithFlags(MakeAvail(k, p), f)
  {
    hide Enq;
    EnqFlags(SetStatus(k, p, Avail), AVAIL_LIST, p, f);
  }

  /** The flags play no part in a reschedule. */
  lemma SchedFlags(k: Kernel, f: Kernel)
    requires Shape(k) && Shape(f)
    ensures Sched(WithFlags(k, f)) == WithFlags(Sched(k), f)
  {
    hide Preempt;
    PreemptFlags(k.(needResched := false), f);
  }

  lemma PreemptFlags(k: Kernel, f: Kernel)
    requires Shape(k) && Shape(f)
    ensures Preempt(WithFlags(k, f)) == WithFlags(Preempt(k), f)
  {
    hide Enq;
    EnqFlags(SetStatus(k, k.curr, Avail), AVAIL_LIST, k.curr, f);
  }

  lemma UnlockFlags(k: Kernel, m: Option<nat>, f: Kernel)
    requires Shape(k) && Shape(f) && (m.Some? ==> m.value < NSEM)
    ensures Unlock(WithFlags(k, f), m) == WithFlags(Unlock(k, m), f)
  {
    hide MakeAvail;
    if m.Some? {
      var k1 := k.(count := k.count[m.value := k.count[m.value] + 1]);
      MakeAvailFlags(Deq(k1, SemQueue(m.value)), First(k1, SemQueue(m.value)), f);
    }
  }

  lemma ParkFlags(k: Kernel, c: nat, timed: bool, delay: nat, f: Kernel)
    requires Shape(k) && Shape(f) && c < NCOND
    ensures Marked(WithFlags(k, f), timed) == WithFlags(Marked(k, timed), f)
    ensures Dozed(WithFlags(k, f), timed, delay) == WithFlags(Dozed(k, timed, delay), f)
    ensures Park(k, c, timed, delay) == Enq(Dozed(Marked(k, timed), timed, delay), CondQueue(c), k.curr)
    ensures Marked(k, timed).curr == Dozed(k, timed, delay).curr == k.curr
  {
    hide Enq, InsertDue;
  }

  lemma ParkFrame(k: Kernel, c: nat, timed: bool, delay: nat)
    requires Shape(k) && c < NCOND
    ensures Marked(k, timed).q == k.q && Dozed(k, timed, delay).q == k.q
    ensures Park(k, c, timed, delay).curr == k.curr
        && WithFlags(Park(k, c, timed, delay), k) == Park(k, c, timed, delay)
  {
    hide Insert, InsertDue;
  }

  /** Conds other than the one waited for keep their waiters at every statement of wait(). */
  lemma PartialQueues(k: Kernel, pc: WaitPc, c: nat, m: Option<nat>, timed: bool, delay: nat, d: nat)
    requires KInv(k) && k.curr != NULL_PROC && c < NCOND && (m.Some? ==> m.value < NSEM) && delay < DELAY_LIMIT
    requires k.pending[c] == (pc == Clear) && d < NCOND && (d != c || pc == Clear)
    ensures Partial(k, pc, c, m, timed, delay).q[CondQueue(d)] == k.q[CondQueue(d)]
  {
    hide Queued, Asleep, PrioOk, PlacedBut, CanSwitch, SemOk, Flagged, Punctual, Alert, Marked, Dozed, Park, Release;
    if pc != Clear { ParkKeeps(k, c, timed, delay); }
    ParkFrame(k, c, timed, delay);
    ParkFrame(Marked(k, timed), c, timed, delay);
    if pc == Switch && m.Some? {
      ReleaseKeeps(Park(k, c, timed, delay), m.value);
    }
  }

  lemma WaitOwed(x: Micro)
    requires MShape(x) && SectionOk(x.sect) && x.sect.Waiting? && WaitOk(x)
    ensures AllOwed(x)
  {
    hide Struct, Running, SemOk, Alert, Punctual, Partial, Books, BornOk;
    var w := x.sect;
    forall d | 0 <= d < NCOND ensures FlagOwed(x, d) {
      if w.pc == Clear || d != w.c { PartialQueues(w.from.k, w.pc, w.c, w.m, w.timed, w.delay, d); }
    }
  }

  lemma ClearKeeps(x: Micro)
    requires MInv(x) && x.sect.Waiting? && x.sect.pc == Clear
    ensures MInv(WaitStep(x))
  {
    hide KInv, Books, BornOk, Flagged;
    var r := WaitStep(x);
    KFlagged(x.sect.from.k);
    RaisedFlagged(x.sect.from.k, x.s.k);
    LoweredFlagged(x.s.k, x.sect.c);
    FlagsInv(x.sect.from, r.s);
    FlaggedOwed(r);
  }

  lemma KFlagged(k: Kernel)
    requires KInv(k)
    ensures Flagged(k)
  {
  }

  lemma LoweredFlagged(k: Kernel, c: nat)
    requires Shape(k) && Flagged(k) && c < NCOND
    ensures Flagged(k.(pending := k.pending[c := false]))
  {
  }

  /** wait() has moved on to statement `pc` with the state it should have there. */
  lemma MiddleOk(x: Micro, r: Micro, pc: WaitPc)
    requires MInv(x) && x.sect.Waiting? && x.sect.pc != Clear && pc != Clear && MShape(r) && SectionOk(r.sect)
    requires r.sect == x.sect.(pc := pc) && r.s == x.s.(k := r.s.k)
    requires Shape(x.sect.from.k)
    requires r.s.k == WithFlags(Partial(x.sect.from.k, pc, x.sect.c, x.sect.m, x.sect.timed, x.sect.delay), x.s.k)
    ensures MInv(r)
  {
    hide SysInv, Partial, AllOwed, Legal;
    WaitOwed(r);
  }

  lemma WaitMiddleKeeps(x: Micro)
    requires MInv(x) && x.sect.Waiting? && x.sect.pc != Clear && x.sect.pc != Switch
    ensures MInv(WaitStep(x))
  {
    hide MInv, SysInv, Marked, Dozed, Enq, Unlock, Park, Legal;
    MiddleAt(x);
    var w, k := x.sect, x.sect.from.k;
    ParkFlags(k, w.c, w.timed, w.delay, x.s.k);
    match w.pc {
      case Mark => MiddleOk(x, WaitStep(x), Doze);
      case Doze =>
        ParkFlags(Marked(k, w.timed), w.c, w.timed, w.delay, x.s.k);
        MiddleOk(x, WaitStep(x), Queue);
      case Queue =>
        ParkFlags(Marked(k, w.timed), w.c, w.timed, w.delay, x.s.k);
        EnqFlags(Dozed(Marked(k, w.timed), w.timed, w.delay), CondQueue(w.c), k.curr, x.s.k);
        MiddleOk(x, WaitStep(x), Unlocking);
      case Unlocking =>
        UnlockFlags(Park(k, w.c, w.timed, w.delay), w.m, x.s.k);
        MiddleOk(x, WaitStep(x), Switch);
    }
  }

  lemma MiddleAt(x: Micro)
    requires MInv(x) && x.sect.Waiting? && x.sect.pc != Clear
    ensures MShape(x) && SectionOk(x.sect) && Shape(x.sect.from.k) && x.sect.c < NCOND
        && (x.sect.m.Some? ==> x.sect.m.value < NSEM)
    ensures x.s.k == WithFlags(Partial(x.sect.from.k, x.sect.pc, x.sect.c, x.sect.m, x.sect.timed, x.sect.delay), x.s.k)
  {
    hide SysInv, Partial, AllOwed;
  }

  lemma SwitchKeeps(x: Micro)
    requires MInv(x) && x.sect.Waiting? && x.sect.pc == Switch
    ensures MInv(WaitStep(x))
    ensures WaitStep(x).s.k == WithFlags(Next(x.sect.from,
        WaitCall(x.sect.c, x.sect.m, x.sect.timed, x.sect.delay)).k, x.s.k)
  {
    hide KInv, Books, BornOk, Sched, Unlock, Park, AllOwed, Handed, Flagged;
    var w, k, r := x.sect, x.sect.from.k, WaitStep(x);
    var call := WaitCall(w.c, w.m, w.timed, w.delay);
    NextKeeps(w.from, call);
    ParkFrame(k, w.c, w.timed, w.delay);
    UnlockFlags(Park(k, w.c, w.timed, w.delay), w.m, k);
    SchedFlags(Unlock(Park(k, w.c, w.timed, w.delay), w.m), k);
    SchedFlags(Unlock(Park(k, w.c, w.timed, w.delay), w.m), x.s.k);
    var n := Next(w.from, call);
    assert n.k == Sched(Unlock(Park(k, w.c, w.timed, w.delay), w.m));
    KFlagged(n.k);
    hide Next;
    RaisedFlagged(n.k, r.s.k);
    FlagsInv(n, r.s);
    FlaggedOwed(r);
  }

  // ---- the tick statement by statement ----

  lemma TickStartKeeps(x: Micro, r: Micro)
    requires MInv(x) && x.sect.Open? && MShape(r)
        && r == x.(s := x.s.(k := SleepClock(x.s.k)), sect := Clocking(Look, 0))
    ensures MInv(r)
  {
    hide Books, BornOk, SleepClock, Quiet, AllOwed, KInv;
    SleepClockQuiet(x.s.k, r.s.k);
    BooksQuiet(x.s, r.s);
    FlaggedOwed(r);
  }

  lemma SleepClockQuiet(k: Kernel, r: Kernel)
    requires KInv(k) && r == SleepClock(k)
    ensures Quiet(k, r) && Base(r) && Punctual(r) && Flagged(r)
  {
    hide Queued, Asleep, PrioOk, PlacedBut, SemOk, Alert, Punctual, Flagged, SleepClock, Quiet, Woke;
    SleepClockKeeps(k);
    WokeQuiet(k.(now := k.now + 1), r);
    NowQuiet(k, r);
  }

  lemma NowQuiet(k: Kernel, r: Kernel)
    requires Shape(k) && Shape(r) && Quiet(k.(now := k.now + 1), r)
    ensures Quiet(k, r)
  {
    assert forall p :: 0 <= p < NUM_PROC ==> Unspawned(k.(now := k.now + 1), p) == Unspawned(k, p);
  }

  /** Statements that touch nothing but the flags. */
  lemma ClockFlagsKeep(x: Micro, r: Micro)
    requires MInv(x) && x.sect.Clocking? && MShape(r) && SectionOk(r.sect) && r.sect.Clocking?
    requires r.s == x.s.(k := WithFlags(x.s.k, r.s.k)) && AllOwed(r)
    requires r.sect.step == Rouse ==> r.s.k.pending[r.sect.c]
    requires r.sect.step == Drop ==> r.s.k.q[CondQueue(r.sect.c)] == []
    ensures MInv(r)
  {
    hide Queued, Asleep, PrioOk, PlacedBut, Books, BornOk, SemOk, Punctual, AllOwed, OnlyCurr, Quiet;
    StructFrame(x.s.k, r.s.k, NULL);
    FlagsBase(x.s.k, r.s.k);
    BooksQuiet(x.s, r.s);
  }

  lemma FlagsBase(k: Kernel, r: Kernel)
    requires Shape(k) && Shape(r) && r == WithFlags(k, r)
    ensures CanSwitch(k) ==> CanSwitch(r)
    ensures SemOk(k) ==> SemOk(r)
    ensures Punctual(k) ==> Punctual(r)
    ensures Quiet(k, r)
  {
  }

  lemma ClockEasyKeeps(x: Micro)
    requires MInv(x) && x.sect.Clocking? && x.sect.step != Rouse && x.sect.step != Reschedule
    ensures MInv(ClockStep(x))
  {
    hide Base, Books, BornOk, Punctual, SysInv, WaitOk, WakeAll, Sched, CanSwitch;
    var r := ClockStep(x);
    forall d | 0 <= d < NCOND ensures FlagOwed(r, d) {
      assert FlagOwed(x, d);
    }
    ClockFlagsKeep(x, r);
  }

  lemma RouseKeeps(x: Micro)
    requires MInv(x) && x.sect.Clocking? && x.sect.step == Rouse
    ensures MInv(ClockStep(x))
  {
    hide Queued, Asleep, PrioOk, PlacedBut, Books, BornOk, SemOk, Punctual, WakeAll, Quiet, Woke, CanSwitch, AllOwed;
    var r, c := ClockStep(x), x.sect.c;
    WakeAllKeeps(x.s.k, c);
    WokeKeeps(x.s.k, r.s.k);
    WokeQuiet(x.s.k, r.s.k);
    BooksQuiet(x.s, r.s);
    RouseOwed(x);
  }

  lemma RouseOwed(x: Micro)
    requires MShape(x) && SectionOk(x.sect) && x.sect.Clocking? && x.sect.step == Rouse && AllOwed(x)
    requires Woke(x.s.k, WakeAll(x.s.k, x.sect.c)) && WakeAll(x.s.k, x.sect.c).q[CondQueue(x.sect.c)] == []
    ensures AllOwed(ClockStep(x))
  {
    hide WakeAll;
    forall d | 0 <= d < NCOND ensures FlagOwed(ClockStep(x), d) {
      assert FlagOwed(x, d);
    }
  }

  lemma RescheduleKeeps(x: Micro)
    requires MInv(x) && x.sect.Clocking? && x.sect.step == Reschedule
    ensures MInv(ClockStep(x))
  {
    hide KInv, Queued, Asleep, PrioOk, PlacedBut, Books, BornOk, SemOk, Punctual, Sched, Quiet, Flagged, AllOwed;
    FlaggedOwed(x);
    SchedKeeps(x.s.k);
    BooksQuiet(x.s, ClockStep(x).s);
    KFlagged(ClockStep(x).s.k);
    FlaggedOwed(ClockStep(x));
  }

  lemma NmiKeeps(x: Micro, c: nat, r: Micro)
    requires MInv(x) && c < NCOND && MShape(r)
    requires r == x.(s := x.s.(k := CondSignalNmi(x.s.k, c)), missed := r.missed)
    ensures MInv(r)
  {
    hide Base, Books, BornOk, Punctual, KInv;
    forall d | 0 <= d < NCOND ensures FlagOwed(r, d) {
      assert FlagOwed(x, d);
    }
    if x.sect.Clocking? {
      ClockFlagsKeep(x, r);
    } else if x.sect.Open? {
      NmiFlagged(r);
      FlagsInv(x.s, r.s);
    }
  }

  lemma NmiFlagged(x: Micro)
    requires MShape(x) && x.sect.Open? && AllOwed(x)
    ensures Flagged(x.s.k)
  {
    FlaggedOwed(x);
  }

  lemma BeginKeeps(x: Micro, v: Move)
    requires MInv(x) && Allowed(x, v) && v.Begin?
    ensures MInv(Go(x, v))
  {
    hide KInv, Books, BornOk, Park, Unlock, Marked, Dozed, Next, ClockOk;
    var r := Go(x, v);
    forall d | 0 <= d < NCOND ensures FlagOwed(r, d) {
      assert FlagOwed(x, d);
    }
  }

  lemma CallKeeps(x: Micro, e: Event)
    requires MInv(x) && Allowed(x, Call(e))
    ensures MInv(Go(x, Call(e)))
  {
    hide KInv, Books, BornOk, Next, Legal;
    NextKeeps(x.s, e);
    KFlagged(Next(x.s, e).k);
    FlaggedOwed(Go(x, Call(e)));
  }

  /** Between any two statements, whatever the NMI does: a flagged cond with waiters is
      always owed a look, by the pass in progress or by the next tick. */
  lemma GoKeeps(x: Micro, v: Move)
    requires MInv(x) && Allowed(x, v)
    ensures MInv(Go(x, v))
  {
    hide SysInv, WaitOk, ClockOk, AllOwed, WaitStep, ClockStep, Legal, Next;
    match v {
      case Begin(_, _, _, _) => BeginKeeps(x, v);
      case Call(e) => CallKeeps(x, e);
      case TickStart => TickStartKeeps(x, Go(x, v));
      case Nmi(c) => NmiKeeps(x, c, Go(x, v));
      case Check(_) => UserKeeps(x, v);
      case Forget => UserKeeps(x, v);
      case Step =>
        if x.sect.Waiting? {
          if x.sect.pc == Clear { ClearKeeps(x); } else if x.sect.pc == Switch { SwitchKeeps(x); }
              else { WaitMiddleKeeps(x); }
        } else if x.sect.step == Rouse { RouseKeeps(x); }
        else if x.sect.step == Reschedule { RescheduleKeeps(x); }
        else { ClockEasyKeeps(x); }
    }
  }

  lemma UserKeeps(x: Micro, v: Move)
    requires MInv(x) && Allowed(x, v) && (v.Check? || v.Forget?)
    ensures MInv(Go(x, v))
  {
    hide SysInv;
    forall d | 0 <= d < NCOND ensures FlagOwed(Go(x, v), d) {
      assert FlagOwed(x, d);
    }
  }
}
