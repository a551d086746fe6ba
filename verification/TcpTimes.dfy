/** Waits that run out too late: between the tick that ends the timed wait of the timer process
    or of a close and the moment that process holds the mutex again, segments still come in. */
module TcpTimes {
  import opened Config
  import opened TcpSpec
  import opened TcpRuns
  import opened TcpTheorems

  // ---- the timer ----

  /** Since the timer's wait last ran out, an acknowledgement has come in that left nothing
      outstanding; `b` is the answer for what happened before. One that comes in earlier ends
      the wait instead. */
  predicate LateAnswer(x: Sys, es: seq<Event>, b: bool)
    requires IsRun(x, es)
    decreases |es|
  {
    if es == [] then b
    else LateAnswer(Next(x, es[0]), es[1..], LateNow(x, es[0], b))
  }

  predicate LateNow(x: Sys, e: Event, b: bool) {
    if e.TimerExpires? || e.TimerActs? then false
    else b || (e.Deliver? && x.timer == Expired && Completes(x.c, e.s))
  }

  /** While the timer has yet to act: nothing outstanding means that an answer came late, and
      with the retries used up a late answer means that nothing was sent since. */
  predicate LateOk(x: Sys, b: bool) {
    x.phase != Over && x.timer == Expired ==>
      && (x.c.una == x.c.nxt ==> b)
      && (b && x.c.retries == MAX_RETRIES ==> x.c.una == x.c.nxt)
  }

  lemma LateStep(x: Sys, e: Event, r: Sys, b: bool)
    requires Inv(x) && Legal(x, e) && r == Next(x, e) && LateOk(x, b)
    ensures LateOk(r, LateNow(x, e, b))
  {
    hide RecvSide, PeerOk, NetOk, WritesOk, OverOk, SendsAll, Recv;
    match e {
      case Deliver(s) => LateDeliver(x, s, r, b);
      case Offer(i) => LateSends(x, e, r, b);
      case CloseCall => LateSends(x, e, r, b);
      case CloseActs => LateQuiet(x, e, r, b);
      case TimerActs => LateQuiet(x, e, r, b);
      case TimerExpires => hide SendSide;
      case _ => hide SendSide;
    }
  }

  lemma LateSends(x: Sys, e: Event, r: Sys, b: bool)
    requires Inv(x) && Legal(x, e) && r == Next(x, e) && LateOk(x, b) && (e.Offer? || e.CloseCall?)
    ensures LateOk(r, b)
  {
    hide SendSide, RecvSide, PeerOk, NetOk, WritesOk, OverOk, NextChunk, Numbers;
  }

  lemma LateQuiet(x: Sys, e: Event, r: Sys, b: bool)
    requires Legal(x, e) && r == Next(x, e) && LateOk(x, b) && (e.CloseActs? || e.TimerActs?)
    ensures LateOk(r, LateNow(x, e, b))
  {
  }

  lemma LateDeliver(x: Sys, s: Seg, r: Sys, b: bool)
    requires Inv(x) && Legal(x, Deliver(s)) && r == Next(x, Deliver(s)) && LateOk(x, b)
    ensures LateOk(r, LateNow(x, Deliver(s), b))
  {
    DeliverFields(x, s);
    NotClosed(x);
    hide Inv, Next;
    UnaAfter(x.c, s);
    hide Recv;
  }

  /** Only an acceptable acknowledgement moves una, and recv starts nothing new. */
  lemma UnaAfter(c: Conn, s: Seg)
    requires 0 <= c.nxt - c.una
    ensures var r := Recv(c, s).0;
            r.state != Closed ==>
              r.una == (if Counts(c, s) then s.ack else c.una) && r.nxt == c.nxt && r.retries == c.retries
  {
    AckUna(c, s);
    RestUna(TakeAck(c, s), s);
    hide TakeAck, TakeRest;
  }

  lemma AckUna(c: Conn, s: Seg)
    ensures var r := TakeAck(c, s);
            r.state != Closed ==>
              r.una == (if Acceptable(c, s) then s.ack else c.una) && r.nxt == c.nxt && r.retries == c.retries
  {
  }

  lemma RestUna(c: Conn, s: Seg)
    ensures var r := TakeRest(c, s).0; r.state != Closed ==> r.una == c.una && r.nxt == c.nxt && r.retries == c.retries
  {
  }

  lemma {:induction false} LateRun(x: Sys, es: seq<Event>, b: bool)
    requires Inv(x) && IsRun(x, es) && LateOk(x, b)
    ensures LateOk(Run(x, es), LateAnswer(x, es, b))
    decreases |es|
  {
    hide Inv, Next, Legal, LateOk, LateNow;
    if es != [] {
      NextKeeps(x, es[0], Next(x, es[0]));
      LateStep(x, es[0], Next(x, es[0]), b);
      LateRun(Next(x, es[0]), es[1..], LateNow(x, es[0], b));
    }
  }

  /** The timer clears a connection with nothing outstanding exactly when its retries are used
      up and the acknowledgement it was waiting for came in after its wait had run out and
      before it acted. */
  lemma TimerClearsIdle(iss: int, irs: int, stream: seq<Byte>, es: seq<Event>)
    requires IsRun(Start(iss, irs, stream), es)
    requires var x := Run(Start(iss, irs, stream), es); Legal(x, TimerActs) && x.phase != Over
    ensures var x := Run(Start(iss, irs, stream), es);
            Next(x, TimerActs).phase == Over && x.c.una == x.c.nxt <==>
              x.c.retries == MAX_RETRIES && LateAnswer(Start(iss, irs, stream), es, false)
  {
    StartInv(iss, irs, stream);
    RunKeeps(Start(iss, irs, stream), es);
    LateRun(Start(iss, irs, stream), es, false);
    TimerIgnoresLateAck(Run(Start(iss, irs, stream), es));
    hide Next, IsRun, Run, LateAnswer, LiveOk, PeerOk, NetOk, WritesOk;
  }

  /** What the timer does when its wait has run out depends on the retries alone. */
  lemma TimerIgnoresLateAck(x: Sys)
    requires Inv(x) && x.phase != Over && Legal(x, TimerActs)
    ensures Next(x, TimerActs).phase == Over <==> x.c.retries == MAX_RETRIES
  {
    NotClosed(x);
    hide SendSide, RecvSide, NetOk, WritesOk, PeerOk;
  }

  // ---- a close ----

  /** How many calls of close were between the end of their wait and their disconnect when
      the connection was cleared, less those that have acted since; `n` for the past. */
  function Overtaken(x: Sys, es: seq<Event>, n: int): int
    requires IsRun(x, es)
    decreases |es|
  {
    if es == [] then n else Overtaken(Next(x, es[0]), es[1..], OvertakenNow(x, es[0], n))
  }

  function OvertakenNow(x: Sys, e: Event, n: int): int
    requires Legal(x, e)
  {
    if x.phase != Over then (if Next(x, e).phase == Over then Next(x, e).overdue else n)
    else if e.CloseActs? then n - 1 else n
  }

  lemma OvertakenStep(x: Sys, e: Event, r: Sys, n: int)
    requires Inv(x) && Legal(x, e) && r == Next(x, e) && (x.phase == Over ==> x.overdue == n)
    ensures r.phase == Over ==> r.overdue == OvertakenNow(x, e, n)
  {
    hide SendSide, RecvSide, PeerOk, NetOk, WritesOk, SendsAll, Recv, Read, NextChunk, Numbers, Close, SendData,
         Timeout;
  }

  lemma {:induction false} OvertakenRun(x: Sys, es: seq<Event>, n: int)
    requires Inv(x) && IsRun(x, es) && (x.phase == Over ==> x.overdue == n)
    ensures Run(x, es).phase == Over ==> Run(x, es).overdue == Overtaken(x, es, n)
    decreases |es|
  {
    hide Inv, Next, Legal, OvertakenNow;
    if es != [] {
      NextKeeps(x, es[0], Next(x, es[0]));
      OvertakenStep(x, es[0], Next(x, es[0]), n);
      OvertakenRun(Next(x, es[0]), es[1..], OvertakenNow(x, es[0], n));
    }
  }

  /** A close disconnects a connection already cleared exactly when something else cleared it
      after the close's wait had run out and before it acted: a close whose wait is still
      running is woken by the disconnect and returns. */
  lemma CloseActsLate(iss: int, irs: int, stream: seq<Byte>, es: seq<Event>)
    requires IsRun(Start(iss, irs, stream), es) && Run(Start(iss, irs, stream), es).phase == Over
    ensures Legal(Run(Start(iss, irs, stream), es), CloseActs) <==> Overtaken(Start(iss, irs, stream), es, 0) > 0
  {
    StartInv(iss, irs, stream);
    OvertakenRun(Start(iss, irs, stream), es, 0);
  }

  /** Such a close turns the pending verdict of every blocked writer into 0. */
  lemma LateCloseWipes(x: Sys, i: nat)
    requires Inv(x) && Legal(x, CloseActs) && x.phase == Over && i < |x.writes| && x.writes[i].blocked
    ensures var r := Next(x, CloseActs);
            Legal(r, OfferReturns(i)) && r.c.sendErr == 0 && r.writes == x.writes && r.high == x.high
    ensures !x.late && Mark(x.writes[i]) > x.high ==> x.c.sendErr == -1
  {
    hide SendSide, RecvSide, NetOk, PeerOk;
    assert Placed(x.writes[i], x.iss, x.sent) && Owed(x, x.writes[i]);
  }

  // ---- callers that close only when no write waits ----

  /** close is never called while send_data waits for an acknowledgement. */
  predicate Patient(x: Sys, es: seq<Event>)
    requires IsRun(x, es)
    decreases |es|
  {
    es == [] || ((es[0].CloseCall? ==> !x.c.sender) && Patient(Next(x, es[0]), es[1..]))
  }

  /** A close under way has sent its FIN; once the connection is gone and a close may yet act,
      everything handed over has been acknowledged. */
  predicate CalmOk(x: Sys) {
    && (x.phase != Over && (x.phase == Closing || x.waiting + x.overdue > 0) ==> x.fin)
    && (x.phase == Over && (x.late || x.overdue > 0) ==> AllAcknowledged(x))
  }

  predicate AllAcknowledged(x: Sys) {
    forall i :: 0 <= i < |x.writes| && x.writes[i].places != [] ==> Mark(x.writes[i]) <= x.high
  }

  lemma CalmStep(x: Sys, e: Event, r: Sys)
    requires Inv(x) && Legal(x, e) && r == Next(x, e) && CalmOk(x) && (e.CloseCall? ==> !x.c.sender)
    ensures CalmOk(r)
  {
    if x.phase == Over { CalmOver(x, e, r); }
    else if r.phase == Over { CalmEnds(x, e, r); }
    else { CalmLive(x, e, r); }
  }

  lemma CalmOver(x: Sys, e: Event, r: Sys)
    requires Inv(x) && Legal(x, e) && r == Next(x, e) && CalmOk(x) && x.phase == Over
    ensures CalmOk(r)
  {
    hide SendSide, RecvSide, PeerOk, NetOk, WritesOk, NextChunk, Numbers, Read, Timeout, Close, PeerTakes;
    assert r.high == x.high && r.phase == Over && (r.late || r.overdue > 0 ==> x.late || x.overdue > 0);
    assert forall i :: 0 <= i < |r.writes| && r.writes[i].places != [] ==> Kept(x, r.writes[i]) by {
      WritesLeft(x, e, r);
    }
    hide Inv, Next, Legal;
    if AllAcknowledged(x) {
      forall i | 0 <= i < |r.writes| && r.writes[i].places != [] ensures Mark(r.writes[i]) <= r.high {
        var j :| 0 <= j < |x.writes| && x.writes[j].places == r.writes[i].places;
      }
    }
  }

  predicate Kept(x: Sys, w: Write) {
    exists j :: 0 <= j < |x.writes| && x.writes[j].places == w.places
  }

  /** On a cleared connection nothing is handed over any more. */
  lemma WritesLeft(x: Sys, e: Event, r: Sys)
    requires OverOk(x) && Legal(x, e) && r == Next(x, e) && x.phase == Over
    ensures forall i :: 0 <= i < |r.writes| && r.writes[i].places != [] ==> Kept(x, r.writes[i])
  {
    hide Read, Timeout, Close, PeerTakes, NextChunk, Numbers;
    forall i | 0 <= i < |r.writes| && r.writes[i].places != [] ensures Kept(x, r.writes[i]) {
      var j := if (e.Offer? || e.WriteReturns? || (e.OfferReturns? && x.c.sendErr != 0)) && i >= e.i then i + 1 else i;
      assert r.writes[i].places == x.writes[j].places;
    }
  }

  /** Whoever clears the connection while a close may yet act finds its FIN sent and nobody
      waiting for an acknowledgement. */
  lemma CalmEnds(x: Sys, e: Event, r: Sys)
    requires Inv(x) && Legal(x, e) && r == Next(x, e) && CalmOk(x) && x.phase != Over && r.phase == Over
    ensures CalmOk(r)
  {
    NextKeeps(x, e, r);
    EndsFields(x, e, r);
    hide RecvSide, PeerOk, NetOk, Next, OverOk;
    if r.overdue > 0 {
      assert x.fin && !x.c.sender;
      forall i | 0 <= i < |r.writes| && r.writes[i].places != [] ensures Mark(r.writes[i]) <= r.high {
        assert Owed(x, x.writes[i]);
      }
    }
  }

  lemma EndsFields(x: Sys, e: Event, r: Sys)
    requires Inv(x) && Legal(x, e) && r == Next(x, e) && x.phase != Over && r.phase == Over
    ensures r.writes == x.writes && x.high <= r.high && r.overdue <= x.overdue && !r.late
  {
    hide RecvSide, PeerOk, NetOk, WritesOk, SendsAll, Recv, Read, NextChunk, Numbers, SendData, Close, Timeout;
    NotClosed(x);
    if e.Deliver? { DeliverFields(x, e.s); }
  }

  lemma CalmLive(x: Sys, e: Event, r: Sys)
    requires Inv(x) && Legal(x, e) && r == Next(x, e) && CalmOk(x) && (e.CloseCall? ==> !x.c.sender)
    requires x.phase != Over && r.phase != Over
    ensures CalmOk(r)
  {
    hide RecvSide, PeerOk, NetOk, WritesOk, SendsAll, Recv, Read, NextChunk, Numbers, SendData, Timeout;
    if e.Deliver? { DeliverFields(x, e.s); }
    if e.CloseCall? { IdleCloses(x); }
  }

  /** With nobody waiting for an acknowledgement a close sends its FIN, unless one is sent. */
  lemma IdleCloses(x: Sys)
    requires Inv(x) && x.phase != Over && !x.c.sender && x.c.state != SynRcvd
    ensures x.fin || Close(x.c).1.Some?
  {
    hide RecvSide, PeerOk, NetOk, WritesOk;
  }

  lemma {:induction false} CalmRun(x: Sys, es: seq<Event>)
    requires Inv(x) && IsRun(x, es) && CalmOk(x) && Patient(x, es)
    ensures CalmOk(Run(x, es))
    decreases |es|
  {
    hide Inv, Next, Legal, CalmOk;
    if es != [] {
      NextKeeps(x, es[0], Next(x, es[0]));
      CalmStep(x, es[0], Next(x, es[0]));
      CalmRun(Next(x, es[0]), es[1..]);
    }
  }

  /** As long as close is called only when no write waits for an acknowledgement, every 0 that
      send_data returns and every n that tcp_conn_write returns is true. */
  lemma PatientVerdicts(iss: int, irs: int, stream: seq<Byte>, es: seq<Event>, i: nat)
    requires IsRun(Start(iss, irs, stream), es) && Patient(Start(iss, irs, stream), es)
    ensures var r := Run(Start(iss, irs, stream), es);
            && (Legal(r, OfferReturns(i)) && r.c.sendErr == 0 ==> Arrived(r, r.writes[i]))
            && (Legal(r, WriteReturns(i)) ==> Arrived(r, r.writes[i]) && |r.writes[i].places| == |r.writes[i].buf|)
  {
    StartInv(iss, irs, stream);
    RunKeeps(Start(iss, irs, stream), es);
    CalmRun(Start(iss, irs, stream), es);
    var r := Run(Start(iss, irs, stream), es);
    hide IsRun, Run, Patient, Arrived;
    if (Legal(r, OfferReturns(i)) && r.c.sendErr == 0) || Legal(r, WriteReturns(i)) {
      CalmVerdict(r, i);
      hide Inv;
      AcknowledgedArrived(r, i);
    }
  }

  lemma CalmVerdict(x: Sys, i: nat)
    requires Inv(x) && CalmOk(x)
    requires (Legal(x, OfferReturns(i)) && x.c.sendErr == 0) || Legal(x, WriteReturns(i))
    ensures i < |x.writes| && (x.writes[i].places == [] || Mark(x.writes[i]) <= x.high)
  {
    hide SendSide, RecvSide, PeerOk, NetOk;
    assert Owed(x, x.writes[i]);
  }
}
