/** Time-outs over whole runs: each wait is twice as long as the one before, they are counted
    from the last new transmission, and the sixth in a row clears the connection. */
module TcpRetries {
  import opened Config
  import opened TcpSpec
  import opened TcpRuns
  import opened TcpTheorems

  /** Something goes out for the first time: numbers of ours are used up. */
  predicate SendsNew(x: Sys, e: Event)
    requires Legal(x, e)
  {
    Next(x, e).phase != Over && Next(x, e).c.nxt != x.c.nxt
  }

  /** How often the timer has acted since something last went out for the first time; n for
      the past. */
  function Repeats(x: Sys, es: seq<Event>, n: nat): nat
    requires IsRun(x, es)
    decreases |es|
  {
    if es == [] then n else Repeats(Next(x, es[0]), es[1..], RepeatsNow(x, es[0], n))
  }

  function RepeatsNow(x: Sys, e: Event, n: nat): nat
    requires Legal(x, e)
  {
    if SendsNew(x, e) then 0 else if e.TimerActs? then n + 1 else n
  }

  predicate BacksOff(x: Sys, n: nat) {
    x.phase != Over ==> x.c.retries == n && x.c.rto == 1000 * Pow2(n)
  }

  lemma BackoffStep(x: Sys, e: Event, r: Sys, n: nat)
    requires Inv(x) && Legal(x, e) && r == Next(x, e) && BacksOff(x, n)
    ensures BacksOff(r, RepeatsNow(x, e, n))
  {
    hide SendSide, RecvSide, PeerOk, NetOk, WritesOk, OverOk, EdgeOk, Recv, SendsAll, Carries, Unacked;
    match e {
      case Deliver(s) => BackoffDeliver(x, s, r, n);
      case Offer(i) => BackoffSends(x, e, r, n);
      case CloseCall => BackoffSends(x, e, r, n);
      case TimerActs => BackoffTimer(x, r, n);
      case _ =>
    }
  }

  lemma BackoffDeliver(x: Sys, s: Seg, r: Sys, n: nat)
    requires Inv(x) && Legal(x, Deliver(s)) && r == Next(x, Deliver(s)) && BacksOff(x, n)
    ensures BacksOff(r, RepeatsNow(x, Deliver(s), n))
  {
    DeliverFields(x, s);
    hide Inv, Next;
    TimesKept(x.c, s);
    hide Recv;
  }

  /** recv starts nothing new and leaves the timer's numbers alone. */
  lemma TimesKept(c: Conn, s: Seg)
    requires 0 <= c.nxt - c.una
    ensures var r := Recv(c, s).0; r.state != Closed ==> r.nxt == c.nxt && r.retries == c.retries && r.rto == c.rto
  {
    AckTimes(c, s);
    RestTimes(TakeAck(c, s), s);
    hide TakeAck, TakeRest;
  }

  lemma AckTimes(c: Conn, s: Seg)
    ensures var r := TakeAck(c, s); r.state != Closed ==> r.nxt == c.nxt && r.retries == c.retries && r.rto == c.rto
  {
  }

  lemma RestTimes(c: Conn, s: Seg)
    ensures var r := TakeRest(c, s).0; r.state != Closed ==> r.nxt == c.nxt && r.retries == c.retries && r.rto == c.rto
  {
  }

  lemma BackoffSends(x: Sys, e: Event, r: Sys, n: nat)
    requires Inv(x) && Legal(x, e) && r == Next(x, e) && BacksOff(x, n) && (e.Offer? || e.CloseCall?)
    ensures BacksOff(r, RepeatsNow(x, e, n))
  {
    hide SendSide, RecvSide, PeerOk, NetOk, WritesOk, OverOk, NextChunk, Numbers, Unacked;
    assert Pow2(0) == 1;
    if x.phase != Over { NotClosed(x); }
  }

  lemma BackoffTimer(x: Sys, r: Sys, n: nat)
    requires Inv(x) && Legal(x, TimerActs) && r == Next(x, TimerActs) && BacksOff(x, n)
    ensures BacksOff(r, RepeatsNow(x, TimerActs, n))
  {
    hide SendSide, RecvSide, PeerOk, NetOk, WritesOk, Unacked;
    assert Pow2(n + 1) == 2 * Pow2(n);
    if x.phase != Over { NotClosed(x); }
  }

  lemma {:induction false} BackoffRun(x: Sys, es: seq<Event>, n: nat)
    requires Inv(x) && IsRun(x, es) && BacksOff(x, n)
    ensures BacksOff(Run(x, es), Repeats(x, es, n))
    decreases |es|
  {
    hide Inv, Next, Legal, BacksOff, RepeatsNow;
    if es != [] {
      NextKeeps(x, es[0], Next(x, es[0]));
      BackoffStep(x, es[0], Next(x, es[0]), n);
      BackoffRun(Next(x, es[0]), es[1..], RepeatsNow(x, es[0], n));
    }
  }

  /** In every run, as long as the connection is there, the time-out is one second doubled
      once for every time the timer has acted since something last went out for the first
      time, which is at most five times, and so always far below the 2^31 ticks that the sleep
      list can tell apart. */
  lemma TimeoutDoubles(iss: int, irs: int, stream: seq<Byte>, es: seq<Event>)
    requires IsRun(Start(iss, irs, stream), es) && Run(Start(iss, irs, stream), es).phase != Over
    ensures var n := Repeats(Start(iss, irs, stream), es, 0);
            n <= 5 && Run(Start(iss, irs, stream), es).c.rto == 1000 * Pow2(n) <= 32000 < TWO31
  {
    var x := Run(Start(iss, irs, stream), es);
    StartInv(iss, irs, stream);
    RunKeeps(Start(iss, irs, stream), es);
    assert BacksOff(Start(iss, irs, stream), 0) by { assert Pow2(0) == 1; }
    BackoffRun(Start(iss, irs, stream), es, 0);
    assert TimesOk(x);
    hide Inv, IsRun, Run, Repeats;
    PowersUpTo5(x.c.retries);
  }

  lemma PowersUpTo5(n: nat)
    requires n <= 5
    ensures Pow2(n) <= 32
  {
    assert Pow2(1) == 2 && Pow2(3) == 4 * Pow2(1) && Pow2(5) == 4 * Pow2(3);
    assert Pow2(2) == 2 * Pow2(1) && Pow2(4) == 2 * Pow2(3);
  }

  /** When a wait has run out, the timer sends once more everything that is not acknowledged
      and waits twice as long; the sixth time in a row, and no other, it clears the
      connection. */
  lemma SixthClears(iss: int, irs: int, stream: seq<Byte>, es: seq<Event>)
    requires IsRun(Start(iss, irs, stream), es)
    requires var x := Run(Start(iss, irs, stream), es); Legal(x, TimerActs) && x.phase != Over
    ensures var x := Run(Start(iss, irs, stream), es); var r := Next(x, TimerActs);
            var n := Repeats(Start(iss, irs, stream), es, 0);
            if n == 5 then r.phase == Over && Emitted(x, TimerActs) == []
            else r.phase == x.phase && Emitted(x, TimerActs) == [Resend(x.c)] && r.c.rto == 2 * x.c.rto
  {
    var x := Run(Start(iss, irs, stream), es);
    StartInv(iss, irs, stream);
    RunKeeps(Start(iss, irs, stream), es);
    assert BacksOff(Start(iss, irs, stream), 0) by { assert Pow2(0) == 1; }
    BackoffRun(Start(iss, irs, stream), es, 0);
    hide IsRun, Run, Repeats;
    ActsByRetries(x);
  }

  lemma ActsByRetries(x: Sys)
    requires Inv(x) && Legal(x, TimerActs) && x.phase != Over
    ensures var r := Next(x, TimerActs);
            if x.c.retries == 5 then r.phase == Over && Emitted(x, TimerActs) == []
            else r.phase == x.phase && Emitted(x, TimerActs) == [Resend(x.c)] && r.c.rto == 2 * x.c.rto
  {
    hide SendSide, RecvSide, PeerOk, NetOk, WritesOk, EdgeOk;
    NotClosed(x);
    hide Unacked, Resend;
    SameResend(x.c, x.c.(retries := x.c.retries + 1, rto := x.c.rto * 2));
  }
}
