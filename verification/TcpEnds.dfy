/** What goes out and why a connection ends: over every run, exactly which segments are
    answered and how, when a write or a close is let through, and what clears the connection. */
module TcpEnds {
  import opened Config
  import opened TcpSpec
  import opened TcpRuns
  import opened TcpTheorems
  import opened TcpTimes

  // ---- where the peer's FIN leaves a trace ----

  /** The end of the peer's stream, of n bytes, has been taken exactly in CLOSE_WAIT and
      LAST_ACK; once our FIN is out nothing is kept for a reader; no buffer exceeds 536. */
  predicate EndConn(c: Conn, irs: int, n: nat) {
    && (c.eof <==> c.state == CloseWait || c.state == LastAck)
    && (if c.eof then c.rcv == irs + 2 + n else c.rcv <= irs + 1 + n)
    && (FinSent(c) ==> c.rx == []) && |c.tx| <= 536
  }

  predicate EndOk(x: Sys) {
    x.phase != Over ==> EndConn(x.c, x.irs, |x.stream|)
  }

  lemma AckEnd(c: Conn, s: Seg, irs: int, n: nat)
    requires EndConn(c, irs, n)
    ensures TakeAck(c, s).state != Closed ==> EndConn(TakeAck(c, s), irs, n)
  {
  }

  lemma RestEnd(c: Conn, s: Seg, irs: int, stream: seq<Byte>)
    requires EndConn(c, irs, |stream|) && (s.data != [] || s.flags.fin ==> PeerData(s, irs, stream))
    ensures var r := TakeRest(c, s).0; r.state != Closed ==> EndConn(r, irs, |stream|)
  {
  }

  lemma RecvEnd(c: Conn, s: Seg, irs: int, stream: seq<Byte>)
    requires 0 <= c.nxt - c.una && EndConn(c, irs, |stream|)
    requires s.data != [] || s.flags.fin ==> PeerData(s, irs, stream)
    ensures var r := Recv(c, s).0; r.state != Closed ==> EndConn(r, irs, |stream|)
  {
    hide PeerData, TakeAck, TakeRest;
    AckEnd(c, s, irs, |stream|);
    if TakeAck(c, s).state != Closed { RestEnd(TakeAck(c, s), s, irs, stream); }
  }

  lemma PeerSpeaks(x: Sys, s: Seg)
    requires Conforming(x, s)
    ensures s.data != [] || s.flags.fin ==> !s.flags.rst ==> PeerData(s, x.irs, x.stream)
    ensures s.flags.rst ==> s.data == []
    ensures s.flags.syn && !s.flags.rst ==> !s.flags.ack && !s.flags.fin && s.data == []
    ensures !s.flags.syn && !s.flags.rst ==> s.flags.ack && x.iss < s.ack <= x.peer.rcv
  {
    hide Carries;
  }

  lemma EndStep(x: Sys, e: Event, r: Sys)
    requires Inv(x) && Legal(x, e) && r == Next(x, e) && EndOk(x)
    ensures EndOk(r)
  {
    hide SendSide, RecvSide, PeerOk, NetOk, WritesOk, OverOk, EdgeOk, Recv, SendsAll, Carries, Unacked;
    if e.Deliver? { EndDeliver(x, e.s, r); } else { EndElse(x, e, r); }
  }

  lemma EndDeliver(x: Sys, s: Seg, r: Sys)
    requires Inv(x) && Legal(x, Deliver(s)) && r == Next(x, Deliver(s)) && EndOk(x)
    ensures EndOk(r)
  {
    DeliverFields(x, s);
    assert Conforming(x, s);
    PeerSpeaks(x, s);
    hide Inv, Next, Conforming, EndConn, PeerData;
    if s.flags.rst { ResetOnly(x.c, s); } else { RecvEnd(x.c, s, x.irs, x.stream); }
  }

  lemma ResetOnly(c: Conn, s: Seg)
    requires 0 <= c.nxt - c.una && s.flags.rst
    ensures Recv(c, s).1 == [] && (Recv(c, s).0 == c || Recv(c, s).0 == Disconnect(c))
  {
  }

  lemma EndElse(x: Sys, e: Event, r: Sys)
    requires Inv(x) && Legal(x, e) && r == Next(x, e) && EndOk(x) && !e.Deliver?
    ensures EndOk(r)
  {
    hide SendSide, RecvSide, PeerOk, NetOk, WritesOk, OverOk, Unacked, Numbers;
    if x.phase != Over { NotClosed(x); }
  }

  lemma {:induction false} EndRun(x: Sys, es: seq<Event>)
    requires Inv(x) && IsRun(x, es) && EndOk(x)
    ensures EndOk(Run(x, es))
    decreases |es|
  {
    hide Inv, Next, Legal, EndOk;
    if es != [] {
      NextKeeps(x, es[0], Next(x, es[0]));
      EndStep(x, es[0], Next(x, es[0]));
      EndRun(Next(x, es[0]), es[1..]);
    }
  }

  /** What every state of a run has to offer to the theorems below. */
  ghost predicate Reached(x: Sys) {
    Inv(x) && EndOk(x)
  }

  lemma ReachedInRun(iss: int, irs: int, stream: seq<Byte>, es: seq<Event>)
    requires IsRun(Start(iss, irs, stream), es)
    ensures var x := Run(Start(iss, irs, stream), es); Reached(x) && Fixed(Start(iss, irs, stream), x)
  {
    StartInv(iss, irs, stream);
    RunKeeps(Start(iss, irs, stream), es);
    EndRun(Start(iss, irs, stream), es);
  }

  // ---- why a connection ends ----

  /** With s, our FIN is acknowledged. */
  predicate OursDone(x: Sys, s: Seg) {
    x.fin && (x.c.una == x.c.nxt || Completes(x.c, s))
  }

  /** With s, the peer's FIN has been taken: it was before, or s is the next in order and
      carries it. */
  predicate TheirsDone(x: Sys, s: Seg) {
    x.c.eof || (s.flags.fin && s.sq == x.c.rcv && |s.data| <= 2048)
  }

  predicate Clears(x: Sys, e: Event) {
    match e
    case Deliver(s) =>
      if s.flags.rst then x.c.rcv <= s.sq < x.c.rcv + 1072 else OursDone(x, s) && TheirsDone(x, s)
    case TimerActs => x.c.retries == 5
    case CloseActs => true
    case _ => false
  }

  /** A connection ends in four ways and no other: by a reset in the window, by the segment
      that completes the close in both directions, by the sixth time-out in a row, and by a
      close that waited long enough. */
  lemma EndsWhen(iss: int, irs: int, stream: seq<Byte>, es: seq<Event>, e: Event)
    requires IsRun(Start(iss, irs, stream), es)
    requires var x := Run(Start(iss, irs, stream), es); Legal(x, e) && x.phase != Over
    ensures var x := Run(Start(iss, irs, stream), es); Next(x, e).phase == Over <==> Clears(x, e)
  {
    ReachedInRun(iss, irs, stream, es);
    var x := Run(Start(iss, irs, stream), es);
    hide IsRun, Run, Reached, Clears;
    if e.Deliver? { EndsBySegment(x, e.s); } else { EndsElse(x, e); }
  }

  lemma EndsElse(x: Sys, e: Event)
    requires Reached(x) && Legal(x, e) && x.phase != Over && !e.Deliver?
    ensures Next(x, e).phase == Over <==> Clears(x, e)
  {
    hide SendSide, RecvSide, PeerOk, NetOk, WritesOk, OverOk, Unacked, Numbers, NextChunk;
    NotClosed(x);
  }

  lemma EndsBySegment(x: Sys, s: Seg)
    requires Reached(x) && Legal(x, Deliver(s)) && x.phase != Over
    ensures Next(x, Deliver(s)).phase == Over <==> Clears(x, Deliver(s))
  {
    DeliverFields(x, s);
    NotClosed(x);
    assert Conforming(x, s);
    PeerSpeaks(x, s);
    hide Next, NetOk, WritesOk, PeerOk, RecvSide, EdgeOk, Conforming, PeerData, Recv;
    if s.flags.rst { ResetClears(x.c, s); }
    else { BothClear(x.c, s, x.irs, x.stream, x.iss, x.sent, x.fin); }
  }

  lemma ResetClears(c: Conn, s: Seg)
    requires 0 <= c.nxt - c.una && s.flags.rst && c.state != Closed
    ensures Recv(c, s).0.state == Closed <==> c.rcv <= s.sq < c.rcv + 1072
  {
  }

  lemma BothClear(c: Conn, s: Seg, irs: int, stream: seq<Byte>, iss: int, sent: seq<Byte>, fin: bool)
    requires SendSide(c, iss, sent, fin) && EndConn(c, irs, |stream|) && !s.flags.rst
    requires s.data != [] || s.flags.fin ==> PeerData(s, irs, stream)
    requires s.flags.syn ==> !s.flags.ack && !s.flags.fin && s.data == []
    ensures Recv(c, s).0.state == Closed <==>
            && fin && (c.una == c.nxt || Completes(c, s))
            && (c.eof || (s.flags.fin && s.sq == c.rcv && |s.data| <= 2048))
  {
    hide EndsWith, Unacked;
  }

  // ---- what goes out ----

  /** The kinds of segment a connection sends: data only as PSH, at most 536 bytes of it. */
  predicate Header(a: Seg) {
    && (a.flags == SYN_ACK || a.flags == ACK || a.flags == PSH_ACK || a.flags == FIN_ACK)
    && (a.data != [] ==> a.flags == PSH_ACK) && |a.data| <= 536 && 0 <= a.window <= 1072
  }

  /** The number now expected and the window as it now is. */
  predicate UpToDate(c: Conn, a: Seg) {
    a.ack == c.rcv && a.window == if 2048 - |c.rx| < 1072 then 2048 - |c.rx| else 1072
  }

  /** The last word of a step is up to date; that of a connection acknowledges the peer's FIN. */
  ghost predicate GoesOut(x: Sys, r: Sys, out: seq<Seg>) {
    && |out| <= 2 && (forall a :: a in out ==> Header(a))
    && (out != [] && r.phase != Over ==> UpToDate(r.c, out[|out| - 1]))
    && (out != [] && r.phase == Over ==> Farewell(x.irs, |x.stream|, out[|out| - 1]))
  }

  predicate Farewell(irs: int, n: nat, a: Seg) {
    a.flags == ACK && a.ack == irs + 2 + n && a.window == 1072
  }

  lemma OutStep(x: Sys, e: Event, r: Sys)
    requires Reached(x) && Legal(x, e) && r == Next(x, e)
    ensures GoesOut(x, r, Emitted(x, e))
  {
    hide Reached, Recv, GoesOut, Next, Timeout, Close, SendData;
    match e {
      case Deliver(s) => OutDeliver(x, s, r);
      case Offer(i) => OutOffer(x, i, r);
      case CloseCall => OutClose(x, r);
      case TimerActs => OutTimer(x, r);
      case _ => assert GoesOut(x, r, []) by { NothingOut(x, r); }
    }
  }

  lemma NothingOut(x: Sys, r: Sys)
    ensures GoesOut(x, r, [])
  {
  }

  /** A connection as send_new leaves it. */
  lemma SentHeader(c: Conn)
    requires 0 <= c.nxt - c.una && |c.tx| <= 536 && |c.rx| <= 2048
    requires c.flags == SYN_ACK || c.flags == FIN_ACK || c.flags == PSH_ACK
    requires c.flags != PSH_ACK ==> c.tx == []
    ensures Header(Resend(c)) && UpToDate(c, Resend(c))
  {
  }

  lemma OneOut(x: Sys, r: Sys, a: Seg)
    requires Header(a) && UpToDate(r.c, a) && r.phase != Over
    ensures GoesOut(x, r, [a])
  {
  }

  lemma OutOffer(x: Sys, i: nat, r: Sys)
    requires Reached(x) && Legal(x, Offer(i)) && r == Next(x, Offer(i))
    ensures GoesOut(x, r, Emitted(x, Offer(i)))
  {
    hide RecvSide, SendSide, PeerOk, NetOk, WritesOk, Numbers, EdgeOk, Resend, GoesOut, NextChunk, Header, UpToDate;
    if x.phase != Over { NotClosed(x); RingBound(x); }
    var chunk := NextChunk(x.writes[i].buf, |x.writes[i].places|);
    if Emitted(x, Offer(i)) != [] {
      SentHeader(r.c);
      OneOut(x, r, Resend(r.c));
    } else {
      NothingOut(x, r);
    }
  }

  lemma OutClose(x: Sys, r: Sys)
    requires Reached(x) && Legal(x, CloseCall) && r == Next(x, CloseCall)
    ensures GoesOut(x, r, Emitted(x, CloseCall))
  {
    hide RecvSide, SendSide, PeerOk, NetOk, WritesOk, EdgeOk, Resend, GoesOut, Header, UpToDate;
    if x.phase != Over { NotClosed(x); }
    if Emitted(x, CloseCall) != [] {
      SentHeader(r.c);
      OneOut(x, r, Resend(r.c));
    } else {
      NothingOut(x, r);
    }
  }

  lemma OutTimer(x: Sys, r: Sys)
    requires Reached(x) && Legal(x, TimerActs) && r == Next(x, TimerActs)
    ensures GoesOut(x, r, Emitted(x, TimerActs))
  {
    hide RecvSide, PeerOk, NetOk, WritesOk, EdgeOk, Resend, GoesOut, Header, UpToDate, EndsWith;
    if x.phase != Over { NotClosed(x); RingBound(x); }
    if Emitted(x, TimerActs) != [] {
      SentHeader(r.c);
      OneOut(x, r, Resend(r.c));
    } else {
      NothingOut(x, r);
    }
  }

  lemma RingBound(x: Sys)
    requires Inv(x) && x.phase != Over
    ensures |x.c.rx| <= 2048
  {
    hide SendSide, PeerOk, NetOk, WritesOk;
  }

  lemma OutDeliver(x: Sys, s: Seg, r: Sys)
    requires Reached(x) && Legal(x, Deliver(s)) && r == Next(x, Deliver(s))
    ensures GoesOut(x, r, Recv(x.c, s).1)
  {
    DeliverFields(x, s);
    NotClosed(x);
    RingBound(x);
    assert Conforming(x, s);
    PeerSpeaks(x, s);
    hide Next, NetOk, WritesOk, PeerOk, RecvSide, EdgeOk, Conforming, PeerData, Recv, Inv, EndConn, Header, UpToDate;
    if s.flags.rst { ResetOnly(x.c, s); }
    else if s.flags.syn && x.c.state == SynRcvd { SynAnswered(x, s); }
    else { Answers(x.c, s, x.irs, x.stream); }
  }

  lemma SynAnswered(x: Sys, s: Seg)
    requires Reached(x) && x.phase != Over && x.c.state == SynRcvd && s.flags.syn && !s.flags.rst
    ensures |Recv(x.c, s).1| == 1 && Header(Recv(x.c, s).1[0]) && UpToDate(Recv(x.c, s).0, Recv(x.c, s).1[0])
    ensures Recv(x.c, s).0.state != Closed
  {
    SynAnswer(x, s);
  }

  /** In SYN_RCVD the SYN-ACK is what was sent last. */
  lemma SynAnswer(x: Sys, s: Seg)
    requires Reached(x) && x.phase != Over && x.c.state == SynRcvd && s.flags.syn && !s.flags.rst
    ensures Recv(x.c, s) == (x.c, [Seg(x.iss, x.irs + 1, SYN_ACK, [], 1072)])
    ensures x.c.rcv == x.irs + 1 && x.c.rx == []
  {
    hide NetOk, WritesOk, PeerOk, EdgeOk;
  }

  /** What recv answers: plain acknowledgements, the last of them up to date. */
  ghost predicate Answered(c: Conn, r: Conn, out: seq<Seg>, irs: int, n: nat) {
    && |out| <= 2 && (forall a :: a in out ==> Header(a) && a.flags == ACK && a.sq == c.nxt)
    && (out != [] && r.state != Closed ==> UpToDate(r, out[|out| - 1]))
    && (out != [] && r.state == Closed ==> Farewell(irs, n, out[|out| - 1]))
  }

  lemma Answers(c: Conn, s: Seg, irs: int, stream: seq<Byte>)
    requires 0 <= c.nxt - c.una && EndConn(c, irs, |stream|) && !s.flags.rst && !(s.flags.syn && c.state == SynRcvd)
    requires s.data != [] || s.flags.fin ==> PeerData(s, irs, stream)
    requires |c.rx| <= 2048
    ensures Answered(c, Recv(c, s).0, Recv(c, s).1, irs, |stream|)
  {
    hide TakeAck, PeerData, TakeRest, Header, UpToDate;
    AckEnd(c, s, irs, |stream|);
    AckKeeps(c, s);
    if TakeAck(c, s).state != Closed { RestAnswers(TakeAck(c, s), s, irs, stream); }
  }

  lemma AckKeeps(c: Conn, s: Seg)
    ensures var r := TakeAck(c, s); r.state != Closed ==> r.rcv == c.rcv && r.rx == c.rx && r.nxt == c.nxt
  {
  }

  lemma RestAnswers(c: Conn, s: Seg, irs: int, stream: seq<Byte>)
    requires EndConn(c, irs, |stream|) && |c.rx| <= 2048 && c.state != Closed
    requires s.data != [] || s.flags.fin ==> PeerData(s, irs, stream)
    ensures Answered(c, TakeRest(c, s).0, TakeRest(c, s).1, irs, |stream|)
  {
    hide TakeFin;
    if s.data == [] {
      FinAnswers(c, s, irs, stream);
    } else if InOrder(c, s) {
      FinAnswers(TakeData(c, s), s, irs, stream);
    }
  }

  lemma FinAnswers(c: Conn, s: Seg, irs: int, stream: seq<Byte>)
    requires |c.rx| <= 2048 && c.state != Closed && (FinSent(c) ==> c.rx == [])
    requires s.flags.fin ==> PeerData(s, irs, stream) && (s.data != [] ==> c.rcv == s.sq + |s.data|)
    ensures Answered(c, TakeFin(c, s).0, TakeFin(c, s).1, irs, |stream|) && |TakeFin(c, s).1| <= 1
    ensures TakeFin(c, s).1 == [] && TakeFin(c, s).0.state != Closed ==> TakeFin(c, s).0 == c
    ensures TakeFin(c, s).0.state == Closed ==> TakeFin(c, s).1 != []
  {
  }

  /** In every run every segment sent carries an acknowledgement, of the number now expected,
      and offers the room there now is, up to 1072 bytes; the connection's last word
      acknowledges the peer's FIN. */
  lemma WhatGoesOut(iss: int, irs: int, stream: seq<Byte>, es: seq<Event>, e: Event)
    requires IsRun(Start(iss, irs, stream), es) && Legal(Run(Start(iss, irs, stream), es), e)
    ensures var x := Run(Start(iss, irs, stream), es); GoesOut(x, Next(x, e), Emitted(x, e))
  {
    ReachedInRun(iss, irs, stream, es);
    var x := Run(Start(iss, irs, stream), es);
    hide IsRun, Run, Reached, Next, Legal, Emitted, GoesOut;
    OutStep(x, e, Next(x, e));
  }

  /** The peer's SYN come again is answered with the SYN-ACK as it was, until that is
      acknowledged. */
  lemma SynAgain(iss: int, irs: int, stream: seq<Byte>, es: seq<Event>, s: Seg)
    requires IsRun(Start(iss, irs, stream), es) && Legal(Run(Start(iss, irs, stream), es), Deliver(s))
    requires Run(Start(iss, irs, stream), es).c.state == SynRcvd && s.flags.syn && !s.flags.rst
    ensures var x := Run(Start(iss, irs, stream), es);
            Next(x, Deliver(s)).c == x.c && Emitted(x, Deliver(s)) == [Seg(iss, irs + 1, SYN_ACK, [], 1072)]
  {
    ReachedInRun(iss, irs, stream, es);
    var x := Run(Start(iss, irs, stream), es);
    DeliverFields(x, s);
    hide IsRun, Run, Reached, Next;
    SynAnswer(x, s);
  }

  // ---- which segments are answered ----

  /** The segments that use up no number and are not a repeated SYN, and resets, are not
      answered; nor is the last acknowledgement, nor a FIN that comes in order while our own
      is not acknowledged: the peer has to send that one again. */
  predicate Unanswered(x: Sys, s: Seg) {
    || s.flags.rst
    || (s.data == [] && !s.flags.fin && !(s.flags.syn && x.c.state == SynRcvd))
    || (x.c.state == LastAck && Completes(x.c, s))
    || (x.c.state == FinWait1 && !Completes(x.c, s) && s.flags.fin && s.data == [] && s.sq == x.c.rcv)
  }

  lemma AnsweredWhen(iss: int, irs: int, stream: seq<Byte>, es: seq<Event>, s: Seg)
    requires IsRun(Start(iss, irs, stream), es) && Legal(Run(Start(iss, irs, stream), es), Deliver(s))
    ensures var x := Run(Start(iss, irs, stream), es); Emitted(x, Deliver(s)) == [] <==> Unanswered(x, s)
  {
    ReachedInRun(iss, irs, stream, es);
    var x := Run(Start(iss, irs, stream), es);
    hide IsRun, Run;
    NotClosed(x);
    assert Conforming(x, s);
    PeerSpeaks(x, s);
    hide NetOk, WritesOk, RecvSide, EdgeOk, Conforming, PeerData, Recv, Unanswered;
    if s.flags.rst {
      ResetOnly(x.c, s);
      assert Unanswered(x, s) by { Mute(x, s); }
    } else if s.flags.syn && x.c.state == SynRcvd {
      SynAnswer(x, s);
      assert !Unanswered(x, s) by { Loud(x, s); }
    } else {
      AnsweredRest(x, s);
    }
  }

  lemma Mute(x: Sys, s: Seg)
    requires s.flags.rst
    ensures Unanswered(x, s)
  {
  }

  lemma Loud(x: Sys, s: Seg)
    requires !s.flags.rst && s.flags.syn && x.c.state == SynRcvd && !s.flags.fin
    ensures !Unanswered(x, s)
  {
  }

  lemma AnsweredRest(x: Sys, s: Seg)
    requires Reached(x) && x.phase != Over && Conforming(x, s) && !s.flags.rst && !(s.flags.syn && x.c.state == SynRcvd)
    ensures Recv(x.c, s).1 == [] <==> Unanswered(x, s)
  {
    hide NetOk, WritesOk, EdgeOk, EndsWith, RecvSide;
  }

  // ---- acknowledgements ----

  /** Every acknowledgement of something outstanding counts, however little of it, and takes
      effect at once; an older one never does. */
  lemma AckMoves(iss: int, irs: int, stream: seq<Byte>, es: seq<Event>, s: Seg)
    requires IsRun(Start(iss, irs, stream), es) && Legal(Run(Start(iss, irs, stream), es), Deliver(s))
    requires Next(Run(Start(iss, irs, stream), es), Deliver(s)).phase != Over
    ensures var x := Run(Start(iss, irs, stream), es); var r := Next(x, Deliver(s));
            && r.c.una == (if s.flags.ack && !s.flags.rst && s.ack > x.c.una then s.ack else x.c.una)
            && r.c.nxt == x.c.nxt
  {
    ReachedInRun(iss, irs, stream, es);
    var x := Run(Start(iss, irs, stream), es);
    DeliverFields(x, s);
    NotClosed(x);
    assert Conforming(x, s);
    PeerSpeaks(x, s);
    hide IsRun, Run, Next, NetOk, WritesOk, RecvSide, EdgeOk, Conforming, PeerData, Recv;
    UnaAfter(x.c, s);
  }

  // ---- writes, closes and reads ----

  /** Nothing of ours is outstanding and no FIN has been sent. */
  predicate MaySend(x: Sys) {
    x.phase != Over && !x.fin && x.c.una == x.c.nxt
  }

  /** A chunk of a write is sent, at the next number, exactly when everything before it is
      acknowledged and no close has sent its FIN; every chunk but the last is of 536 bytes. */
  lemma ChunkSent(iss: int, irs: int, stream: seq<Byte>, es: seq<Event>, i: nat)
    requires IsRun(Start(iss, irs, stream), es) && Legal(Run(Start(iss, irs, stream), es), Offer(i))
    ensures var x := Run(Start(iss, irs, stream), es); var w := x.writes[i];
            var k := if |w.buf| - |w.places| < 536 then |w.buf| else |w.places| + 536;
            if MaySend(x) then
              && |Emitted(x, Offer(i))| == 1
              && var a := Emitted(x, Offer(i))[0];
              a.sq == x.c.nxt && a.flags == PSH_ACK && a.data == w.buf[|w.places|..k]
            else Emitted(x, Offer(i)) == []
  {
    ReachedInRun(iss, irs, stream, es);
    var x := Run(Start(iss, irs, stream), es);
    hide IsRun, Run, RecvSide, NetOk, WritesOk, PeerOk, EdgeOk, EndsWith;
    if x.phase != Over { NotClosed(x); }
  }

  /** A close sends its FIN, at the next number, exactly when the same holds. */
  lemma FinIsSent(iss: int, irs: int, stream: seq<Byte>, es: seq<Event>)
    requires IsRun(Start(iss, irs, stream), es) && Legal(Run(Start(iss, irs, stream), es), CloseCall)
    ensures var x := Run(Start(iss, irs, stream), es);
            Emitted(x, CloseCall) == if MaySend(x) then [Seg(x.c.nxt, x.c.rcv, FIN_ACK, [], 1072)] else []
  {
    ReachedInRun(iss, irs, stream, es);
    var x := Run(Start(iss, irs, stream), es);
    hide IsRun, Run, RecvSide, NetOk, WritesOk, PeerOk, EdgeOk, EndsWith;
    if x.phase != Over { NotClosed(x); }
  }

  /** A read returns at once exactly when bytes acknowledged to the peer are not yet read, or
      the peer's FIN has been taken, or the connection is gone. */
  lemma ReadReturns(iss: int, irs: int, stream: seq<Byte>, es: seq<Event>, n: nat)
    requires IsRun(Start(iss, irs, stream), es) && Run(Start(iss, irs, stream), es).phase != Closing
    ensures var x := Run(Start(iss, irs, stream), es);
            Legal(x, ReadCall(n)) <==> x.phase == Over || |x.got| < Taken(x.c, irs) || x.c.rcv == irs + 2 + |stream|
  {
    ReachedInRun(iss, irs, stream, es);
    var x := Run(Start(iss, irs, stream), es);
    hide IsRun, Run, NetOk, WritesOk, PeerOk, EdgeOk, SendSide, OverOk;
    NotClosedIffLive(x);
    if x.phase != Over { assert |x.got + x.c.rx| == Taken(x.c, irs); }
  }

  /** What it then returns is all that is unread, up to the n bytes asked for: the next ones of
      the peer's stream. */
  lemma ReadGets(iss: int, irs: int, stream: seq<Byte>, es: seq<Event>, n: nat)
    requires IsRun(Start(iss, irs, stream), es) && Legal(Run(Start(iss, irs, stream), es), ReadCall(n))
    requires Run(Start(iss, irs, stream), es).phase == Live
    ensures var x := Run(Start(iss, irs, stream), es); var (c, bytes, k) := Read(x.c, n);
            var unread := Taken(x.c, irs) - |x.got|;
            && k == |bytes| == (if n < unread then n else unread)
            && |x.got| + k <= |stream| && bytes == stream[|x.got|..|x.got| + k]
  {
    ReachedInRun(iss, irs, stream, es);
    var x := Run(Start(iss, irs, stream), es);
    hide IsRun, Run, NetOk, WritesOk, PeerOk, EdgeOk, SendSide, OverOk, RecvSide, Read, ReadBlocks, Taken;
    NotClosedIffLive(x);
    ReadBytes(x.c, n, irs, stream, x.got);
  }

  lemma ReadBytes(c: Conn, n: nat, irs: int, stream: seq<Byte>, got: seq<Byte>)
    requires RecvSide(c, irs, stream, got, false) && !ReadBlocks(c) && c.state != Closed
    ensures var (r, bytes, k) := Read(c, n); var unread := Taken(c, irs) - |got|;
            && k == |bytes| == (if n < unread then n else unread)
            && |got| + k <= |stream| && bytes == stream[|got|..|got| + k]
  {
    NextBytes(got, c.rx, stream, Taken(c, irs), if n < |c.rx| then n else |c.rx|);
  }

  lemma NextBytes(got: seq<Byte>, rx: seq<Byte>, stream: seq<Byte>, t: int, k: nat)
    requires 0 <= t <= |stream| && got + rx == stream[..t] && k <= |rx|
    ensures |rx| == t - |got| && rx[..k] == stream[|got|..|got| + k]
  {
    assert rx == (got + rx)[|got|..];
    assert |got + rx| == t;
  }

  // ---- refusals ----

  /** What LISTEN answers to a segment of a connection it knows nothing of clears that
      connection at its sender: the reset carries the number the segment acknowledged, which is
      the one its sender expects next. */
  lemma RefusalClears(d: Conn, c: Conn, a: Seg)
    requires 0 <= d.nxt - d.una && UpToDate(d, a)
    ensures Recv(d, Refuse(c, a)) == (Disconnect(d), [])
    ensures Refuse(c, a).ack == 0 && Refuse(c, a).data == [] && Refuse(c, a).flags.rst
  {
  }
}
