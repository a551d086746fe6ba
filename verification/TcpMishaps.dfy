/** Runs in which the late waits of TcpTimes do their harm. */
module TcpMishaps {
  import opened Config
  import opened TcpSpec
  import opened TcpRuns
  import opened TcpTheorems
  import opened TcpTimes

  // ---- putting runs together ----

  lemma Nothing(x: Sys)
    ensures IsRun(x, []) && Run(x, []) == x
  {
  }

  lemma Before(x: Sys, e: Event, es: seq<Event>)
    requires Legal(x, e) && IsRun(Next(x, e), es)
    ensures IsRun(x, [e] + es) && Run(x, [e] + es) == Run(Next(x, e), es)
  {
    hide Next, Legal;
    assert ([e] + es)[0] == e && ([e] + es)[1..] == es;
  }

  /** The peer sends s, and s is delivered. */
  lemma SendThen(x: Sys, s: Seg, rest: seq<Event>) returns (es: seq<Event>)
    requires Legal(x, PeerSends(s)) && Legal(x.(inn := x.inn + {s}), Deliver(s))
    requires IsRun(Next(x.(inn := x.inn + {s}), Deliver(s)), rest)
    ensures IsRun(x, es) && Run(x, es) == Run(Next(x.(inn := x.inn + {s}), Deliver(s)), rest)
  {
    hide IsRun, Run;
    var sent := x.(inn := x.inn + {s});
    Before(sent, Deliver(s), rest);
    assert Next(x, PeerSends(s)) == sent;
    Before(x, PeerSends(s), [Deliver(s)] + rest);
    es := [PeerSends(s)] + ([Deliver(s)] + rest);
  }

  // ---- an idle connection cleared by its timer ----

  /** The timer is about to clear a connection with nothing outstanding. */
  predicate Answered(x: Sys) {
    x.phase == Live && x.c.una == x.c.nxt && Legal(x, TimerActs) && Next(x, TimerActs).phase == Over
  }

  /** The peer has our SYN, its acknowledgement has not come in and the timer is not armed. */
  predicate Waiting(x: Sys) {
    && x.phase == Live && x.timer == Parked && x.peer.rcv == x.iss + 1 && x.edge > x.irs
    && x.c == Open(RESET.(state := Listen), x.irs, x.iss).0.(retries := x.c.retries, rto := x.c.rto)
    && 0 <= x.c.retries <= MAX_RETRIES && x.high == x.iss && x.writes == []
  }

  /** The acknowledgement of our SYN. */
  function SynAck(x: Sys): Seg {
    Seg(x.irs + 1, x.iss + 1, ACK, [], 0)
  }

  lemma AckArrives(x: Sys)
    requires Waiting(x.(timer := Parked)) && SynAck(x) in x.inn
    ensures Legal(x, Deliver(SynAck(x)))
    ensures Next(x, Deliver(SynAck(x))) ==
              x.(c := x.c.(una := x.iss + 1, state := Established), high := x.iss + 1, timer := Signalled(x.timer))
  {
  }

  lemma {:induction false} RetriesRunOut(x: Sys) returns (es: seq<Event>)
    requires Waiting(x)
    ensures IsRun(x, es) && Answered(Run(x, es))
    decreases MAX_RETRIES - x.c.retries
  {
    var armed := x.(timer := Armed);
    var expired := x.(timer := Expired);
    assert Legal(x, TimerArms) && Next(x, TimerArms) == armed && Next(armed, TimerExpires) == expired;
    if x.c.retries < MAX_RETRIES {
      es := RetriesRunOut(Next(expired, TimerActs));
      hide Answered, Waiting;
      Before(expired, TimerActs, es);
      es := [TimerActs] + es;
    } else {
      es := AnswerLate(expired);
    }
    hide Answered, Waiting, IsRun, Run;
    Before(armed, TimerExpires, es);
    Before(x, TimerArms, [TimerExpires] + es);
    es := [TimerArms] + ([TimerExpires] + es);
  }

  lemma AnswerLate(x: Sys) returns (es: seq<Event>)
    requires Waiting(x.(timer := Parked)) && x.timer == Expired && x.c.retries == MAX_RETRIES
    ensures IsRun(x, es) && Answered(Run(x, es))
  {
    var sent := x.(inn := x.inn + {SynAck(x)});
    AckArrives(sent);
    var r := Next(sent, Deliver(SynAck(x)));
    assert Answered(r) && Legal(x, PeerSends(SynAck(x)));
    hide Answered, Waiting, IsRun, Run, Next, Legal;
    Nothing(r);
    es := SendThen(x, SynAck(x), []);
  }

  function OurSyn(iss: int, irs: int): Seg {
    Open(RESET.(state := Listen), irs, iss).1
  }

  function SynTaken(iss: int, irs: int, stream: seq<Byte>): (r: Sys)
    ensures Waiting(r)
  {
    Start(iss, irs, stream).(peer := Peer(iss + 1, [], false))
  }

  lemma TakesSyn(iss: int, irs: int, stream: seq<Byte>)
    ensures Legal(Start(iss, irs, stream), PeerGets(OurSyn(iss, irs)))
    ensures Next(Start(iss, irs, stream), PeerGets(OurSyn(iss, irs))) == SynTaken(iss, irs, stream)
  {
  }

  /** It does happen: on every connection, five lost answers and a sixth that comes in between
      the end of the timer's wait and its acting are enough. */
  lemma AnsweredYetCleared(iss: int, irs: int, stream: seq<Byte>)
    ensures exists es :: IsRun(Start(iss, irs, stream), es) && Answered(Run(Start(iss, irs, stream), es))
  {
    var x := Start(iss, irs, stream);
    var es := RetriesRunOut(SynTaken(iss, irs, stream));
    TakesSyn(iss, irs, stream);
    hide Answered, Next, Legal, IsRun, Run;
    Before(x, PeerGets(OurSyn(iss, irs)), es);
  }

  // ---- a writer misled by a close ----

  /** A writer about to be told that its bytes were acknowledged when they were not. */
  predicate Misled(x: Sys, i: nat) {
    Legal(x, OfferReturns(i)) && x.c.sendErr == 0 && x.writes[i].places != [] && Mark(x.writes[i]) > x.high
  }

  /** Somebody waits inside send_data whenever the connection says so. */
  ghost predicate HasWriter(x: Sys) {
    x.c.sender ==> exists i :: 0 <= i < |x.writes| && Waits(x, x.writes[i])
  }

  predicate Waits(x: Sys, w: Write) {
    w.blocked && w.places != [] && Mark(w) == x.c.nxt
  }

  lemma WriterStep(x: Sys, e: Event, r: Sys)
    requires Inv(x) && Legal(x, e) && r == Next(x, e) && HasWriter(x)
    ensures HasWriter(r)
  {
    NextKeeps(x, e, r);
    if r.c.sender {
      if e.Offer? && Connected(x.c) && x.c.una == x.c.nxt { WriterOffers(x, e.i, r); }
      else { WriterStays(x, e, r); }
    }
  }

  lemma WriterOffers(x: Sys, i: nat, r: Sys)
    requires Legal(x, Offer(i)) && Connected(x.c) && x.c.una == x.c.nxt && r == Next(x, Offer(i))
    ensures HasWriter(r)
  {
    assert Waits(r, r.writes[i]);
  }

  lemma WriterStays(x: Sys, e: Event, r: Sys)
    requires Inv(x) && Inv(r) && Legal(x, e) && r == Next(x, e) && HasWriter(x) && r.c.sender
    requires !(e.Offer? && Connected(x.c) && x.c.una == x.c.nxt)
    ensures HasWriter(r)
  {
    SenderWas(x, e, r);
    var i :| 0 <= i < |x.writes| && Waits(x, x.writes[i]);
    hide Inv, HasWriter;
    WriteSurvives(x, e, r, i);
    assert HasWriter(r) by {
      var j :| 0 <= j < |r.writes| && r.writes[j] == x.writes[i];
      assert Waits(r, r.writes[j]);
      SomeWaits(r, j);
    }
  }

  lemma SomeWaits(r: Sys, j: nat)
    requires j < |r.writes| && Waits(r, r.writes[j])
    ensures HasWriter(r)
  {
  }

  /** Only send_data sets the sender, and while it is set nothing new is sent. */
  lemma SenderWas(x: Sys, e: Event, r: Sys)
    requires Inv(x) && Inv(r) && Legal(x, e) && r == Next(x, e) && r.c.sender
    requires !(e.Offer? && Connected(x.c) && x.c.una == x.c.nxt)
    ensures x.c.sender && r.c.nxt == x.c.nxt
  {
    hide RecvSide, PeerOk, NetOk, WritesOk, SendsAll, Recv, NextChunk, Numbers, PeerTakes;
    if e.Deliver? {
      SenderAfter(x.c, e.s);
      DeliverFields(x, e.s);
      NotClosed(x);
    }
  }

  lemma SenderAfter(c: Conn, s: Seg)
    requires 0 <= c.nxt - c.una
    ensures var r := Recv(c, s).0; r.sender ==> c.sender && r.nxt == c.nxt
  {
    AckSender(c, s);
    RestSender(TakeAck(c, s), s);
    hide TakeAck, TakeRest;
  }

  lemma AckSender(c: Conn, s: Seg)
    ensures var r := TakeAck(c, s); r.sender ==> c.sender && r.nxt == c.nxt
  {
  }

  lemma RestSender(c: Conn, s: Seg)
    ensures var r := TakeRest(c, s).0; r.sender ==> c.sender && r.nxt == c.nxt
  {
  }

  /** A waiting write does not go away while the connection has a sender. */
  lemma WriteSurvives(x: Sys, e: Event, r: Sys, i: nat)
    requires Legal(x, e) && r == Next(x, e) && x.c.sender && i < |x.writes| && x.writes[i].blocked
    requires !(e.Offer? && Connected(x.c) && x.c.una == x.c.nxt)
    ensures exists j :: 0 <= j < |r.writes| && r.writes[j] == x.writes[i]
  {
    hide SendsAll, Recv, NextChunk, Numbers, PeerTakes, Close, Timeout, Read;
    if e.Deliver? { DeliverFields(x, e.s); }
    var j := if (e.Offer? || e.WriteReturns?) && e.i < i then i - 1 else i;
    assert r.writes[j] == x.writes[i];
  }

  lemma {:induction false} WriterRun(x: Sys, es: seq<Event>)
    requires Inv(x) && IsRun(x, es) && HasWriter(x)
    ensures HasWriter(Run(x, es))
    decreases |es|
  {
    hide Inv, Next, Legal, HasWriter;
    if es != [] {
      NextKeeps(x, es[0], Next(x, es[0]));
      WriterStep(x, es[0], Next(x, es[0]));
      WriterRun(Next(x, es[0]), es[1..]);
    }
  }

  /** What close and the network need of a state to mislead the writer of write i. */
  predicate Exposed(x: Sys, i: nat) {
    && x.phase != Over && x.c.sender && x.c.state in {Established, CloseWait} && x.high == x.c.una < x.c.nxt
    && i < |x.writes| && x.writes[i].blocked && x.writes[i].places != [] && Mark(x.writes[i]) == x.c.nxt
  }

  /** close is called, its wait runs out, and before it acts the peer resets the connection. */
  lemma CloseMisleads(x: Sys, i: nat) returns (es: seq<Event>)
    requires Exposed(x, i)
    ensures IsRun(x, [CloseCall] + es) && Misled(Run(x, [CloseCall] + es), i)
  {
    var y := x.(c := x.c.(rx := []), phase := Closing, waiting := x.waiting + 1);
    assert Next(x, CloseCall) == y;
    var z := y.(waiting := x.waiting, overdue := x.overdue + 1);
    assert Next(y, CloseExpires) == z;
    es := ResetMisleads(z, i);
    hide Next, Misled, IsRun, Run, Exposed;
    Before(y, CloseExpires, es);
    es := [CloseExpires] + es;
    Before(x, CloseCall, es);
  }

  lemma ResetMisleads(x: Sys, i: nat) returns (es: seq<Event>)
    requires Exposed(x, i) && x.overdue > 0
    ensures IsRun(x, es) && Misled(Run(x, es), i)
  {
    var reset := Seg(x.c.rcv, 0, RST, [], 0);
    var sent := x.(inn := x.inn + {reset});
    var gone := Next(sent, Deliver(reset));
    assert gone == sent.(c := Disconnect(x.c), phase := Over, waiting := 0);
    var last := Next(gone, CloseActs);
    assert Misled(last, i);
    hide Next, Misled, IsRun, Run;
    Nothing(last);
    Before(gone, CloseActs, []);
    es := SendThen(x, reset, [CloseActs] + []);
  }

  /** The condition of PatientVerdicts cannot be given up anywhere: from every reachable state
      in which a write waits for its acknowledgement, calling close can lead to that write
      being told that its bytes were acknowledged when they were not. */
  lemma ImpatientMisleads(iss: int, irs: int, stream: seq<Byte>, es: seq<Event>)
    requires IsRun(Start(iss, irs, stream), es)
    requires var x := Run(Start(iss, irs, stream), es); x.phase != Over && x.c.sender
    ensures var x := Run(Start(iss, irs, stream), es);
            exists more: seq<Event>, i: nat :: IsRun(x, [CloseCall] + more) && Misled(Run(x, [CloseCall] + more), i)
  {
    var x := Run(Start(iss, irs, stream), es);
    StartInv(iss, irs, stream);
    RunKeeps(Start(iss, irs, stream), es);
    WriterRun(Start(iss, irs, stream), es);
    hide IsRun, Run, Misled;
    var i: nat :| i < |x.writes| && Waits(x, x.writes[i]);
    SenderExposed(x, i);
    hide Inv;
    var more := CloseMisleads(x, i);
  }

  lemma SenderExposed(x: Sys, i: nat)
    requires Inv(x) && x.phase != Over && x.c.sender && i < |x.writes| && Waits(x, x.writes[i])
    ensures Exposed(x, i)
  {
    hide RecvSide, PeerOk, NetOk, WritesOk;
  }

  /** A tcp_conn_write about to return n for bytes that were not acknowledged. */
  predicate Lying(x: Sys, i: nat) {
    Legal(x, WriteReturns(i)) && x.writes[i].places != [] && Mark(x.writes[i]) > x.high
  }

  /** It does happen on every connection, to the whole of a one-byte write. */
  lemma WriterMisled(iss: int, irs: int, stream: seq<Byte>, b: Byte)
    ensures exists es :: IsRun(Start(iss, irs, stream), es) && Lying(Run(Start(iss, irs, stream), es), 0)
  {
    var x := SynTaken(iss, irs, stream);
    var sent := x.(inn := x.inn + {SynAck(x)});
    AckArrives(sent);
    var es := ByteLost(Next(sent, Deliver(SynAck(x))), b);
    assert Legal(x, PeerSends(SynAck(x)));
    hide IsRun, Run;
    es := SendThen(x, SynAck(x), es);
    TakesSyn(iss, irs, stream);
    hide Lying, Next, Legal;
    Before(Start(iss, irs, stream), PeerGets(OurSyn(iss, irs)), es);
  }

  lemma ByteLost(x: Sys, b: Byte) returns (es: seq<Event>)
    requires x.phase == Live && x.c.state == Established && x.c.una == x.c.nxt == x.high && x.writes == []
    ensures IsRun(x, es) && Lying(Run(x, es), 0)
  {
    var y := Next(x, WriteCall([b]));
    assert y.writes == [Write([b], [], false)];
    assert NextChunk([b], 0) == [b] && [] + Numbers(x.c.nxt, 1) == [x.c.nxt];
    var z := Next(y, Offer(0));
    assert z.writes == [Write([b], [x.c.nxt], true)] && Exposed(z, 0);
    var more := CloseThenLies(z, b);
    hide Next, Lying, Exposed, IsRun, Run;
    Before(y, Offer(0), more);
    Before(x, WriteCall([b]), [Offer(0)] + more);
    es := [WriteCall([b])] + ([Offer(0)] + more);
  }

  lemma CloseThenLies(x: Sys, b: Byte) returns (es: seq<Event>)
    requires Exposed(x, 0) && |x.writes| == 1 && x.writes[0].buf == [b] && |x.writes[0].places| == 1
    ensures IsRun(x, es) && Lying(Run(x, es), 0)
  {
    var y := x.(c := x.c.(rx := []), phase := Closing, waiting := x.waiting + 1);
    assert Next(x, CloseCall) == y;
    var z := y.(waiting := x.waiting, overdue := x.overdue + 1);
    assert Next(y, CloseExpires) == z;
    es := ResetLies(z, b);
    hide Next, Lying, IsRun, Run, Exposed;
    Before(y, CloseExpires, es);
    es := [CloseExpires] + es;
    Before(x, CloseCall, es);
    es := [CloseCall] + es;
  }

  lemma ResetLies(x: Sys, b: Byte) returns (es: seq<Event>)
    requires Exposed(x, 0) && x.overdue > 0 && |x.writes| == 1 && x.writes[0].buf == [b] && |x.writes[0].places| == 1
    ensures IsRun(x, es) && Lying(Run(x, es), 0)
  {
    var reset := Seg(x.c.rcv, 0, RST, [], 0);
    var sent := x.(inn := x.inn + {reset});
    var gone := Next(sent, Deliver(reset));
    assert gone == sent.(c := Disconnect(x.c), phase := Over, waiting := 0);
    var wiped := Next(gone, CloseActs);
    var last := Next(wiped, OfferReturns(0));
    assert Lying(last, 0);
    hide Next, Lying, IsRun, Run;
    Nothing(last);
    Before(wiped, OfferReturns(0), []);
    Before(gone, CloseActs, [OfferReturns(0)] + []);
    es := SendThen(x, reset, [CloseActs] + ([OfferReturns(0)] + []));
  }

  // ---- the acknowledgement that 32-bit numbers misread ----

  /** An open connection with everything acknowledged and the acknowledgement of our SYN still
      in the network. */
  predicate Settled(x: Sys) {
    && x.phase == Live && x.c.state == Established && x.writes == [] && x.edge > x.irs
    && x.c.una == x.c.nxt == x.high == x.peer.rcv == x.iss + 1 + |x.sent| && !x.peer.fin && !x.c.sender
    && SynAck(x) in x.inn && (x.sent != [] ==> x.c.flags == PSH_ACK && 0 < |x.c.tx| <= MSS && x.c.retries == 0)
  }

  /** buf has been offered and is on its way. */
  function Sent(x: Sys, buf: seq<Byte>): Sys
    requires 0 < |buf| <= MSS
  {
    var c := x.c.(flags := PSH_ACK, tx := buf, retries := 0, rto := RTO_INITIAL, sender := true,
                  nxt := x.c.nxt + |buf|);
    var s := Emit(x.c, x.c.una, PSH_ACK, buf);
    Sends(x.(c := c, sent := x.sent + buf, writes := [Write(buf, Numbers(x.c.nxt, |buf|), true)],
             timer := Signalled(x.timer)), s)
  }

  lemma WriteSends(x: Sys, buf: seq<Byte>)
    requires Settled(x) && 0 < |buf| <= MSS
    ensures Legal(Next(x, WriteCall(buf)), Offer(0)) && Next(Next(x, WriteCall(buf)), Offer(0)) == Sent(x, buf)
  {
    var y := Next(x, WriteCall(buf));
    assert y.writes == [Write(buf, [], false)];
    assert NextChunk(buf, 0) == buf && [] + Numbers(x.c.nxt, |buf|) == Numbers(x.c.nxt, |buf|);
    var w := Write(buf, Numbers(x.c.nxt, |buf|), true);
    assert [Write(buf, [], false)][0 := w] == [w];
  }

  /** The peer gets the chunk and acknowledges it, and the write returns. */
  function Acked(x: Sys, buf: seq<Byte>): Sys
    requires 0 < |buf| <= MSS
  {
    var y := Sent(x, buf);
    var ack := Seg(x.irs + 1, y.c.nxt, ACK, [], 0);
    y.(peer := Peer(y.c.nxt, x.peer.got + buf, false), inn := x.inn + {ack}, high := y.c.nxt, writes := [],
       c := y.c.(una := y.c.nxt, sender := false, sendErr := 0), timer := Signalled(y.timer))
  }

  lemma OneWrite(x: Sys, buf: seq<Byte>) returns (es: seq<Event>)
    requires Settled(x) && 0 < |buf| <= MSS
    ensures IsRun(x, es) && Run(x, es) == Acked(x, buf)
  {
    var y := Sent(x, buf);
    var s := Emit(x.c, x.c.una, PSH_ACK, buf);
    PeerTakesBuf(x, buf);
    es := AnswerComes(x, y.(peer := Peer(y.c.nxt, x.peer.got + buf, false)), buf);
    WriteSends(x, buf);
    hide Next, Legal, Sent, Acked, IsRun, Run, Settled;
    Before(y, PeerGets(s), es);
    es := [PeerGets(s)] + es;
    Before(Next(x, WriteCall(buf)), Offer(0), es);
    es := [Offer(0)] + es;
    Before(x, WriteCall(buf), es);
    es := [WriteCall(buf)] + es;
  }

  lemma AnswerComes(x: Sys, got: Sys, buf: seq<Byte>) returns (es: seq<Event>)
    requires Settled(x) && 0 < |buf| <= MSS
    requires got == Sent(x, buf).(peer := Peer(Sent(x, buf).c.nxt, x.peer.got + buf, false))
    ensures IsRun(got, es) && Run(got, es) == Acked(x, buf)
  {
    var ack := Seg(x.irs + 1, got.c.nxt, ACK, [], 0);
    assert Legal(got, PeerSends(ack));
    var told := got.(inn := x.inn + {ack});
    var back := told.(high := got.c.nxt, c := got.c.(una := got.c.nxt, sender := false, sendErr := 0),
                      timer := Signalled(got.timer));
    AckTaken(told, ack, back);
    WriteEnds(back, buf, Acked(x, buf));
    hide Next, Legal, Sent, Acked, IsRun, Run, Settled;
    Nothing(Acked(x, buf));
    Before(Next(back, OfferReturns(0)), WriteReturns(0), []);
    Before(back, OfferReturns(0), [WriteReturns(0)] + []);
    es := SendThen(got, ack, [OfferReturns(0)] + ([WriteReturns(0)] + []));
  }

  /** send_data returns 0 and tcp_conn_write returns. */
  lemma WriteEnds(x: Sys, buf: seq<Byte>, r: Sys)
    requires x.writes == [Write(buf, Numbers(x.c.nxt - |buf|, |buf|), true)] && !x.c.sender && x.c.sendErr == 0
    requires r == x.(writes := [])
    ensures Legal(x, OfferReturns(0)) && Legal(Next(x, OfferReturns(0)), WriteReturns(0))
    ensures Next(Next(x, OfferReturns(0)), WriteReturns(0)) == r
  {
  }

  lemma PeerTakesBuf(x: Sys, buf: seq<Byte>)
    requires Settled(x) && 0 < |buf| <= MSS
    ensures var y, s := Sent(x, buf), Emit(x.c, x.c.una, PSH_ACK, buf);
            Legal(y, PeerGets(s)) && Next(y, PeerGets(s)) == y.(peer := Peer(y.c.nxt, x.peer.got + buf, false))
  {
    assert buf[0..] == buf;
  }

  lemma AckTaken(x: Sys, ack: Seg, r: Sys)
    requires x.phase == Live && x.c.state == Established && x.c.sender && x.c.una < x.c.nxt && ack in x.inn
    requires ack == Seg(x.irs + 1, x.c.nxt, ACK, [], 0)
    requires r == x.(high := x.c.nxt, c := x.c.(una := x.c.nxt, sender := false, sendErr := 0),
                     timer := Signalled(x.timer))
    ensures Legal(x, Deliver(ack)) && Next(x, Deliver(ack)) == r
  {
  }

  /** n writes of 512 bytes, each acknowledged. */
  lemma {:induction false} ManyWrites(x: Sys, n: nat) returns (es: seq<Event>)
    requires Settled(x)
    ensures IsRun(x, es) && Settled(Run(x, es)) && |Run(x, es).sent| == |x.sent| + 512 * n
    ensures Run(x, es).iss == x.iss
    decreases n
  {
    if n == 0 {
      es := [];
    } else {
      var buf := seq(512, _ => 0);
      var one := OneWrite(x, buf);
      var y := Acked(x, buf);
      assert Settled(y) && |y.sent| == |x.sent| + 512;
      hide Settled, Acked;
      var more := ManyWrites(y, n - 1);
      RunsJoin(x, one, more);
      es := one + more;
    }
  }

  lemma {:induction false} RunsJoin(x: Sys, a: seq<Event>, b: seq<Event>)
    requires IsRun(x, a) && IsRun(Run(x, a), b)
    ensures IsRun(x, a + b) && Run(x, a + b) == Run(Run(x, a), b)
    decreases |a|
  {
    hide Next, Legal;
    if a == [] {
      assert a + b == b;
    } else {
      RunsJoin(Next(x, a[0]), a[1..], b);
      assert (a + b)[1..] == a[1..] + b;
    }
  }

  /** The code takes s for what it is not, and harm follows. */
  predicate Misreads(c: Conn, s: Seg) {
    && Connected(c) && !c.sender && c.flags == PSH_ACK && 0 < |c.tx| <= MSS && c.retries < MAX_RETRIES
    && LooksAtAck(c, s) && Misread(c, s)
  }

  /** For every connection there is a run, of 2^31 bytes written and acknowledged, after which
      the first acknowledgement the peer ever sent, come in late once more, is the one the code
      misreads. */
  lemma MisreadHappens(iss: int, irs: int, stream: seq<Byte>)
    ensures exists es ::
              && IsRun(Start(iss, irs, stream), es)
              && var x := Run(Start(iss, irs, stream), es);
                 Legal(x, Deliver(SynAck(x))) && Misreads(x.c, SynAck(x))
  {
    var start, x := Start(iss, irs, stream), SynTaken(iss, irs, stream);
    var open := x.(inn := x.inn + {SynAck(x)});
    AckArrives(open);
    var y := Next(open, Deliver(SynAck(x)));
    assert Settled(y) && y.sent == [] && Legal(x, PeerSends(SynAck(x)));
    var more := ManyWrites(y, TWO31 / 512);
    SettledMisreads(Run(y, more));
    TakesSyn(iss, irs, stream);
    hide Settled, Next, Legal, IsRun, Run, Misreads, SynAck;
    var es := SendThen(x, SynAck(x), more);
    Before(start, PeerGets(OurSyn(iss, irs)), es);
  }

  lemma SettledMisreads(x: Sys)
    requires Settled(x) && |x.sent| == TWO31
    ensures Legal(x, Deliver(SynAck(x))) && Misreads(x.c, SynAck(x))
  {
  }
}
