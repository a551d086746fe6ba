/** Nothing stays stuck: data is answered, a retransmission is complete, and a blocked write
    finishes once the network lets a segment each way through. */
module TcpProgress {
  import opened Config
  import opened TcpSpec
  import opened TcpRuns
  import opened TcpTheorems
  import opened TcpMishaps

  // ---- answers ----

  /** recv goes on to the data of s. */
  predicate GoesOnTo(c: Conn, s: Seg) {
    !s.flags.rst && !(s.flags.syn && c.state == SynRcvd) && TakeAck(c, s).state != Closed
  }

  /** Every segment with data is answered at once with the number expected next: behind the
      data if it was in order and fitted, unchanged otherwise. A FIN in order counts as one
      number more. */
  lemma AnswersData(c: Conn, s: Seg)
    requires 0 <= c.nxt - c.una && s.data != [] && GoesOnTo(c, s)
    ensures var (r, out) := Recv(c, s);
            && out != [] && out[0].data == [] && out[0].flags == ACK && out[0].sq == c.nxt
            && out[0].ack == (if InOrder(c, s) then c.rcv + |s.data| else c.rcv)
    ensures var (r, out) := Recv(c, s);
            s.flags.fin && InOrder(c, s) && TakeAck(c, s).state in {Established, FinWait2} ==>
              |out| == 2 && out[1].ack == c.rcv + |s.data| + 1
  {
    AckLeaves(c, s);
    hide TakeAck;
  }

  lemma AckLeaves(c: Conn, s: Seg)
    ensures var r := TakeAck(c, s);
            r.state != Closed ==> r.rcv == c.rcv && r.rx == c.rx && r.nxt == c.nxt && r.eof == c.eof
  {
  }

  /** A FIN without data is answered with the number behind it when it is in order, and with
      the number still expected when it is not. */
  lemma AnswersFin(c: Conn, s: Seg)
    requires 0 <= c.nxt - c.una && s.data == [] && s.flags.fin && GoesOnTo(c, s)
    ensures var out := Recv(c, s).1;
            && (s.sq != c.rcv ==> |out| == 1 && out[0].ack == c.rcv)
            && (s.sq == c.rcv && TakeAck(c, s).state in {Established, FinWait2} ==>
                  |out| == 1 && out[0].ack == c.rcv + 1)
  {
    AckLeaves(c, s);
    hide TakeAck;
  }

  // ---- retransmission ----

  /** A retransmission carries everything the peer has not acknowledged: the rest of the
      buffer, or the SYN or FIN. */
  lemma ResendWhole(c: Conn, iss: int, sent: seq<Byte>, fin: bool)
    requires SendSide(c, iss, sent, fin) && c.una < c.nxt
    ensures var s := Resend(c);
            && s.sq == c.una
            && (c.sender ==> s.data == sent[c.una - iss - 1..])
            && (!c.sender ==> s.flags.syn || s.flags.fin)
  {
    if c.flags == PSH_ACK {
      SuffixOf(sent, c.tx, c.nxt - c.una);
    }
  }

  lemma SuffixOf(sent: seq<Byte>, tail: seq<Byte>, n: int)
    requires EndsWith(sent, tail) && 0 <= n <= |tail|
    ensures tail[|tail| - n..] == sent[|sent| - n..]
  {
  }

  // ---- a blocked write ----

  /** The retransmission gets through and so does the answer. */
  lemma Finishes(x: Sys) returns (es: seq<Event>)
    requires Inv(x) && x.phase != Over && x.c.sender && x.c.retries < MAX_RETRIES && x.edge > x.irs
    ensures IsRun(x, es) && Acknowledged(Run(x, es), x)
  {
    NotClosed(x);
    Outstanding(x);
    hide Inv;
    var armed, expired := x.(timer := Armed), x.(timer := Expired);
    es := ActsThenAnswers(expired, x);
    assert Legal(armed, TimerExpires) && Next(armed, TimerExpires) == expired;
    assert x.timer == Parked ==> Legal(x, TimerArms) && Next(x, TimerArms) == armed;
    hide IsRun, Run, Acknowledged, Next, Legal;
    if x.timer != Expired {
      Before(armed, TimerExpires, es);
      es := [TimerExpires] + es;
    }
    if x.timer == Parked {
      Before(x, TimerArms, es);
      es := [TimerArms] + es;
    }
  }

  /** The wait of the timer has run out: it acts, and the answer to what it sends comes. */
  lemma ActsThenAnswers(expired: Sys, x: Sys) returns (es: seq<Event>)
    requires Inv(x) && x.phase != Over && x.c.sender && x.c.retries < MAX_RETRIES && x.edge > x.irs
    requires expired == x.(timer := Expired)
    ensures IsRun(expired, es) && Acknowledged(Run(expired, es), x)
  {
    NotClosed(x);
    Outstanding(x);
    hide Inv, Unacked;
    var c := Timeout(x.c).0;
    var resent := Sends(x.(c := c, timer := Parked), Resend(c));
    assert Legal(expired, TimerActs) && Next(expired, TimerActs) == resent;
    SameResend(x.c, c);
    hide Resend;
    es := AnswerFollows(resent, Resend(c));
    hide IsRun, Run, Next, Legal;
    Before(expired, TimerActs, es);
    es := [TimerActs] + es;
  }

  lemma Outstanding(x: Sys)
    requires Inv(x) && x.phase != Over && x.c.sender
    ensures x.c.una < x.c.nxt && x.iss < x.c.una <= x.peer.rcv <= x.c.nxt && !x.peer.fin
        && x.c.state in {Established, CloseWait}
    ensures x.c.nxt == x.iss + 1 + |x.sent|
    ensures Resend(x.c).sq == x.c.una && |Resend(x.c).data| == x.c.nxt - x.c.una && Resend(x.c).flags == PSH_ACK
  {
    hide RecvSide, NetOk, WritesOk;
    ResendWhole(x.c, x.iss, x.sent, x.fin);
  }

  /** Everything written up to x is acknowledged and the writer told so. */
  predicate Acknowledged(r: Sys, x: Sys) {
    !r.c.sender && r.c.sendErr == 0 && r.high == x.c.nxt == r.c.una && r.sent == x.sent && r.phase == x.phase
        && r.peer.rcv == x.c.nxt
  }

  lemma AnswerFollows(x: Sys, s: Seg) returns (es: seq<Event>)
    requires x.phase != Over && s in x.out && x.edge > x.irs && x.c.sender && x.c.state in {Established, CloseWait}
    requires x.iss < x.c.una < x.c.nxt && x.c.una <= x.peer.rcv <= x.c.nxt && !x.peer.fin
    requires s.sq == x.c.una && |s.data| == x.c.nxt - x.c.una && s.flags == PSH_ACK
    ensures IsRun(x, es) && Acknowledged(Run(x, es), x)
  {
    var got := Next(x, PeerGets(s));
    assert got == x.(peer := got.peer) && got.peer.rcv == x.c.nxt;
    var ack := Seg(x.irs + 1, x.c.nxt, ACK, [], 0);
    assert Legal(got, PeerSends(ack));
    var told := got.(inn := got.inn + {ack});
    var r := Next(told, Deliver(ack));
    Told(told, ack, r);
    hide Next, Legal, Acknowledged, IsRun, Run;
    Nothing(r);
    es := SendThen(got, ack, []);
    Before(x, PeerGets(s), es);
    es := [PeerGets(s)] + es;
  }

  lemma Told(x: Sys, ack: Seg, r: Sys)
    requires x.phase != Over && x.c.sender && x.c.state in {Established, CloseWait} && x.c.una < x.c.nxt
        && x.peer.rcv == x.c.nxt
    requires ack in x.inn && ack == Seg(x.irs + 1, x.c.nxt, ACK, [], 0) && r == Next(x, Deliver(ack))
    ensures Acknowledged(r, x)
  {
  }

  /** In every reachable state with a write blocked and a retry left there is a way on that
      ends with the write acknowledged whole: no interplay of losses, repeats and reordering
      leads into a state from which a write cannot finish. */
  lemma WriteCanFinish(iss: int, irs: int, stream: seq<Byte>, es: seq<Event>)
    requires IsRun(Start(iss, irs, stream), es)
    requires var x := Run(Start(iss, irs, stream), es); x.phase != Over && x.c.sender && x.c.retries < MAX_RETRIES
    ensures var x := Run(Start(iss, irs, stream), es); exists more :: IsRun(x, more) && Acknowledged(Run(x, more), x)
  {
    var x := Run(Start(iss, irs, stream), es);
    StartInv(iss, irs, stream);
    RunKeeps(Start(iss, irs, stream), es);
    EdgeRun(Start(iss, irs, stream), es);
    hide Inv, IsRun, Run, Acknowledged;
    var more := Finishes(x);
    assert IsRun(x, more) && Acknowledged(Run(x, more), x);
  }
}
