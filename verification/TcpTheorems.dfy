/** What the connection promises its readers, its writers and its peer, over every run. */
module TcpTheorems {
  import opened Config
  import opened TcpSpec
  import opened TcpRuns

  /** Our answer to the peer's SYN is on its way. */
  function Start(iss: int, irs: int, stream: seq<Byte>): Sys {
    var (c, s) := Open(RESET.(state := Listen), irs, iss);
    Sys(c, iss, irs, stream, Live, false, {s}, {}, {}, Peer(iss, [], false), [], [], iss, s.ack + s.window,
        [], Parked, 0, 0, false)
  }

  lemma StartInv(iss: int, irs: int, stream: seq<Byte>)
    ensures Inv(Start(iss, irs, stream))
  {
  }

  predicate IsRun(x: Sys, es: seq<Event>)
    decreases |es|
  {
    es == [] || (Legal(x, es[0]) && IsRun(Next(x, es[0]), es[1..]))
  }

  function Run(x: Sys, es: seq<Event>): Sys
    requires IsRun(x, es)
    decreases |es|
  {
    if es == [] then x else Run(Next(x, es[0]), es[1..])
  }

  lemma {:induction false} RunKeeps(x: Sys, es: seq<Event>)
    requires Inv(x) && IsRun(x, es)
    ensures Inv(Run(x, es)) && Fixed(x, Run(x, es))
    decreases |es|
  {
    hide Inv, Next, Legal;
    if es != [] {
      NextKeeps(x, es[0], Next(x, es[0]));
      StaysFixed(x, es[0]);
      RunKeeps(Next(x, es[0]), es[1..]);
    }
  }

  predicate Fixed(x: Sys, r: Sys) {
    r.iss == x.iss && r.irs == x.irs && r.stream == x.stream
  }

  lemma StaysFixed(x: Sys, e: Event)
    requires Legal(x, e)
    ensures Fixed(x, Next(x, e))
  {
    hide Recv, SendsAll, SendData, Close, Timeout, Read;
    if e.Deliver? { DeliverFields(x, e.s); }
  }

  /** What a delivery touches: not the peer, the network towards us or the writers. */
  lemma DeliverFields(x: Sys, s: Seg)
    requires Legal(x, Deliver(s))
    ensures var (c, segs) := Recv(x.c, s); var r := Next(x, Deliver(s));
            && r == x.(c := c, out := r.out, edge := r.edge, high := if Counts(x.c, s) then s.ack else x.high,
                       timer := if Completes(x.c, s) then Signalled(x.timer) else x.timer,
                       phase := if c.state == Closed then Over else x.phase,
                       waiting := if c.state == Closed then 0 else x.waiting)
            && x.edge <= r.edge && (forall a :: a in r.out <==> a in x.out || a in segs)
            && (r.edge == x.edge || exists a :: a in segs && r.edge == a.ack + a.window)
            && (forall a :: a in segs ==> a.ack + a.window <= r.edge)
  {
    hide Recv, SendsAll;
    SendsFields(x.(c := Recv(x.c, s).0, high := if Counts(x.c, s) then s.ack else x.high,
                   timer := if Completes(x.c, s) then Signalled(x.timer) else x.timer), Recv(x.c, s).1);
  }

  // ---- for readers ----

  /** What has been read is always a prefix of the peer's stream. Until close or a disconnect
      every byte acknowledged to the peer has been read or is in the ring, in order. */
  lemma ReadsInOrder(iss: int, irs: int, stream: seq<Byte>, es: seq<Event>)
    requires IsRun(Start(iss, irs, stream), es)
    ensures var r := Run(Start(iss, irs, stream), es);
            && r.got <= stream
            && (r.phase == Live ==>
                  && 0 <= Taken(r.c, irs) <= |stream| && |r.c.rx| <= RING
                  && r.got + r.c.rx == stream[..Taken(r.c, irs)])
  {
    StartInv(iss, irs, stream);
    RunKeeps(Start(iss, irs, stream), es);
    hide SendSide, NetOk, WritesOk, PeerOk;
  }

  /** A read of n > 0 bytes returns 0 only when the whole stream up to the FIN has been read,
      and -1 only once the connection is gone; otherwise it returns bytes. */
  lemma ReadVerdict(iss: int, irs: int, stream: seq<Byte>, es: seq<Event>, n: nat)
    requires IsRun(Start(iss, irs, stream), es) && n > 0
    requires Legal(Run(Start(iss, irs, stream), es), ReadCall(n))
    ensures var r := Run(Start(iss, irs, stream), es); var (c, bytes, k) := Read(r.c, n);
            && (k == 0 ==> r.phase == Live && r.got == stream)
            && (k == -1 <==> r.phase == Over)
            && (k > 0 ==> k == |bytes| <= n && r.got + bytes <= stream)
  {
    StartInv(iss, irs, stream);
    RunKeeps(Start(iss, irs, stream), es);
    hide Inv, IsRun, Run, Read, Legal;
    VerdictIn(Run(Start(iss, irs, stream), es), n);
  }

  lemma VerdictIn(x: Sys, n: nat)
    requires Inv(x) && n > 0 && Legal(x, ReadCall(n))
    ensures var (c, bytes, k) := Read(x.c, n);
            && (k == 0 ==> x.phase == Live && x.got == x.stream)
            && (k == -1 <==> x.phase == Over)
            && (k > 0 ==> k == |bytes| <= n && x.got + bytes <= x.stream)
  {
    NotClosedIffLive(x);
    if x.phase == Over {
      GoneRead(x, n);
    } else {
      assert RecvSide(x.c, x.irs, x.stream, x.got, false) by { hide SendSide, NetOk, WritesOk, PeerOk; }
      hide Inv, Read;
      LiveRead(x.c, n, x.irs, x.stream, x.got);
    }
  }

  lemma GoneRead(x: Sys, n: nat)
    requires Inv(x) && x.phase == Over
    ensures Read(x.c, n) == (x.c, [], -1)
  {
    hide NetOk, WritesOk, PeerOk;
  }

  lemma LiveRead(c: Conn, n: nat, irs: int, stream: seq<Byte>, got: seq<Byte>)
    requires RecvSide(c, irs, stream, got, false) && !ReadBlocks(c) && c.state != Closed && n > 0
    ensures var (r, bytes, k) := Read(c, n);
            && (k == 0 ==> got == stream) && k >= 0
            && (k > 0 ==> k == |bytes| <= n && got + bytes <= stream)
  {
    var t := Taken(c, irs);
    hide Taken;
    if c.rx == [] {
      assert got + [] == got && stream[..|stream|] == stream;
    } else {
      PrefixRead(got, c.rx, if n > |c.rx| then |c.rx| else n, stream, t);
    }
  }

  /** What is read next extends what was read before to a longer prefix. */
  lemma PrefixRead(got: seq<Byte>, rx: seq<Byte>, k: nat, stream: seq<Byte>, t: nat)
    requires k <= |rx| && t <= |stream| && got + rx == stream[..t]
    ensures got + rx[..k] <= stream
  {
    assert got + rx[..k] == (got + rx)[..|got| + k];
    assert stream[..t][..|got| + k] == stream[..|got| + k];
  }

  lemma NotClosedIffLive(x: Sys)
    requires Inv(x)
    ensures x.c.state == Closed <==> x.phase == Over
  {
    if x.phase != Over { NotClosed(x); }
  }

  // ---- for writers ----

  /** Every byte we ever put on the wire, first time or again after any partial
      acknowledgement, is the byte of the write buffers that belongs at its number; what the
      peer has put together is a prefix of what was written. */
  lemma SendsRightBytes(iss: int, irs: int, stream: seq<Byte>, es: seq<Event>, s: Seg)
    requires IsRun(Start(iss, irs, stream), es) && s in Run(Start(iss, irs, stream), es).out && s.data != []
    ensures var r := Run(Start(iss, irs, stream), es);
            Carries(s.data, s.sq, iss + 1, r.sent) && r.peer.got <= r.sent
  {
    hide Inv, IsRun, Carries, Next, Legal;
    StartInv(iss, irs, stream);
    RunKeeps(Start(iss, irs, stream), es);
    OurBytes(Run(Start(iss, irs, stream), es), s);
  }

  lemma OurBytes(x: Sys, s: Seg)
    requires Inv(x) && s in x.out && s.data != []
    ensures Carries(s.data, s.sq, x.iss + 1, x.sent) && x.peer.got <= x.sent
  {
    hide SendSide, RecvSide, WritesOk, Carries;
    assert OurSeg(x, s);
  }

  /** A chunk whose send_data returns 0 has been acknowledged whole, and the peer has it,
      provided no close acted on a connection already cleared. */
  lemma WriteAcknowledged(iss: int, irs: int, stream: seq<Byte>, es: seq<Event>, i: nat)
    requires IsRun(Start(iss, irs, stream), es) && Legal(Run(Start(iss, irs, stream), es), OfferReturns(i))
    requires Run(Start(iss, irs, stream), es).c.sendErr == 0 && !Run(Start(iss, irs, stream), es).late
    ensures var r := Run(Start(iss, irs, stream), es); Arrived(r, r.writes[i])
  {
    StartInv(iss, irs, stream);
    RunKeeps(Start(iss, irs, stream), es);
    var r := Run(Start(iss, irs, stream), es);
    hide Inv, Arrived;
    OfferVerdict(r, i);
    AcknowledgedArrived(r, i);
  }

  /** tcp_conn_write has returned n: however long the buffer, whatever other processes wrote
      between its chunks, each of its n bytes was acknowledged and is in what the peer has put
      together, at the number it was sent at and in order, provided no close acted on a
      connection already cleared. */
  lemma WholeWrite(iss: int, irs: int, stream: seq<Byte>, es: seq<Event>, i: nat)
    requires IsRun(Start(iss, irs, stream), es) && Legal(Run(Start(iss, irs, stream), es), WriteReturns(i))
    requires !Run(Start(iss, irs, stream), es).late
    ensures var r := Run(Start(iss, irs, stream), es);
            |r.writes[i].places| == |r.writes[i].buf| && Arrived(r, r.writes[i])
  {
    StartInv(iss, irs, stream);
    RunKeeps(Start(iss, irs, stream), es);
    var r := Run(Start(iss, irs, stream), es);
    ReturnedMark(r, i);
    hide Inv, Arrived;
    AcknowledgedArrived(r, i);
  }

  lemma ReturnedMark(x: Sys, i: nat)
    requires Inv(x) && Legal(x, WriteReturns(i)) && !x.late
    ensures x.writes[i].places == [] || Mark(x.writes[i]) <= x.high
  {
    hide SendSide, RecvSide, PeerOk, NetOk;
    assert Owed(x, x.writes[i]);
  }

  /** Every byte handed over has been acknowledged, and the peer has it where it belongs. */
  predicate Arrived(x: Sys, w: Write) {
    && |w.places| <= |w.buf|
    && (forall j :: 0 <= j < |w.places| ==>
          && x.iss < w.places[j] < x.high <= x.peer.rcv && w.places[j] - x.iss - 1 < |x.peer.got|
          && x.peer.got[w.places[j] - x.iss - 1] == w.buf[j])
    && (forall j, k :: 0 <= j < k < |w.places| ==> w.places[j] < w.places[k])
  }

  lemma AcknowledgedArrived(x: Sys, i: nat)
    requires Inv(x) && i < |x.writes| && (x.writes[i].places == [] || Mark(x.writes[i]) <= x.high)
    ensures Arrived(x, x.writes[i])
  {
    hide SendSide, RecvSide, NetOk;
    var w := x.writes[i];
    assert Placed(w, x.iss, x.sent);
    assert PeerOk(x);
    hide Inv, WritesOk;
    forall j | 0 <= j < |w.places| ensures w.places[j] < x.high {
      assert j == |w.places| - 1 || w.places[j] < w.places[|w.places| - 1];
    }
  }

  /** A retransmission reads the write buffer only while its writer is still blocked. */
  lemma ResendNeedsWriter(iss: int, irs: int, stream: seq<Byte>, es: seq<Event>)
    requires IsRun(Start(iss, irs, stream), es)
    ensures var c := Run(Start(iss, irs, stream), es).c;
            0 <= c.nxt - c.una && (Unacked(c) != [] ==> c.sender)
  {
    StartInv(iss, irs, stream);
    RunKeeps(Start(iss, irs, stream), es);
    var r := Run(Start(iss, irs, stream), es);
    hide RecvSide, NetOk, WritesOk, PeerOk;
    if r.phase != Over { ResendSound(r.c, r.iss, r.sent, r.fin); }
  }

  // ---- for the peer ----

  /** Whatever recv sends offers at least as much as any segment before it. */
  lemma EdgeInAnswers(c: Conn, s: Seg, edge: int, a: Seg)
    requires 0 <= c.nxt - c.una && EdgeOk(c, edge) && a in Recv(c, s).1
    ensures a.ack + a.window >= edge
  {
  }

  /** The same for everything else that sends: writes, close and retransmissions. */
  lemma EdgeElsewhere(c: Conn, buf: seq<Byte>, edge: int)
    requires 0 <= c.nxt - c.una && EdgeOk(c, edge)
    ensures var s := SendData(c, buf).1; s.Some? ==> s.value.ack + s.value.window >= edge
    ensures var s := Close(c).1; s.Some? ==> s.value.ack + s.value.window >= edge
    ensures var s := Timeout(c).1; s.Some? ==> s.value.ack + s.value.window >= edge
  {
  }

  predicate Within(x: Sys) {
    forall b :: b in x.out ==> b.ack + b.window <= x.edge
  }

  function AsSeq(s: Option<Seg>): seq<Seg> {
    if s.Some? then [s.value] else []
  }

  /** What an event sends to the peer. */
  function Emitted(x: Sys, e: Event): seq<Seg>
    requires Legal(x, e)
  {
    match e
    case Deliver(s) => Recv(x.c, s).1
    case Offer(i) => AsSeq(SendData(x.c, NextChunk(x.writes[i].buf, |x.writes[i].places|)).1)
    case CloseCall => if x.phase == Over then [] else AsSeq(Close(x.c).1)
    case TimerActs => if x.phase == Over then [] else AsSeq(Timeout(x.c).1)
    case _ => []
  }

  /** One step: all of it goes out and nothing else does, and it reaches as far as everything
      before it. */
  ghost predicate Reaches(x: Sys, r: Sys, sent: seq<Seg>) {
    && (forall a :: a in r.out <==> a in x.out || a in sent)
    && (forall a :: a in sent ==> x.edge <= a.ack + a.window <= r.edge)
    && x.edge <= r.edge
  }

  lemma EdgeStep(x: Sys, e: Event, r: Sys)
    requires Inv(x) && Legal(x, e) && r == Next(x, e)
    ensures Reaches(x, r, Emitted(x, e))
  {
    hide SendSide, RecvSide, PeerOk, NetOk, WritesOk, OverOk, SendsAll, Recv, SendData, Close, Timeout, Read;
    match e {
      case Deliver(s) => EdgeDeliver(x, s, r);
      case Offer(i) => EdgeOffer(x, i, r);
      case CloseCall => EdgeTimed(x, e, r);
      case TimerActs => EdgeTimed(x, e, r);
      case _ =>
    }
  }

  lemma EdgeTimed(x: Sys, e: Event, r: Sys)
    requires Inv(x) && Legal(x, e) && r == Next(x, e) && (e.CloseCall? || e.TimerActs?)
    ensures Reaches(x, r, Emitted(x, e))
  {
    hide SendSide, RecvSide, PeerOk, NetOk, WritesOk, OverOk, Unacked;
    if x.phase != Over {
      NotClosed(x);
      EdgeElsewhere(x.c, [], x.edge);
    }
  }

  lemma EdgeDeliver(x: Sys, s: Seg, r: Sys)
    requires Inv(x) && Legal(x, Deliver(s)) && r == Next(x, Deliver(s))
    ensures Reaches(x, r, Recv(x.c, s).1)
  {
    DeliverFields(x, s);
    assert EdgeOk(x.c, x.edge);
    hide Inv, Next, Recv;
    forall a | a in Recv(x.c, s).1 ensures a.ack + a.window >= x.edge { EdgeInAnswers(x.c, s, x.edge, a); }
  }

  lemma EdgeOffer(x: Sys, i: nat, r: Sys)
    requires Inv(x) && Legal(x, Offer(i)) && r == Next(x, Offer(i))
    ensures Reaches(x, r, Emitted(x, Offer(i)))
  {
    hide SendSide, RecvSide, PeerOk, NetOk, WritesOk, Numbers, NextChunk;
    var chunk := NextChunk(x.writes[i].buf, |x.writes[i].places|);
    if x.phase != Over {
      NotClosed(x);
      EdgeElsewhere(x.c, chunk, x.edge);
      hide SendData;
    }
  }

  lemma {:induction false} EdgeRun(x: Sys, es: seq<Event>)
    requires Inv(x) && IsRun(x, es) && Within(x)
    ensures Within(Run(x, es)) && x.edge <= Run(x, es).edge
    decreases |es|
  {
    hide Inv, Next, Legal, Emitted;
    if es != [] {
      NextKeeps(x, es[0], Next(x, es[0]));
      EdgeStep(x, es[0], Next(x, es[0]));
      EdgeRun(Next(x, es[0]), es[1..]);
    }
  }

  /** The right window edge never moves left: in every run, whatever goes out offers at least
      as much as every segment that went out before it. */
  lemma EdgeNeverLeft(iss: int, irs: int, stream: seq<Byte>, es: seq<Event>, e: Event, a: Seg, b: Seg)
    requires IsRun(Start(iss, irs, stream), es) && Legal(Run(Start(iss, irs, stream), es), e)
    requires var x := Run(Start(iss, irs, stream), es); a in Emitted(x, e) && b in x.out
    ensures a.ack + a.window >= b.ack + b.window
  {
    var x := Run(Start(iss, irs, stream), es);
    StartInv(iss, irs, stream);
    RunKeeps(Start(iss, irs, stream), es);
    EdgeRun(Start(iss, irs, stream), es);
    hide Inv, Next, Legal, IsRun, Run, Emitted;
    EdgeStep(x, e, Next(x, e));
  }

  /** What the timer sends once the connection is cleared is empty, carries no flags and no
      acknowledgement, and goes to the cleared address. */
  lemma StraysAreEmpty(iss: int, irs: int, stream: seq<Byte>, es: seq<Event>, a: Seg)
    requires IsRun(Start(iss, irs, stream), es) && a in Run(Start(iss, irs, stream), es).stray
    ensures a.data == [] && a.flags == NO_FLAGS && a.sq == a.ack == 0
  {
    StartInv(iss, irs, stream);
    RunKeeps(Start(iss, irs, stream), es);
    hide LiveOk, OverOk, PeerOk, NetOk, WritesOk;
  }

  /** In every reachable state all edges advertised so far still stand, and a segment of a peer
      that kept within them, if it is the next in order, is never refused for lack of room. */
  lemma NeverRefused(iss: int, irs: int, stream: seq<Byte>, es: seq<Event>)
    requires IsRun(Start(iss, irs, stream), es) && Run(Start(iss, irs, stream), es).phase != Over
    ensures var r := Run(Start(iss, irs, stream), es);
            && EdgeOk(r.c, r.edge)
            && (forall s :: s in r.inn && s.data != [] && s.sq == r.c.rcv ==> InOrder(r.c, s))
  {
    StartInv(iss, irs, stream);
    RunKeeps(Start(iss, irs, stream), es);
    hide SendSide, RecvSide, WritesOk, PeerOk, Carries;
    var r := Run(Start(iss, irs, stream), es);
    forall s | s in r.inn && s.data != [] && s.sq == r.c.rcv ensures InOrder(r.c, s) { assert Conforming(r, s); }
  }
}
