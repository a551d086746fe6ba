/** Where the 32-bit code and the machine of unbounded numbers agree, and the one input on which
    they do not. */
module TcpWords {
  import opened Config
  import opened TcpSpec
  import opened Tcp
  import opened TcpRuns
  import opened TcpTheorems

  // ---- every segment can be read ----

  /** A number of the given word in the wrap that ends at `top`. */
  function Reading(word: int, top: int): (x: int)
    requires 0 <= word < TWO32
    ensures U32(x) == word && 0 <= top - x < TWO32
  {
    var d := U32(top - word);
    ModShift(word, (word - top + d) / TWO32);
    top - d
  }

  /** Any segment on the wire stands for one that is not stale by a full wrap. */
  lemma Readable(c: Conn, w: Wire) returns (s: Seg)
    requires 0 <= w.sq < TWO32 && 0 <= w.ack < TWO32
    ensures ToWire(s) == w && InWrap(c, s)
  {
    var sq := Reading(w.sq, c.rcv + if w.flags.rst then WINDOW - 1 else 0);
    s := Seg(sq, Reading(w.ack, c.nxt), w.flags, w.data, w.window);
  }

  // ---- the segments of a run ----

  /** What a conforming peer's segments are worth on 32-bit words, while fewer than 2^32 - 2
      bytes went each way: none is stale by a full wrap. */
  lemma InnInWrap(x: Sys, s: Seg)
    requires Inv(x) && x.phase != Over && s in x.inn && !s.flags.rst
    requires |x.stream| < TWO32 - 2 && |x.sent| < TWO32 - 2
    ensures InWrap(x.c, s)
  {
    hide WritesOk, EndsWith;
    assert Conforming(x, s);
  }

  /** A reset's number is not the peer's to choose well: it is read in the wrap at hand. */
  lemma ResetRead(c: Conn, s: Seg) returns (r: Seg)
    requires s.flags.rst
    ensures ToWire(r) == ToWire(s) && r == s.(sq := r.sq) && InWrap(c, r)
  {
    r := s.(sq := Reading(U32(s.sq), c.rcv + WINDOW - 1));
  }

  /** With fewer than 2^31 - 1 bytes written and 2^32 - 2 to read, whatever may be delivered in
      a reachable state the 32-bit code takes just as the machine of unbounded numbers does. */
  lemma DeliveredAsCoded(iss: int, irs: int, stream: seq<Byte>, es: seq<Event>, s: Seg) returns (r: Seg)
    requires IsRun(Start(iss, irs, stream), es)
    requires var x := Run(Start(iss, irs, stream), es); x.phase != Over && s in x.inn && |x.sent| < TWO31 - 1
    requires |stream| < TWO32 - 2
    ensures var x := Run(Start(iss, irs, stream), es);
            && ToWire(r) == ToWire(s) && (r == s || s.flags.rst) && Conforming(x, r) && InWrap(x.c, r)
            && 0 <= x.c.nxt - x.c.una && RecvWord(x.c, r) == TcpSpec.Recv(x.c, r)
  {
    var x := Run(Start(iss, irs, stream), es);
    StartInv(iss, irs, stream);
    RunKeeps(Start(iss, irs, stream), es);
    hide IsRun, Run;
    r := s;
    if s.flags.rst { r := ResetRead(x.c, s); } else { InnInWrap(x, s); }
    NotMisread(x, s, r);
  }

  lemma NotMisread(x: Sys, s: Seg, r: Seg)
    requires Inv(x) && x.phase != Over && s in x.inn && |x.sent| < TWO31 - 1
    requires r == s || (s.flags.rst && r == s.(sq := r.sq))
    ensures Conforming(x, r) && 0 <= x.c.nxt - x.c.una && RecvWord(x.c, r) == TcpSpec.Recv(x.c, r)
  {
    hide WritesOk, EndsWith, RecvSide, TcpSpec.TakeAck, TakeRest;
    assert Conforming(x, s);
  }

  // ---- the misread acknowledgement ----

  /** s is the FIN that ends the connection, whatever it acknowledges. */
  predicate LastFin(c: Conn, s: Seg) {
    c.state == FinWait2 && s.flags.fin && if s.data == [] then s.sq == c.rcv else InOrder(c, s)
  }

  /** The code departs from what is meant on exactly one acknowledgement number: 2^31 behind,
      with nothing outstanding. */
  lemma MisreadIff(c: Conn, s: Seg)
    requires 0 <= c.nxt - c.una <= TWO31 && c.state != Closed && c.state != Listen
    ensures RecvWord(c, s) == TcpSpec.Recv(c, s) <==> !(LooksAtAck(c, s) && Misread(c, s) && !LastFin(c, s))
  {
    if LooksAtAck(c, s) && Misread(c, s) {
      assert TcpSpec.TakeAck(c, s) == c;
      RestMoved(c, s.ack, s);
    }
  }

  lemma FinMoved(c: Conn, una: int, s: Seg)
    requires c.state != Closed
    ensures var (r, out), (m, moved) := TakeFin(c, s), TakeFin(c.(una := una), s);
            && moved == out
            && (if c.state == FinWait2 && s.flags.fin && (s.data == [] ==> s.sq == c.rcv) then m == r
                else m == r.(una := una) && r.una == c.una)
  {
  }

  /** What is left of recv does not look at snd_una. */
  lemma RestMoved(c: Conn, una: int, s: Seg)
    requires c.state != Closed
    ensures var (r, out), (m, moved) := TakeRest(c, s), TakeRest(c.(una := una), s);
            && moved == out && (if LastFin(c, s) then m == r else m == r.(una := una) && r.una == c.una)
  {
    FinMoved(c, una, s);
    FinMoved(TakeData(c, s), una, s);
    assert TakeData(c.(una := una), s) == TakeData(c, s).(una := una);
    hide TakeFin;
  }

  /** What it does then: the number acknowledged goes back by 2^31, and the timer sends the
      whole of the last buffer again, 2^31 before its place, though its writer returned long
      ago. */
  lemma MisreadHarms(c: Conn, s: Seg)
    requires Connected(c) && !c.sender && c.flags == PSH_ACK && c.tx != [] && |c.tx| <= MSS && c.retries < MAX_RETRIES
    requires LooksAtAck(c, s) && Misread(c, s)
    ensures var r := RecvWord(c, s).0;
            && r.una == s.ack && r.nxt == c.nxt && !r.sender
            && var again := Timeout(r).1;
               again.Some? && again.value.data == c.tx && again.value.sq == c.nxt - TWO31
  {
    RestLeaves(c.(una := s.ack), s);
    hide TakeRest;
  }

  lemma RestLeaves(c: Conn, s: Seg)
    requires Connected(c)
    ensures var r := TakeRest(c, s).0;
            r == c.(rcv := r.rcv, rx := r.rx, state := r.state, eof := r.eof)
  {
  }
}
