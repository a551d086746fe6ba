/** The connection against a conforming peer, over a network that loses, repeats and reorders
    segments: whatever was ever sent may arrive at any time, any number of times, or never. */
module TcpRuns {
  import opened Config
  import opened TcpSpec

  /** The peer: the number it expects next, the bytes it has got, and whether it has seen our FIN. */
  datatype Peer = Peer(rcv: int, got: seq<Byte>, fin: bool)

  /** Over once the connection has been cleared; Closing once close() has been called. */
  datatype Phase = Live | Closing | Over

  /** The timer process is about to look or in its untimed wait (Parked), in its timed wait
      (Armed), or its timed wait has run out and it has yet to act (Expired). */
  datatype Timer = Parked | Armed | Expired

  /** A tcp_conn_write in progress: its buffer, the numbers at which the bytes handed to
      send_data so far were sent, and whether it is inside send_data's wait. */
  datatype Write = Write(buf: seq<Byte>, places: seq<int>, blocked: bool)

  /** `stream` is what the peer has to say before its FIN, `sent` the concatenation of all
      chunks sent, `got` of all bytes read. `high` is the greatest number acknowledged to us,
      `edge` the greatest right window edge we advertised. `waiting` calls of close are in
      their timed wait, and the wait of `overdue` more has run out without their having acted;
      `late` tells whether such a call acted on a connection already cleared. `stray` is what
      the timer sent on a cleared connection, whose address is cleared with it. */
  datatype Sys = Sys(
    c: Conn, iss: int, irs: int, stream: seq<Byte>, phase: Phase, fin: bool,
    out: set<Seg>, stray: set<Seg>, inn: set<Seg>, peer: Peer,
    sent: seq<Byte>, got: seq<Byte>, high: int, edge: int,
    writes: seq<Write>, timer: Timer, waiting: nat, overdue: nat, late: bool)

  datatype Event =
    | PeerSends(s: Seg)
    | PeerGets(s: Seg)
    | Deliver(s: Seg)
    | WriteCall(buf: seq<Byte>)
    | Offer(i: nat)
    | OfferReturns(i: nat)
    | WriteReturns(i: nat)
    | ReadCall(n: nat)
    | CloseCall
    | CloseExpires
    | CloseActs
    | TimerArms
    | TimerExpires
    | TimerActs

  // ---- the conforming peer ----

  /** The bytes of a stream that starts at number `first`. */
  predicate Carries(data: seq<Byte>, sq: int, first: int, stream: seq<Byte>) {
    && first <= sq && sq - first + |data| <= |stream|
    && data == stream[sq - first..sq - first + |data|]
  }

  /** What a conforming peer may have sent: its SYN again, a reset, or a segment that carries
      an acknowledgement of what it has got and bytes of its stream at their numbers, inside
      a window we advertised. */
  predicate Conforming(x: Sys, s: Seg) {
    if s.flags.rst then s.data == []
    else if s.flags.syn then !s.flags.ack && !s.flags.fin && s.data == []
    else
      && s.flags.ack && x.iss < s.ack <= x.peer.rcv
      && Carries(s.data, s.sq, x.irs + 1, x.stream) && s.sq + |s.data| <= x.edge
      && (s.flags.fin ==> s.sq + |s.data| == x.irs + 1 + |x.stream|)
  }

  function PeerReads(p: Peer, s: Seg): Peer {
    if s.sq <= p.rcv < s.sq + |s.data| then Peer(s.sq + |s.data|, p.got + s.data[p.rcv - s.sq..], p.fin) else p
  }

  function PeerTakes(x: Sys, s: Seg): Peer {
    var p := x.peer;
    if s.flags.syn then (if p.rcv == x.iss && s.sq == x.iss then p.(rcv := x.iss + 1) else p)
    else if p.rcv == x.iss then p
    else
      var p1 := PeerReads(p, s);
      if s.flags.fin && !p1.fin && p1.rcv == s.sq + |s.data| then p1.(rcv := p1.rcv + 1, fin := true) else p1
  }

  // ---- steps ----

  /** A handle to write to or close comes from accept, so never while in SYN_RCVD. */
  predicate Legal(x: Sys, e: Event) {
    match e
    case PeerSends(s) => Conforming(x, s) && (!s.flags.rst && !s.flags.syn ==> s.ack == x.peer.rcv)
    case PeerGets(s) => s in x.out
    case Deliver(s) => s in x.inn && x.phase != Over && 0 <= x.c.nxt - x.c.una
    case WriteCall(_) => true
    case Offer(i) => i < |x.writes| && !x.writes[i].blocked && |x.writes[i].places| < |x.writes[i].buf|
    case OfferReturns(i) => i < |x.writes| && x.writes[i].blocked && !x.c.sender
    case WriteReturns(i) => i < |x.writes| && !x.writes[i].blocked && |x.writes[i].places| == |x.writes[i].buf|
    case ReadCall(n) => x.phase != Closing && !ReadBlocks(x.c)
    case CloseCall => x.c.state != SynRcvd
    case CloseExpires => x.waiting > 0
    case CloseActs => x.overdue > 0
    case TimerArms => x.timer == Parked && x.c.una != x.c.nxt
    case TimerExpires => x.timer == Armed
    case TimerActs => x.timer == Expired && 0 <= x.c.nxt - x.c.una
  }

  function Max(a: int, b: int): int { if a < b then b else a }

  function Sends(x: Sys, s: Seg): Sys {
    x.(out := x.out + {s}, edge := Max(x.edge, s.ack + s.window))
  }

  function SendsAll(x: Sys, segs: seq<Seg>): Sys
    decreases |segs|
  {
    if segs == [] then x else SendsAll(Sends(x, segs[0]), segs[1..])
  }

  /** A disconnect wakes every call of close that is still waiting; each finds the connection
      gone and returns. */
  function Settle(x: Sys): Sys {
    if x.c.state == Closed then x.(phase := Over, waiting := 0) else x
  }

  /** A signal on rto_cond ends a timed wait that has not run out, and no other. */
  function Signalled(t: Timer): Timer {
    if t == Armed then Parked else t
  }

  /** s gets as far as recv's acknowledgement field and is acceptable there. */
  predicate Counts(c: Conn, s: Seg) {
    !s.flags.rst && !(s.flags.syn && c.state == SynRcvd) && Acceptable(c, s)
  }

  /** s acknowledges everything outstanding. */
  predicate Completes(c: Conn, s: Seg) {
    Counts(c, s) && s.ack == c.nxt
  }

  function Numbers(first: int, n: nat): (r: seq<int>)
    ensures |r| == n && forall k :: 0 <= k < n ==> r[k] == first + k
  {
    seq(n, k => first + k)
  }

  function Without(s: seq<Write>, i: nat): (r: seq<Write>)
    requires i < |s|
    ensures |r| == |s| - 1 && forall j :: 0 <= j < |r| ==> r[j] == s[if j < i then j else j + 1]
  {
    s[..i] + s[i + 1..]
  }

  /** recv has left c and answered with segs. */
  function Delivered(x: Sys, s: Seg, c: Conn, segs: seq<Seg>): Sys {
    Settle(SendsAll(x.(c := c, high := if Counts(x.c, s) then s.ack else x.high,
                       timer := if Completes(x.c, s) then Signalled(x.timer) else x.timer), segs))
  }

  /** send_data up to its wait; a chunk that cannot be sent ends its write with -1. */
  function Offered(x: Sys, i: nat): Sys
    requires Legal(x, Offer(i))
  {
    var w := x.writes[i];
    var chunk := NextChunk(w.buf, |w.places|);
    var (c, s) := SendData(x.c, chunk);
    if s.None? then x.(writes := Without(x.writes, i))
    else
      var w1 := Write(w.buf, w.places + Numbers(x.c.nxt, |chunk|), true);
      Sends(x.(c := c, sent := x.sent + chunk, writes := x.writes[i := w1], timer := Signalled(x.timer)), s.value)
  }

  function CloseCalled(x: Sys): Sys {
    var (c, s) := Close(x.c);
    if x.phase == Over then x.(c := c)
    else
      var x1 := x.(c := c, phase := Closing, fin := x.fin || s.Some?, waiting := x.waiting + 1);
      if s.Some? then Sends(x1.(timer := Signalled(x.timer)), s.value) else x1
  }

  /** On a cleared connection the timer, too, sends to a cleared address. */
  function TimerActed(x: Sys): Sys
    requires 0 <= x.c.nxt - x.c.una
  {
    var (c, s) := Timeout(x.c);
    var x1 := x.(c := c, timer := Parked);
    if s.None? then Settle(x1)
    else if x.phase == Over then x1.(stray := x.stray + {s.value})
    else Sends(x1, s.value)
  }

  function Next(x: Sys, e: Event): Sys
    requires Legal(x, e)
  {
    match e
    case PeerSends(s) => x.(inn := x.inn + {s})
    case PeerGets(s) => x.(peer := PeerTakes(x, s))
    case Deliver(s) => Delivered(x, s, Recv(x.c, s).0, Recv(x.c, s).1)
    case WriteCall(buf) => x.(writes := x.writes + [Write(buf, [], false)])
    case Offer(i) => Offered(x, i)
    case OfferReturns(i) =>
      x.(writes := if x.c.sendErr == 0 then x.writes[i := x.writes[i].(blocked := false)] else Without(x.writes, i))
    case WriteReturns(i) => x.(writes := Without(x.writes, i))
    case ReadCall(n) => var (c, bytes, r) := Read(x.c, n); x.(c := c, got := x.got + bytes)
    case CloseCall => CloseCalled(x)
    case CloseExpires => x.(waiting := x.waiting - 1, overdue := x.overdue + 1)
    case CloseActs =>
      Settle(x.(c := Disconnect(x.c), overdue := x.overdue - 1, late := x.late || x.phase == Over))
    case TimerArms => x.(timer := Armed)
    case TimerExpires => x.(timer := Expired)
    case TimerActs => TimerActed(x)
  }

  // ---- the invariant ----

  predicate FinSent(c: Conn) {
    c.state == FinWait1 || c.state == FinWait2 || c.state == LastAck
  }

  /** Number behind everything ever sent. */
  function Top(iss: int, sent: seq<Byte>, fin: bool): int {
    iss + 1 + |sent| + if fin then 1 else 0
  }

  predicate EndsWith(sent: seq<Byte>, tail: seq<Byte>) {
    |tail| <= |sent| && tail == sent[|sent| - |tail|..]
  }

  /** The sending half: what is outstanding is a tail of the last buffer, SYN or FIN. */
  predicate SendSide(c: Conn, iss: int, sent: seq<Byte>, fin: bool) {
    && c.state != Closed && c.state != Listen
    && c.nxt == Top(iss, sent, fin) && iss <= c.una <= c.nxt
    && fin == FinSent(c) && (c.state == SynRcvd <==> c.una == iss)
    && (c.state == SynRcvd ==> sent == [])
    && (c.flags == SYN_ACK || c.flags == PSH_ACK || c.flags == FIN_ACK)
    && (c.flags == SYN_ACK ==> c.tx == [] && sent == [] && !fin)
    && (c.flags == PSH_ACK ==> !fin && EndsWith(sent, c.tx) && c.nxt - c.una <= |c.tx|)
    && (c.flags == FIN_ACK <==> fin) && (fin ==> c.tx == [] && c.nxt - c.una <= 1)
    && (c.sender <==> c.flags == PSH_ACK && c.una < c.nxt)
    && (c.state == FinWait2 ==> c.una == c.nxt) && (c.state == FinWait1 || c.state == LastAck ==> c.una < c.nxt)
  }

  /** How many bytes of the peer's stream have been acknowledged to it. */
  function Taken(c: Conn, irs: int): int {
    c.rcv - irs - 1 - if c.eof then 1 else 0
  }

  /** The receiving half: until close, what was read and what is in the ring make up exactly
      the acknowledged part of the peer's stream. */
  predicate RecvSide(c: Conn, irs: int, stream: seq<Byte>, got: seq<Byte>, closing: bool) {
    && |c.rx| <= RING && irs + 1 <= c.rcv <= irs + 2 + |stream|
    && (c.state == SynRcvd ==> c.rcv == irs + 1 && c.rx == [] && got == [] && !c.eof)
    && got <= stream
    && (!closing ==>
          && (c.state == SynRcvd || c.state == Established || c.state == CloseWait)
          && (c.eof <==> c.state == CloseWait)
          && 0 <= Taken(c, irs) <= |stream| && got + c.rx == stream[..Taken(c, irs)]
          && (c.eof ==> Taken(c, irs) == |stream|))
  }

  /** Every right edge advertised so far still stands. */
  predicate EdgeOk(c: Conn, edge: int) {
    edge <= c.rcv + Room(c) && edge <= c.rcv + WINDOW
  }

  predicate PeerOk(x: Sys) {
    && x.iss <= x.peer.rcv <= Top(x.iss, x.sent, x.peer.fin) && x.high <= x.peer.rcv
    && (x.peer.fin ==> x.fin && x.peer.rcv == Top(x.iss, x.sent, x.fin))
    && (if x.peer.rcv == x.iss then x.peer.got == []
        else x.peer.got == x.sent[..x.peer.rcv - x.iss - 1 - if x.peer.fin then 1 else 0])
  }

  /** A segment of ours carries the bytes of the write buffers at their numbers. */
  predicate OurSeg(x: Sys, s: Seg) {
    && (s.data != [] ==> !s.flags.syn && !s.flags.fin && Carries(s.data, s.sq, x.iss + 1, x.sent))
    && (s.flags.syn ==> !s.flags.fin && (s.sq == x.iss || x.iss < x.peer.rcv))
    && (s.flags.fin ==> x.fin && (s.sq == x.iss + 1 + |x.sent| || (s.sq == x.iss + 2 + |x.sent| && x.peer.fin)))
  }

  ghost predicate NetOk(x: Sys) {
    && (forall s :: s in x.out ==> OurSeg(x, s))
    && (forall s :: s in x.inn ==> Conforming(x, s))
  }

  /** Every byte handed over is in `sent` where its number says, and the numbers ascend. */
  predicate Placed(w: Write, iss: int, sent: seq<Byte>) {
    && |w.places| <= |w.buf| && (w.blocked ==> w.places != [])
    && (forall j :: 0 <= j < |w.places| ==>
          iss < w.places[j] <= iss + |sent| && sent[w.places[j] - iss - 1] == w.buf[j])
    && (forall j, k :: 0 <= j < k < |w.places| ==> w.places[j] < w.places[k])
  }

  /** The number behind the last byte handed over. */
  function Mark(w: Write): int
    requires w.places != []
  {
    w.places[|w.places| - 1] + 1
  }

  /** What was handed over is acknowledged, or its writer is blocked and will be told. */
  predicate Owed(x: Sys, w: Write) {
    w.places != [] ==>
      || Mark(w) <= x.high
      || (if x.phase == Over then x.late || (w.blocked && x.c.sendErr == -1)
          else w.blocked && x.c.sender && Mark(w) == x.c.nxt)
  }

  predicate WritesOk(x: Sys) {
    forall i :: 0 <= i < |x.writes| ==> Placed(x.writes[i], x.iss, x.sent) && Owed(x, x.writes[i])
  }

  /** What a segment made from a cleared record looks like. */
  const STRAY := Seg(0, 0, NO_FLAGS, [], WINDOW)

  /** After a disconnect nothing is left but the verdict for a blocked writer. */
  predicate OverOk(x: Sys) {
    && x.c == RESET.(sendErr := x.c.sendErr, retries := x.c.retries) && x.got <= x.stream
    && x.waiting == 0 && (x.timer != Parked ==> x.c.retries < MAX_RETRIES)
  }

  ghost predicate LiveOk(x: Sys) {
    && SendSide(x.c, x.iss, x.sent, x.fin) && x.high == x.c.una
    && RecvSide(x.c, x.irs, x.stream, x.got, x.phase == Closing)
    && EdgeOk(x.c, x.edge)
  }

  /** The timer waits only for what is outstanding, and nothing happens too late yet. */
  predicate TimesOk(x: Sys) {
    && 0 <= x.c.retries <= MAX_RETRIES && !x.late && (x.timer == Armed ==> x.c.una < x.c.nxt)
  }

  ghost predicate Inv(x: Sys) {
    && (if x.phase == Over then OverOk(x) else LiveOk(x) && TimesOk(x))
    && PeerOk(x) && NetOk(x) && WritesOk(x) && x.stray <= {STRAY}
  }

  // ---- sending ----

  /** Every retransmission carries the right bytes, and carries any only while the writer of
      the buffer is still blocked. */
  lemma ResendSound(c: Conn, iss: int, sent: seq<Byte>, fin: bool)
    requires SendSide(c, iss, sent, fin)
    ensures var s := Resend(c);
            && (s.data != [] ==> c.sender && !s.flags.syn && !s.flags.fin && Carries(s.data, s.sq, iss + 1, sent))
            && (s.flags.syn ==> !s.flags.fin && (s.sq == iss || iss < c.una))
            && (s.flags.fin ==> fin && (s.sq == iss + 1 + |sent| || (s.sq == iss + 2 + |sent| && c.una == c.nxt)))
  {
    var out := c.nxt - c.una;
    if c.flags == PSH_ACK {
      assert Unacked(c) == sent[|sent| - out..];
    }
  }

  lemma SendDataSound(c: Conn, buf: seq<Byte>, iss: int, sent: seq<Byte>)
    requires SendSide(c, iss, sent, false) && Connected(c) && c.una == c.nxt && buf != []
    ensures var (r, s) := SendData(c, buf);
            && SendSide(r, iss, sent + buf, false) && s == Some(Resend(r)) && r.una == c.una && r.sender
                && r.nxt == c.nxt + |buf|
            && r == c.(flags := r.flags, tx := r.tx, retries := 0, rto := r.rto, sender := true, nxt := r.nxt)
  {
    assert buf == (sent + buf)[|sent|..];
  }

  lemma CloseSound(c: Conn, iss: int, sent: seq<Byte>)
    requires SendSide(c, iss, sent, false)
    ensures var (r, s) := Close(c);
            && SendSide(r, iss, sent, s.Some?) && (s.Some? ==> s == Some(Resend(r))) && r.una == c.una
            && r.rx == [] && r.rcv == c.rcv && r.eof == c.eof && r.sender == c.sender
                && (c.state == SynRcvd ==> r.state == SynRcvd)
            && (s == None ==> r == c.(rx := []))
  {
  }

  lemma AckSound(c: Conn, s: Seg, iss: int, sent: seq<Byte>, fin: bool)
    requires SendSide(c, iss, sent, fin)
    ensures var r := TakeAck(c, s);
            && (r.state == Closed ==> Acceptable(c, s) && s.ack == c.nxt && r == Disconnect(c.(sender := false)))
            && (r.state != Closed ==>
                  && SendSide(r, iss, sent, fin) && r.una == (if Acceptable(c, s) then s.ack else c.una)
                  && r.nxt == c.nxt && r.rcv == c.rcv && r.rx == c.rx && r.eof == c.eof && r.retries == c.retries
                  && (r.state == c.state || (c.state == SynRcvd && r.state == Established)
                      || (c.state == FinWait1 && r.state == FinWait2))
                  && (r.sender == (c.sender && r.una < r.nxt)))
  {
    hide EndsWith;
  }

  // ---- receiving ----

  /** A segment of the peer's that acknowledges our SYN. */
  predicate PeerData(s: Seg, irs: int, stream: seq<Byte>) {
    && Carries(s.data, s.sq, irs + 1, stream)
    && (s.flags.fin ==> s.sq + |s.data| == irs + 1 + |stream|)
  }

  lemma DataSound(c: Conn, s: Seg, irs: int, stream: seq<Byte>, got: seq<Byte>, closing: bool)
    requires RecvSide(c, irs, stream, got, closing) && PeerData(s, irs, stream) && c.state != SynRcvd
    requires s.data != [] && InOrder(c, s)
    ensures !closing ==> c.state == Established
    ensures RecvSide(TakeData(c, s), irs, stream, got, closing)
  {
    if !closing {
      var t := Taken(c, irs);
      assert stream[..t] + stream[t..t + |s.data|] == stream[..t + |s.data|];
      assert got + (c.rx + s.data) == (got + c.rx) + s.data;
    }
  }

  lemma FinSound(c: Conn, s: Seg, irs: int, stream: seq<Byte>, got: seq<Byte>, closing: bool)
    requires RecvSide(c, irs, stream, got, closing) && c.state != SynRcvd && c.state != Closed && c.state != Listen
    requires s.flags.fin ==> PeerData(s, irs, stream)
    requires s.data != [] ==> c.rcv == s.sq + |s.data|
    ensures var (r, out) := TakeFin(c, s);
            && |out| <= 1 && (r.state == Closed ==> c.state == FinWait2 && r == Disconnect(c.(rcv := c.rcv + 1)))
            && (r.state != Closed ==>
                  && RecvSide(r, irs, stream, got, closing) && r == c.(rcv := r.rcv, state := r.state, eof := r.eof)
                  && c.rcv <= r.rcv && (r.state == c.state || (c.state == Established && r.state == CloseWait)))
            && (out != [] ==> out[0] == Answer(if r.state == Closed then c.(rcv := c.rcv + 1) else r))
  {
  }

  /** A segment as answered: no bytes, no SYN, no FIN, and the window as it now stands. */
  predicate Plain(s: Seg, c: Conn) {
    s.data == [] && !s.flags.syn && !s.flags.fin && s.ack <= c.rcv && s.ack + s.window <= c.rcv + Room(c)
        && s.ack + s.window <= c.rcv + WINDOW
  }

  /** What recv leaves behind: both halves intact, or the connection cleared with the right
      verdict for a blocked writer. */
  ghost predicate Received(c: Conn, s: Seg, r: Conn, out: seq<Seg>, iss: int, irs: int, sent: seq<Byte>, fin: bool,
      stream: seq<Byte>, got: seq<Byte>, closing: bool) {
    if r.state == Closed then
      && r == RESET.(sendErr := r.sendErr)
      && (r.sendErr != -1 ==> !c.sender || (Acceptable(c, s) && s.ack == c.nxt))
      && (forall a :: a in out ==> a.data == [] && !a.flags.syn && !a.flags.fin)
    else
      && SendSide(r, iss, sent, fin) && RecvSide(r, irs, stream, got, closing)
      && r.una == (if Acceptable(c, s) then s.ack else c.una) && r.nxt == c.nxt && r.retries == c.retries
      && c.rcv + Room(c) <= r.rcv + Room(r) && c.rcv <= r.rcv && r.sender == (c.sender && r.una < r.nxt)
      && (forall a :: a in out ==> Plain(a, r))
  }

  lemma FinReceived(c: Conn, c2: Conn, s: Seg, iss: int, irs: int, sent: seq<Byte>, fin: bool, stream: seq<Byte>,
      got: seq<Byte>, closing: bool)
    requires SendSide(c2, iss, sent, fin) && RecvSide(c2, irs, stream, got, closing) && c2.state != SynRcvd
    requires c2.una == (if Acceptable(c, s) then s.ack else c.una) && c2.nxt == c.nxt && (c.sender ==> c.una < c.nxt)
    requires c.rcv + Room(c) <= c2.rcv + Room(c2) && c.rcv <= c2.rcv && c2.sender == (c.sender && c2.una < c2.nxt)
    requires c2.retries == c.retries
    requires s.flags.fin ==> PeerData(s, irs, stream)
    requires s.data != [] ==> c2.rcv == s.sq + |s.data|
    ensures Received(c, s, TakeFin(c2, s).0, TakeFin(c2, s).1, iss, irs, sent, fin, stream, got, closing)
    ensures TakeFin(c2, s).0.state != Closed ==> c2.rcv <= TakeFin(c2, s).0.rcv && TakeFin(c2, s).0.rx == c2.rx
  {
    hide EndsWith, PeerData, RecvSide;
    FinSound(c2, s, irs, stream, got, closing);
    hide TakeFin;
    var (r, out) := TakeFin(c2, s);
    if out != [] { assert forall a :: a in out ==> a == out[0]; }
  }

  /** Everything recv does with a segment of the peer's, short of its reset. */
  lemma RecvSound(c: Conn, s: Seg, iss: int, irs: int, sent: seq<Byte>, fin: bool, stream: seq<Byte>, got: seq<Byte>,
      closing: bool)
    requires SendSide(c, iss, sent, fin) && RecvSide(c, irs, stream, got, closing) && !s.flags.rst
    requires s.flags.syn ==> s.data == [] && !s.flags.ack && !s.flags.fin
    requires !s.flags.syn ==> s.flags.ack && iss < s.ack && PeerData(s, irs, stream)
    requires c.state == SynRcvd && !s.flags.syn ==> s.ack <= c.nxt
    requires !(s.flags.syn && c.state == SynRcvd)
    ensures Received(c, s, Recv(c, s).0, Recv(c, s).1, iss, irs, sent, fin, stream, got, closing)
  {
    hide EndsWith, TakeFin, TakeData;
    AckSound(c, s, iss, sent, fin);
    var c1 := TakeAck(c, s);
    if c1.state != Closed {
      assert c1.state != SynRcvd && RecvSide(c1, irs, stream, got, closing);
      hide TakeAck, RecvSide, SendSide;
      if s.data == [] {
        FinReceived(c, c1, s, iss, irs, sent, fin, stream, got, closing);
      } else if InOrder(c1, s) {
        DataReceived(c, c1, s, iss, irs, sent, fin, stream, got, closing);
      }
    }
  }

  lemma DataReceived(c: Conn, c1: Conn, s: Seg, iss: int, irs: int, sent: seq<Byte>, fin: bool, stream: seq<Byte>,
      got: seq<Byte>, closing: bool)
    requires SendSide(c1, iss, sent, fin) && RecvSide(c1, irs, stream, got, closing) && c1.state != SynRcvd
    requires c1.una == (if Acceptable(c, s) then s.ack else c.una) && c1.nxt == c.nxt && (c.sender ==> c.una < c.nxt)
    requires c.rcv == c1.rcv && c.rx == c1.rx && c1.sender == (c.sender && c1.una < c1.nxt) && c1.retries == c.retries
    requires PeerData(s, irs, stream) && s.data != [] && InOrder(c1, s)
    ensures var c2 := TakeData(c1, s);
            Received(c, s, TakeFin(c2, s).0, [Answer(c2)] + TakeFin(c2, s).1, iss, irs, sent, fin, stream, got, closing)
  {
    DataSound(c1, s, irs, stream, got, closing);
    var c2 := TakeData(c1, s);
    hide RecvSide;
    FinReceived(c, c2, s, iss, irs, sent, fin, stream, got, closing);
    var (r, out) := TakeFin(c2, s);
    hide TakeFin, SendSide;
    assert forall a :: a in [Answer(c2)] + out ==> a == Answer(c2) || a in out;
  }

  // ---- the system keeps its invariant ----

  lemma SendsFields(x: Sys, segs: seq<Seg>)
    ensures var r := SendsAll(x, segs);
            && r == x.(out := r.out, edge := r.edge) && x.edge <= r.edge
            && (forall s :: s in r.out <==> s in x.out || s in segs)
            && (forall s :: s in segs ==> s.ack + s.window <= r.edge)
            && (r.edge == x.edge || exists s :: s in segs && r.edge == s.ack + s.window)
    decreases |segs|
  {
    if segs != [] { SendsFields(Sends(x, segs[0]), segs[1..]); }
  }

  /** A conforming segment stays conforming, and ours stay ours, as numbers move on. */
  lemma NetGrows(x: Sys, r: Sys)
    requires NetOk(x) && r.iss == x.iss && r.irs == x.irs && r.stream == x.stream && r.inn == x.inn
    requires x.peer.rcv <= r.peer.rcv && x.edge <= r.edge && x.sent <= r.sent && (x.peer.fin ==> r.peer.fin)
    requires x.fin ==> r.fin && r.sent == x.sent
    requires forall s :: s in r.out ==> s in x.out || OurSeg(r, s)
    ensures NetOk(r)
  {
    forall s | s in r.out ensures OurSeg(r, s) {
      if s in x.out { assert OurSeg(x, s); }
    }
    forall s | s in r.inn ensures Conforming(r, s) {
      assert Conforming(x, s);
    }
  }

  lemma PlacedMore(w: Write, iss: int, sent: seq<Byte>, more: seq<Byte>)
    requires Placed(w, iss, sent)
    ensures Placed(w, iss, sent + more)
  {
  }

  /** Writes go on owing and being owed what they were. */
  lemma WritesMove(x: Sys, r: Sys)
    requires WritesOk(x) && r.writes == x.writes && r.iss == x.iss && r.sent == x.sent && x.high <= r.high
    requires x.phase != Over
    requires if r.phase == Over then x.c.sender ==> r.c.sendErr == -1 || r.high == x.c.nxt
             else r.c.nxt == x.c.nxt && (x.c.sender ==> r.c.sender || r.high == x.c.nxt)
    ensures WritesOk(r)
  {
    hide Placed;
    forall i | 0 <= i < |r.writes| ensures Placed(r.writes[i], r.iss, r.sent) && Owed(r, r.writes[i]) {
      assert Placed(x.writes[i], x.iss, x.sent) && Owed(x, x.writes[i]);
    }
  }

  lemma WritesSame(x: Sys, r: Sys)
    requires WritesOk(x) && r.writes == x.writes && r.iss == x.iss && r.sent == x.sent && r.high == x.high
    requires (r.phase == Over) == (x.phase == Over) && (x.late ==> r.late)
    requires r.c.sendErr == x.c.sendErr || r.late
    requires r.c.sender == x.c.sender && (x.c.sender ==> r.c.nxt == x.c.nxt)
    ensures WritesOk(r)
  {
    hide Placed;
    forall i | 0 <= i < |r.writes| ensures Placed(r.writes[i], r.iss, r.sent) && Owed(r, r.writes[i]) {
      assert Placed(x.writes[i], x.iss, x.sent) && Owed(x, x.writes[i]);
    }
  }

  /** Clocks and callers move, the connection does not. */
  lemma Aside(x: Sys, r: Sys)
    requires Inv(x) && WritesOk(r)
    requires r == x.(timer := r.timer, waiting := r.waiting, overdue := r.overdue, writes := r.writes)
    requires x.phase == Over ==> r.waiting == 0 && (r.timer != Parked ==> x.c.retries < MAX_RETRIES)
    requires x.phase != Over && r.timer == Armed ==> x.c.una < x.c.nxt
    ensures Inv(r)
  {
    hide SendSide, RecvSide, OurSeg, Conforming, WritesOk;
    NetGrows(x, r);
  }

  lemma PeerSendsKeeps(x: Sys, s: Seg)
    requires Inv(x) && Legal(x, PeerSends(s))
    ensures Inv(Next(x, PeerSends(s)))
  {
    hide SendSide, RecvSide, Placed;
    var r := Next(x, PeerSends(s));
    forall t | t in r.inn ensures Conforming(r, t) {
      assert t == s || Conforming(x, t);
    }
    forall t | t in r.out ensures OurSeg(r, t) {
      assert OurSeg(x, t);
    }
    forall i | 0 <= i < |r.writes| ensures Owed(r, r.writes[i]) { assert Owed(x, x.writes[i]); }
  }

  lemma PeerGetsKeeps(x: Sys, s: Seg)
    requires Inv(x) && s in x.out
    ensures Inv(Next(x, PeerGets(s)))
  {
    var r := Next(x, PeerGets(s));
    assert OurSeg(x, s);
    PeerTakesOk(x, s);
    hide SendSide, RecvSide, EdgeOk, PeerTakes;
    NetGrows(x, r);
    WritesSame(x, r);
  }

  lemma PeerTakesOk(x: Sys, s: Seg)
    requires PeerOk(x) && OurSeg(x, s)
    ensures PeerOk(x.(peer := PeerTakes(x, s))) && x.peer.rcv <= PeerTakes(x, s).rcv
        && (x.peer.fin ==> PeerTakes(x, s).fin)
  {
    if s.data != [] && !s.flags.syn && x.peer.rcv != x.iss && s.sq <= x.peer.rcv < s.sq + |s.data| {
      PeerReadsOk(x, s);
    }
    hide Carries, PeerReads;
    assert PeerReads(x.peer, s) == x.peer
        || (s.data != [] && s.sq <= x.peer.rcv < s.sq + |s.data|) by { PeerIdle(x.peer, s); }
  }

  lemma PeerIdle(p: Peer, s: Seg)
    ensures PeerReads(p, s) == p || (s.data != [] && s.sq <= p.rcv < s.sq + |s.data|)
  {
  }

  /** Data adds exactly the bytes the peer had not got yet. */
  lemma PeerReadsOk(x: Sys, s: Seg)
    requires PeerOk(x) && Carries(s.data, s.sq, x.iss + 1, x.sent) && x.iss < x.peer.rcv
    requires s.sq <= x.peer.rcv < s.sq + |s.data|
    ensures PeerReads(x.peer, s) == Peer(s.sq + |s.data|, x.sent[..s.sq + |s.data| - x.iss - 1], false)
  {
    var n, k := x.peer.rcv - s.sq, x.peer.rcv - x.iss - 1;
    var e := s.sq + |s.data| - x.iss - 1;
    assert s.data[n..] == x.sent[k..e];
    assert x.sent[..k] + x.sent[k..e] == x.sent[..e];
  }

  /** The connection goes on in state c, having answered with `segs`. */
  lemma GoesOn(x: Sys, c: Conn, high: int, timer: Timer, segs: seq<Seg>, r: Sys)
    requires Inv(x) && x.phase != Over && r == SendsAll(x.(c := c, high := high, timer := timer), segs)
    requires SendSide(c, x.iss, x.sent, x.fin) && RecvSide(c, x.irs, x.stream, x.got, x.phase == Closing)
    requires high == c.una && x.high <= high <= x.peer.rcv && c.nxt == x.c.nxt
    requires x.c.rcv + Room(x.c) <= c.rcv + Room(c) && x.c.rcv <= c.rcv && (x.c.sender ==> c.sender || c.una == c.nxt)
    requires forall a :: a in segs ==> InEdge(x, c, a)
    requires 0 <= c.retries <= MAX_RETRIES && (timer == Armed ==> c.una < c.nxt)
    ensures Inv(r)
  {
    hide SendSide, RecvSide, SendsAll, OurSeg, Conforming;
    SendsFields(x.(c := c, high := high, timer := timer), segs);
    forall a | a in r.out ensures a in x.out || OurSeg(r, a) {
      if a !in x.out { OursToo(x, r, a); }
    }
    NetGrows(x, r);
    WritesMove(x, r);
  }

  /** One of our segments that offers no more than the window as it stands in c. */
  predicate InEdge(x: Sys, c: Conn, a: Seg) {
    OurSeg(x, a) && a.ack + a.window <= c.rcv + Room(c) && a.ack + a.window <= c.rcv + WINDOW
  }

  lemma OursToo(x: Sys, r: Sys, a: Seg)
    requires OurSeg(x, a) && r.iss == x.iss && r.sent == x.sent && r.fin == x.fin && r.peer == x.peer
    ensures OurSeg(r, a)
  {
  }

  /** The connection is gone, its last words `segs`. */
  lemma Ends(x: Sys, c: Conn, high: int, timer: Timer, segs: seq<Seg>, r: Sys)
    requires Inv(x) && x.phase != Over && r == Settle(SendsAll(x.(c := c, high := high, timer := timer), segs))
    requires c == RESET.(sendErr := c.sendErr) && x.high <= high <= x.peer.rcv
    requires x.c.sender ==> c.sendErr == -1 || high == x.c.nxt
    requires forall a :: a in segs ==> a.data == [] && !a.flags.syn && !a.flags.fin
    ensures Inv(r)
  {
    hide SendSide, SendsAll, Conforming;
    SendsFields(x.(c := c, high := high, timer := timer), segs);
    assert r.phase == Over && OverOk(r) by { hide OurSeg; }
    hide RecvSide, OverOk;
    NetGrows(x, r);
    WritesMove(x, r);
  }

  lemma DeliverKeeps(x: Sys, s: Seg, r: Sys)
    requires Inv(x) && Legal(x, Deliver(s)) && r == Next(x, Deliver(s))
    ensures Inv(r)
  {
    assert Conforming(x, s);
    hide RecvSide, SendsAll, OurSeg, NetOk, WritesOk;
    if s.flags.rst {
      hide SendSide;
      DeliverReset(x, s, r);
    } else if s.flags.syn && x.c.state == SynRcvd {
      DeliverSyn(x, s, r);
    } else {
      DeliverRest(x, s, r);
    }
  }

  lemma DeliverReset(x: Sys, s: Seg, r: Sys)
    requires Inv(x) && Legal(x, Deliver(s)) && r == Next(x, Deliver(s)) && s.flags.rst
    ensures Inv(r)
  {
    hide RecvSide, SendSide, OurSeg, NetOk, PeerOk, WritesOk;
    NotClosed(x);
    var c := Recv(x.c, s).0;
    if c.state == Closed {
      Ends(x, c, x.high, x.timer, [], r);
    } else {
      assert r == x;
    }
  }

  lemma NotClosed(x: Sys)
    requires Inv(x) && x.phase != Over
    ensures x.c.state != Closed && x.c.una <= x.c.nxt && x.high == x.c.una && x.high <= x.peer.rcv
  {
  }

  lemma DeliverSyn(x: Sys, s: Seg, r: Sys)
    requires Inv(x) && Legal(x, Deliver(s)) && r == Next(x, Deliver(s)) && !s.flags.rst && s.flags.syn
        && x.c.state == SynRcvd
    ensures Inv(r)
  {
    hide RecvSide, NetOk, WritesOk, Carries, Unacked;
    OurResend(x, x.c);
    assert SendsAll(x, [Resend(x.c)]) == r by { SendsOne(x, Resend(x.c)); }
    hide SendsAll, OurSeg, SendSide;
    GoesOn(x, x.c, x.high, x.timer, [Resend(x.c)], r);
  }

  lemma SendsOne(x: Sys, s: Seg)
    ensures SendsAll(x, [s]) == Sends(x, s)
  {
  }

  /** A retransmission at any time is one of our segments. */
  lemma OurResend(x: Sys, c: Conn)
    requires Inv(x) && x.phase != Over && c == x.c.(retries := c.retries, rto := c.rto)
    ensures 0 <= c.nxt - c.una && InEdge(x, x.c, Resend(c))
  {
    ResendSound(x.c, x.iss, x.sent, x.fin);
    hide RecvSide, NetOk, WritesOk, Carries, Unacked;
    assert Resend(c) == Resend(x.c) by { SameResend(x.c, c); }
  }

  lemma SameResend(c: Conn, d: Conn)
    requires 0 <= c.nxt - c.una && d == c.(retries := d.retries, rto := d.rto)
    ensures Resend(d) == Resend(c)
  {
  }

  lemma DeliverRest(x: Sys, s: Seg, r: Sys)
    requires Inv(x) && Legal(x, Deliver(s)) && r == Next(x, Deliver(s)) && Conforming(x, s)
    requires !s.flags.rst && !(s.flags.syn && x.c.state == SynRcvd)
    ensures Inv(r)
  {
    NotClosed(x);
    assert x.c.state == SynRcvd && !s.flags.syn ==> s.ack <= x.c.nxt;
    hide RecvSide, SendsAll, OurSeg, NetOk, WritesOk, Recv, Received;
    RecvSound(x.c, s, x.iss, x.irs, x.sent, x.fin, x.stream, x.got, x.phase == Closing);
    var (c, segs) := Recv(x.c, s);
    hide SendSide, Carries, PeerOk;
    DeliverEnds(x, s, c, segs, if Acceptable(x.c, s) then s.ack else x.high, r);
  }

  lemma DeliverEnds(x: Sys, s: Seg, c: Conn, segs: seq<Seg>, high: int, r: Sys)
    requires Inv(x) && x.phase != Over && high == (if Acceptable(x.c, s) then s.ack else x.high)
    requires Received(x.c, s, c, segs, x.iss, x.irs, x.sent, x.fin, x.stream, x.got, x.phase == Closing)
    requires !s.flags.rst && !(s.flags.syn && x.c.state == SynRcvd)
    requires x.high == x.c.una && x.high <= high <= x.peer.rcv && r == Delivered(x, s, c, segs)
    ensures Inv(r)
  {
    hide RecvSide, SendsAll, OurSeg, NetOk, WritesOk, PeerOk;
    var timer := if Completes(x.c, s) then Signalled(x.timer) else x.timer;
    SendsFields(x.(c := c, high := high, timer := timer), segs);
    if c.state == Closed {
      hide SendSide;
      Ends(x, c, high, timer, segs, r);
    } else {
      forall a | a in segs ensures InEdge(x, c, a) { PlainOurs(x, a, c); }
      assert c.una <= c.nxt;
      hide SendSide;
      GoesOn(x, c, high, timer, segs, r);
    }
  }

  lemma PlainOurs(x: Sys, a: Seg, c: Conn)
    requires Plain(a, c)
    ensures OurSeg(x, a)
  {
  }

  // ---- writers ----

  lemma WriteCallKeeps(x: Sys, buf: seq<Byte>, r: Sys)
    requires Inv(x) && r == Next(x, WriteCall(buf))
    ensures Inv(r)
  {
    forall j | 0 <= j < |r.writes| ensures Placed(r.writes[j], r.iss, r.sent) && Owed(r, r.writes[j]) {
      if j < |x.writes| { assert Placed(x.writes[j], x.iss, x.sent) && Owed(x, x.writes[j]); }
    }
    hide SendSide, RecvSide, WritesOk, PeerOk, NetOk;
    Aside(x, r);
  }

  lemma FewerWrites(x: Sys, i: nat, r: Sys)
    requires Inv(x) && i < |x.writes| && r == x.(writes := Without(x.writes, i))
    ensures Inv(r)
  {
    hide Placed;
    forall j | 0 <= j < |r.writes| ensures Placed(r.writes[j], r.iss, r.sent) && Owed(r, r.writes[j]) {
      var k := if j < i then j else j + 1;
      assert r.writes[j] == x.writes[k] && Placed(x.writes[k], x.iss, x.sent) && Owed(x, x.writes[k]);
    }
    hide SendSide, RecvSide, WritesOk, PeerOk, NetOk;
    Aside(x, r);
  }

  /** send_data has returned 0: what was handed over is acknowledged, unless a close acted
      too late. */
  lemma OfferReturnsKeeps(x: Sys, i: nat, r: Sys)
    requires Inv(x) && Legal(x, OfferReturns(i)) && r == Next(x, OfferReturns(i))
    ensures Inv(r)
    ensures x.c.sendErr == 0 && !x.late ==> Mark(x.writes[i]) <= x.high
  {
    OfferVerdict(x, i);
    hide Inv, Mark;
    if x.c.sendErr == 0 { Unblocks(x, i, r); } else { FewerWrites(x, i, r); }
  }

  lemma OfferVerdict(x: Sys, i: nat)
    requires Inv(x) && Legal(x, OfferReturns(i))
    ensures x.writes[i].places != []
    ensures x.c.sendErr == 0 && !x.late ==> Mark(x.writes[i]) <= x.high
  {
    hide SendSide, RecvSide, PeerOk, NetOk;
    assert Placed(x.writes[i], x.iss, x.sent) && Owed(x, x.writes[i]);
  }

  lemma Unblocks(x: Sys, i: nat, r: Sys)
    requires Inv(x) && Legal(x, OfferReturns(i)) && x.c.sendErr == 0
    requires r == x.(writes := x.writes[i := x.writes[i].(blocked := false)])
    ensures Inv(r)
  {
    hide SendSide, RecvSide, PeerOk, NetOk;
    forall j | 0 <= j < |r.writes| ensures Placed(r.writes[j], r.iss, r.sent) && Owed(r, r.writes[j]) {
      assert Placed(x.writes[j], x.iss, x.sent) && Owed(x, x.writes[j]);
    }
    hide WritesOk, Placed;
    Aside(x, r);
  }

  lemma OfferKeeps(x: Sys, i: nat, r: Sys)
    requires Inv(x) && Legal(x, Offer(i)) && r == Next(x, Offer(i))
    ensures Inv(r)
  {
    hide Inv;
    if Connected(x.c) && x.c.una == x.c.nxt {
      OfferSends(x, i, NextChunk(x.writes[i].buf, |x.writes[i].places|), r);
    } else {
      FewerWrites(x, i, r);
    }
  }

  lemma OfferSends(x: Sys, i: nat, chunk: seq<Byte>, r: Sys)
    requires Inv(x) && Legal(x, Offer(i)) && Connected(x.c) && x.c.una == x.c.nxt
    requires chunk == NextChunk(x.writes[i].buf, |x.writes[i].places|)
    requires r == Offered(x, i)
    ensures Inv(r)
  {
    hide RecvSide, NetOk, WritesOk, PeerOk, EndsWith, Numbers, NextChunk;
    assert x.phase != Over && !x.fin;
    TopIs(x);
    NotClosed(x);
    SendDataSound(x.c, chunk, x.iss, x.sent);
    var c := SendData(x.c, chunk).0;
    assert r == Sends(x.(c := c, sent := x.sent + chunk, writes := r.writes, timer := Signalled(x.timer)), Resend(c));
    assert RecvSide(c, x.irs, x.stream, x.got, x.phase == Closing) by { ChunkReceives(x, c); }
    assert r.writes == x.writes[i := Write(x.writes[i].buf, x.writes[i].places + Numbers(x.c.nxt, |chunk|), true)];
    assert !x.c.sender;
    hide SendData, Offered, Unacked, Carries, OurSeg;
    ResendSound(c, x.iss, x.sent + chunk, false);
    hide SendSide;
    ChunkNet(x, chunk, c, r);
    ChunkWrites(x, i, chunk, c, r);
  }

  lemma TopIs(x: Sys)
    requires Inv(x) && x.phase != Over && !x.fin
    ensures x.c.nxt == x.iss + 1 + |x.sent|
  {
  }

  /** The chunk sent is placed at the numbers it was sent at; nobody else was waiting. */
  lemma ChunkWrites(x: Sys, i: nat, chunk: seq<Byte>, c: Conn, r: Sys)
    requires WritesOk(x) && x.phase != Over && r.phase != Over && !x.c.sender && r.high == x.high && r.iss == x.iss
    requires i < |x.writes| && !x.writes[i].blocked && |x.writes[i].places| < |x.writes[i].buf|
    requires chunk == NextChunk(x.writes[i].buf, |x.writes[i].places|)
    requires x.c.nxt == x.iss + 1 + |x.sent| && x.high <= x.c.nxt
    requires r.c == c && c.sender && c.nxt == x.c.nxt + |chunk| && r.sent == x.sent + chunk
    requires r.writes == x.writes[i := Write(x.writes[i].buf, x.writes[i].places + Numbers(x.c.nxt, |chunk|), true)]
    ensures WritesOk(r)
  {
    forall j | 0 <= j < |r.writes| ensures Placed(r.writes[j], r.iss, r.sent) && Owed(r, r.writes[j]) {
      assert Placed(x.writes[j], x.iss, x.sent) && Owed(x, x.writes[j]);
      if j == i {
        PlacedChunk(x.writes[i], x.iss, x.sent, chunk);
      } else {
        PlacedMore(x.writes[j], x.iss, x.sent, chunk);
      }
    }
  }

  lemma PlacedChunk(w: Write, iss: int, sent: seq<Byte>, chunk: seq<Byte>)
    requires Placed(w, iss, sent) && |w.places| < |w.buf| && chunk == NextChunk(w.buf, |w.places|)
    ensures Placed(Write(w.buf, w.places + Numbers(iss + 1 + |sent|, |chunk|), true), iss, sent + chunk)
    ensures Mark(Write(w.buf, w.places + Numbers(iss + 1 + |sent|, |chunk|), true)) == iss + 1 + |sent| + |chunk|
  {
    PlacedMore(w, iss, sent, chunk);
  }

  lemma ChunkReceives(x: Sys, c: Conn)
    requires RecvSide(x.c, x.irs, x.stream, x.got, x.phase == Closing) && Connected(x.c)
    requires c == x.c.(flags := c.flags, tx := c.tx, retries := 0, rto := c.rto, sender := true, nxt := c.nxt)
    ensures RecvSide(c, x.irs, x.stream, x.got, x.phase == Closing)
  {
  }

  lemma ChunkNet(x: Sys, buf: seq<Byte>, c: Conn, r: Sys)
    requires 0 <= c.nxt - c.una && c.una <= x.peer.rcv
    requires NetOk(x) && PeerOk(x) && !x.fin
        && r == Sends(x.(c := c, sent := x.sent + buf, writes := r.writes, timer := r.timer), Resend(c))
    requires var s := Resend(c);
             && (s.data != [] ==> !s.flags.syn && !s.flags.fin && Carries(s.data, s.sq, x.iss + 1, x.sent + buf))
             && (s.flags.syn ==> !s.flags.fin && (s.sq == x.iss || x.iss < c.una)) && !s.flags.fin
    ensures NetOk(r) && PeerOk(r)
  {
    hide Resend;
    assert OurSeg(r, Resend(c));
    hide OurSeg, Carries;
    PeerPrefix(x, buf, r);
    hide PeerOk;
    NetGrows(x, r);
  }

  /** What the peer has got is still a prefix when more is written. */
  lemma PeerPrefix(x: Sys, buf: seq<Byte>, r: Sys)
    requires PeerOk(x) && !x.fin && r.iss == x.iss && r.fin == x.fin && r.peer == x.peer && r.high == x.high
        && r.sent == x.sent + buf
    ensures PeerOk(r)
  {
    if x.peer.rcv != x.iss { assert r.sent[..x.peer.rcv - x.iss - 1] == x.sent[..x.peer.rcv - x.iss - 1]; }
  }

  // ---- readers, close and the timer ----

  lemma ReadKeeps(x: Sys, n: nat, r: Sys)
    requires Inv(x) && Legal(x, ReadCall(n)) && r == Next(x, ReadCall(n))
    ensures Inv(r)
  {
    if x.phase != Over { ReadSide(x.c, n, x.irs, x.stream, x.got); }
    hide RecvSide;
    NetGrows(x, r);
    WritesSame(x, r);
  }

  lemma ReadSide(c: Conn, n: nat, irs: int, stream: seq<Byte>, got: seq<Byte>)
    requires RecvSide(c, irs, stream, got, false)
    ensures var (r, bytes, k) := Read(c, n);
            RecvSide(r, irs, stream, got + bytes, false) && r == c.(rx := r.rx) && |r.rx| <= |c.rx|
  {
    hide SendSide;
    Regroup(got, c.rx, if n > |c.rx| then |c.rx| else n);
    IsPrefix(stream, Taken(c, irs));
  }

  lemma Regroup(a: seq<Byte>, b: seq<Byte>, k: nat)
    requires k <= |b|
    ensures (a + b[..k]) + b[k..] == a + b
    ensures a + b[..k] <= a + b
  {
  }

  lemma IsPrefix(stream: seq<Byte>, k: int)
    requires 0 <= k <= |stream|
    ensures stream[..k] <= stream
  {
  }

  lemma CloseKeeps(x: Sys, r: Sys)
    requires Inv(x) && Legal(x, CloseCall) && r == Next(x, CloseCall)
    ensures Inv(r)
  {
    if x.phase == Over {
      CloseOnNothing(x, r);
    } else {
      CloseIs(x, r);
      hide Inv, Close, CloseCalled;
      if Close(x.c).1 == None { CloseDrops(x, r); } else { CloseSends(x, Close(x.c).0, r); }
    }
  }

  lemma CloseOnNothing(x: Sys, r: Sys)
    requires Inv(x) && x.phase == Over && r == Next(x, CloseCall)
    ensures Inv(r)
  {
    assert r == x;
  }

  /** x after a close that sent its FIN, in state c. */
  function Finned(x: Sys, c: Conn): Sys
    requires 0 <= c.nxt - c.una
  {
    Sends(x.(c := c, phase := Closing, fin := true, waiting := x.waiting + 1, timer := Signalled(x.timer)), Resend(c))
  }

  /** The two ways a close on a connection still there goes. */
  lemma CloseIs(x: Sys, r: Sys)
    requires Inv(x) && x.phase != Over && Legal(x, CloseCall) && r == Next(x, CloseCall)
    ensures var (c, s) := Close(x.c);
            if s == None then r == x.(c := x.c.(rx := []), phase := Closing, waiting := x.waiting + 1)
            else
              && x.c.una == x.c.nxt == c.nxt - 1 && c.una == x.c.una && s == Some(Resend(c)) && !x.fin
              && !x.c.sender && c == x.c.(state := c.state, nxt := c.nxt, flags := FIN_ACK, tx := [], retries := 0,
                                          rto := c.rto, rx := [])
              && r == Finned(x, c)
  {
    hide RecvSide, NetOk, WritesOk, PeerOk, EndsWith;
  }

  /** A close that cannot send a FIN drops what has not been read and no more. */
  lemma CloseDrops(x: Sys, r: Sys)
    requires Inv(x) && x.phase != Over && r == x.(c := x.c.(rx := []), phase := Closing, waiting := x.waiting + 1)
    ensures Inv(r)
  {
    hide OurSeg, Conforming, EndsWith;
    NetGrows(x, r);
    hide NetOk;
    WritesSame(x, r);
  }

  lemma CloseSends(x: Sys, c: Conn, r: Sys)
    requires Inv(x) && x.phase != Over && !x.fin && !x.c.sender && x.c.state != SynRcvd
    requires x.c.una == x.c.nxt == c.nxt - 1 && c.una == x.c.una && Close(x.c) == (c, Some(Resend(c)))
    requires c == x.c.(state := c.state, nxt := c.nxt, flags := FIN_ACK, tx := [], retries := 0, rto := c.rto, rx := [])
    requires r == Finned(x, c)
    ensures Inv(r)
  {
    hide NetOk, WritesOk, OurSeg, RecvSide, SendSide, PeerOk, Resend;
    NotClosed(x);
    CloseSound(x.c, x.iss, x.sent);
    CloseReceives(x, c);
    hide Close, EdgeOk;
    CloseSegment(x, c);
    CloseNet(x, c, r);
    WritesSame(x, r);
    CloseEdge(x, c, r);
  }

  lemma CloseEdge(x: Sys, c: Conn, r: Sys)
    requires 0 <= c.nxt - c.una && EdgeOk(c, x.edge) && r == Finned(x, c)
    ensures EdgeOk(r.c, r.edge)
  {
    hide Unacked;
  }

  lemma CloseReceives(x: Sys, c: Conn)
    requires Inv(x) && x.phase != Over && c.rx == [] && c.rcv == x.c.rcv && c.eof == x.c.eof
        && (x.c.state == SynRcvd ==> c.state == SynRcvd)
    requires c.state == SynRcvd ==> x.c.state == SynRcvd
    ensures RecvSide(c, x.irs, x.stream, x.got, true) && EdgeOk(c, x.edge)
  {
    hide SendSide, NetOk, WritesOk, PeerOk;
  }

  lemma CloseSegment(x: Sys, c: Conn)
    requires SendSide(c, x.iss, x.sent, true) && c.una < c.nxt && c.flags == FIN_ACK
    ensures var a := Resend(c); a.data == [] && a.flags == FIN_ACK && a.sq == x.iss + 1 + |x.sent|
  {
  }

  lemma CloseNet(x: Sys, c: Conn, r: Sys)
    requires 0 <= c.nxt - c.una && c.una <= x.peer.rcv && NetOk(x) && PeerOk(x) && !x.fin && r == Finned(x, c)
    requires var a := Resend(c); a.data == [] && a.flags == FIN_ACK && a.sq == x.iss + 1 + |x.sent|
    ensures NetOk(r) && PeerOk(r)
  {
    hide Resend;
    assert OurSeg(r, Resend(c));
    hide OurSeg, Conforming;
    NetGrows(x, r);
  }

  lemma TimerKeeps(x: Sys, r: Sys)
    requires Inv(x) && Legal(x, TimerActs) && r == Next(x, TimerActs)
    ensures Inv(r)
  {
    hide SendSide, RecvSide, NetOk, WritesOk, PeerOk, EdgeOk, OverOk;
    if x.phase == Over {
      TimerIdle(x, r);
    } else if x.c.retries >= MAX_RETRIES {
      NotClosed(x);
      Ends(x, Timeout(x.c).0, x.high, Parked, [], r);
    } else {
      TimerRetries(x, Timeout(x.c).0, r);
    }
  }

  /** On a cleared connection the timer sends one empty segment to nobody. */
  lemma TimerIdle(x: Sys, r: Sys)
    requires Inv(x) && x.phase == Over && Legal(x, TimerActs) && r == Next(x, TimerActs)
    ensures Inv(r)
  {
    hide OurSeg, Conforming, NetOk, WritesOk, PeerOk;
    assert r == x.(c := x.c.(retries := x.c.retries + 1), timer := Parked, stray := x.stray + {STRAY});
    assert NetOk(r) by { NetGrows(x, r); }
    WritesSame(x, r);
    assert PeerOk(r) by { PeerSame(x, r); }
  }

  lemma PeerSame(x: Sys, r: Sys)
    requires PeerOk(x) && r == x.(c := r.c, timer := r.timer, stray := r.stray)
    ensures PeerOk(r)
  {
  }

  lemma TimerRetries(x: Sys, c: Conn, r: Sys)
    requires Inv(x) && x.phase != Over && 0 <= c.nxt - c.una && 0 <= c.retries <= MAX_RETRIES
    requires c == x.c.(retries := c.retries, rto := c.rto) && r == Sends(x.(c := c, timer := Parked), Resend(c))
    ensures Inv(r)
  {
    hide NetOk, WritesOk, PeerOk, OurSeg, EndsWith;
    NotClosed(x);
    assert SendSide(c, x.iss, x.sent, x.fin) && RecvSide(c, x.irs, x.stream, x.got, x.phase == Closing);
    hide SendSide, RecvSide, EdgeOk;
    OurResend(x, c);
    SendsOne(x.(c := c, timer := Parked), Resend(c));
    GoesOn(x, c, x.high, Parked, [Resend(c)], r);
  }

  lemma CloseActsKeeps(x: Sys, r: Sys)
    requires Inv(x) && Legal(x, CloseActs) && r == Next(x, CloseActs)
    ensures Inv(r)
  {
    hide SendSide, RecvSide, NetOk, WritesOk, PeerOk, OurSeg;
    if x.phase == Over {
      LateClose(x, r);
    } else {
      NotClosed(x);
      var y := x.(overdue := x.overdue - 1);
      assert WritesOk(y) by { WritesSame(x, y); }
      Aside(x, y);
      Ends(y, Disconnect(x.c), x.high, x.timer, [], r);
    }
  }

  lemma LateClose(x: Sys, r: Sys)
    requires Inv(x) && x.phase == Over && Legal(x, CloseActs) && r == Next(x, CloseActs)
    ensures Inv(r)
  {
    hide OurSeg, Conforming, Placed;
    assert OverOk(r);
    NetGrows(x, r);
    WritesSame(x, r);
  }

  lemma ClockKeeps(x: Sys, e: Event, r: Sys)
    requires Inv(x) && Legal(x, e) && (e.CloseExpires? || e.TimerArms? || e.TimerExpires?) && r == Next(x, e)
    ensures Inv(r)
  {
    if x.phase != Over { NotClosed(x); }
    WritesSame(x, r);
    hide SendSide, RecvSide, NetOk, WritesOk, PeerOk;
    Aside(x, r);
  }

  lemma NextKeeps(x: Sys, e: Event, r: Sys)
    requires Inv(x) && Legal(x, e) && r == Next(x, e)
    ensures Inv(r)
  {
    hide Inv;
    match e {
      case PeerSends(s) => PeerSendsKeeps(x, s);
      case PeerGets(s) => PeerGetsKeeps(x, s);
      case Deliver(s) => DeliverKeeps(x, s, r);
      case WriteCall(buf) => WriteCallKeeps(x, buf, r);
      case Offer(i) => OfferKeeps(x, i, r);
      case OfferReturns(i) => OfferReturnsKeeps(x, i, r);
      case WriteReturns(i) => FewerWrites(x, i, r);
      case ReadCall(n) => ReadKeeps(x, n, r);
      case CloseCall => CloseKeeps(x, r);
      case CloseActs => CloseActsKeeps(x, r);
      case TimerActs => TimerKeeps(x, r);
      case _ => ClockKeeps(x, e, r);
    }
  }
}
