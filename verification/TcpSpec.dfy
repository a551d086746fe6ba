/** One TCP connection on values: sequence numbers that never wrap and an unbounded view of
    the receive ring. Class Tcp.Connection does the same on 32-bit words and a ring buffer. */
module TcpSpec {
  import opened Config

  const MSS: int := 536
  const WINDOW: int := 2 * MSS
  const RING: int := 2048
  const RTO_INITIAL: int := 1000
  const MAX_RETRIES: int := 5

  datatype TcpState = Closed | Listen | SynRcvd | Established | CloseWait | FinWait1 | FinWait2 | LastAck

  datatype Flags = Flags(syn: bool, ack: bool, fin: bool, psh: bool, rst: bool)

  const SYN_ACK := Flags(true, true, false, false, false)
  const ACK := Flags(false, true, false, false, false)
  const PSH_ACK := Flags(false, true, false, true, false)
  const FIN_ACK := Flags(false, true, true, false, false)
  const NO_FLAGS := Flags(false, false, false, false, false)

  datatype Seg = Seg(sq: int, ack: int, flags: Flags, data: seq<Byte>, window: int)

  /** tcp_ctrl. `rx` is what the ring holds, `tx` the buffer last given to send_new. */
  datatype Conn = Conn(
    state: TcpState, una: int, nxt: int, rcv: int,
    flags: Flags, tx: seq<Byte>, retries: int, rto: int,
    sender: bool, sendErr: int, rx: seq<Byte>, eof: bool)

  const RESET := Conn(Closed, 0, 0, 0, NO_FLAGS, [], 0, 0, false, 0, [], false)

  predicate Connected(c: Conn) {
    c.state == Established || c.state == CloseWait
  }

  function Room(c: Conn): int {
    RING - |c.rx|
  }

  function Emit(c: Conn, sq: int, flags: Flags, data: seq<Byte>): Seg {
    Seg(sq, c.rcv, flags, data, if Room(c) < WINDOW then Room(c) else WINDOW)
  }

  /** send_unacked: the part of the last buffer the peer has not acknowledged. */
  function Unacked(c: Conn): seq<Byte>
    requires 0 <= c.nxt - c.una
  {
    var outstanding := c.nxt - c.una;
    c.tx[if outstanding < |c.tx| then |c.tx| - outstanding else 0..]
  }

  function Resend(c: Conn): Seg
    requires 0 <= c.nxt - c.una
  {
    Emit(c, c.una, c.flags, Unacked(c))
  }

  function SendNew(c: Conn, flags: Flags, data: seq<Byte>): (Conn, Seg)
    requires 0 <= c.nxt - c.una
  {
    var r := c.(flags := flags, tx := data, retries := 0, rto := RTO_INITIAL);
    (r, Resend(r))
  }

  /** disconnect: everything is cleared; a blocked writer is told. */
  function Disconnect(c: Conn): Conn {
    RESET.(sendErr := if c.sender then -1 else 0)
  }

  function Answer(c: Conn): Seg {
    Emit(c, c.nxt, ACK, [])
  }

  /** recv in LISTEN: a SYN opens the connection with our initial number iss. */
  function Open(c: Conn, sq: int, iss: int): (Conn, Seg) {
    SendNew(c.(rcv := sq + 1, una := iss, nxt := iss + 1, state := SynRcvd), SYN_ACK, [])
  }

  const RST := Flags(false, false, false, false, true)

  /** recv's answer in LISTEN to a segment that acknowledges something. */
  function Refuse(c: Conn, s: Seg): Seg {
    Emit(c.(rcv := 0), s.ack, RST, [])
  }

  predicate Acceptable(c: Conn, s: Seg) {
    s.flags.ack && c.una < s.ack <= c.nxt
  }

  /** recv's handling of the acknowledgement field. */
  function TakeAck(c: Conn, s: Seg): Conn {
    if !Acceptable(c, s) then c
    else
      var c1 := c.(una := s.ack);
      if c1.una != c1.nxt then c1
      else
        var c2 := if c1.sender then c1.(sender := false, sendErr := 0) else c1;
        match c2.state
        case SynRcvd => c2.(state := Established)
        case FinWait1 => c2.(state := FinWait2)
        case LastAck => Disconnect(c2)
        case _ => c2
  }

  predicate InOrder(c: Conn, s: Seg) {
    s.sq == c.rcv && |s.data| <= Room(c)
  }

  function TakeData(c: Conn, s: Seg): Conn {
    c.(rcv := c.rcv + |s.data|, rx := if c.state == Established then c.rx + s.data else c.rx)
  }

  /** recv's handling of FIN, data taken; the answer, if any. */
  function TakeFin(c: Conn, s: Seg): (Conn, seq<Seg>) {
    if !s.flags.fin then (c, [])
    else if |s.data| == 0 && s.sq != c.rcv then (c, [Answer(c)])
    else if c.state == Established then
      var c1 := c.(rcv := c.rcv + 1);
      (c1.(state := CloseWait, eof := true), [Answer(c1)])
    else if c.state == FinWait2 then
      var c1 := c.(rcv := c.rcv + 1);
      (Disconnect(c1), [Answer(c1)])
    else (c, [])
  }

  /** What recv does once the acknowledgement has been dealt with. */
  function TakeRest(c: Conn, s: Seg): (Conn, seq<Seg>) {
    if |s.data| == 0 then TakeFin(c, s)
    else if !InOrder(c, s) then (c, [Answer(c)])
    else
      var c2 := TakeData(c, s);
      var (c3, out) := TakeFin(c2, s);
      (c3, [Answer(c2)] + out)
  }

  /** recv for a segment of this connection, in any state past LISTEN. */
  function Recv(c: Conn, s: Seg): (Conn, seq<Seg>)
    requires 0 <= c.nxt - c.una
  {
    if s.flags.rst then (if c.rcv <= s.sq < c.rcv + WINDOW then Disconnect(c) else c, [])
    else if s.flags.syn && c.state == SynRcvd then (c, [Resend(c)])
    else
      var c1 := TakeAck(c, s);
      if c1.state == Closed then (c1, []) else TakeRest(c1, s)
  }

  /** An acknowledgement 2^31 behind, with nothing outstanding: the one the code's comparisons
      of 32-bit numbers take for new. */
  predicate Misread(c: Conn, s: Seg) {
    s.flags.ack && c.una == c.nxt && c.una - s.ack == TWO31
  }

  /** recv comes to look at the acknowledgement of s. */
  predicate LooksAtAck(c: Conn, s: Seg) {
    s.flags.ack && !s.flags.rst && !(s.flags.syn && c.state == SynRcvd)
  }

  /** recv's handling of the acknowledgement field as its 32-bit comparisons decide it. */
  function TakeAckWord(c: Conn, s: Seg): Conn {
    if Misread(c, s) then c.(una := s.ack) else TakeAck(c, s)
  }

  /** recv as its 32-bit comparisons decide it, for segments not stale by a full wrap. */
  function RecvWord(c: Conn, s: Seg): (Conn, seq<Seg>)
    requires 0 <= c.nxt - c.una
  {
    if s.flags.rst then (if c.rcv <= s.sq < c.rcv + WINDOW then Disconnect(c) else c, [])
    else if s.flags.syn && c.state == SynRcvd then (c, [Resend(c)])
    else
      var c1 := TakeAckWord(c, s);
      if c1.state == Closed then (c1, []) else TakeRest(c1, s)
  }

  /** send_data up to its wait; None when it fails at once. */
  function SendData(c: Conn, buf: seq<Byte>): (Conn, Option<Seg>) {
    if !Connected(c) || c.una != c.nxt then (c, None)
    else
      var (r, s) := SendNew(c.(sender := true, nxt := c.nxt + |buf|), PSH_ACK, buf);
      (r, Some(s))
  }

  /** The chunk tcp_conn_write offers next, `off` bytes having been acknowledged. */
  function NextChunk(buf: seq<Byte>, off: nat): (chunk: seq<Byte>)
    requires off < |buf|
    ensures 0 < |chunk| <= MSS && off + |chunk| <= |buf| && chunk == buf[off..off + |chunk|]
  {
    buf[off..if |buf| - off > MSS then off + MSS else |buf|]
  }

  predicate ReadBlocks(c: Conn) {
    c.rx == [] && !c.eof && c.state != Closed
  }

  /** tcp_conn_read once it no longer waits: the bytes copied and the value returned. */
  function Read(c: Conn, n: nat): (r: (Conn, seq<Byte>, int)) {
    if c.rx != [] then
      var k := if n > |c.rx| then |c.rx| else n;
      (c.(rx := c.rx[k..]), c.rx[..k], k)
    else (c, [], if c.eof then 0 else -1)
  }

  /** tcp_conn_close up to its wait. */
  function Close(c: Conn): (Conn, Option<Seg>) {
    var c1 := c.(rx := []);
    if Connected(c1) && c1.una == c1.nxt then
      var (r, s) := SendNew(c1.(state := if c1.state == Established then FinWait1 else LastAck, nxt := c1.nxt + 1),
          FIN_ACK, []);
      (r, Some(s))
    else (c1, None)
  }

  /** What the timer process does when its wait times out. It does not look again whether
      anything is outstanding. */
  function Timeout(c: Conn): (Conn, Option<Seg>)
    requires 0 <= c.nxt - c.una
  {
    if c.retries >= MAX_RETRIES then (Disconnect(c), None)
    else
      var r := c.(retries := c.retries + 1, rto := c.rto * 2);
      (r, Some(Resend(r)))
  }
}
