/** tcp.c on its own terms: 32-bit sequence numbers compared by signed difference, and a
    2048-byte ring written and read through wrapping counters. Each method is one section
    under the mutex and does to the connection what TcpSpec says. */
module Tcp {
  import opened Config
  import opened TcpSpec

  /** A segment as it crosses the wire. */
  datatype Wire = Wire(sq: int, ack: int, flags: Flags, data: seq<Byte>, window: int)

  function ToWire(s: Seg): Wire {
    Wire(U32(s.sq), U32(s.ack), s.flags, s.data, s.window)
  }

  function ToWires(s: seq<Seg>): seq<Wire> {
    seq(|s|, i requires 0 <= i < |s| => ToWire(s[i]))
  }

  /** Not stale by a full wrap of the numbers: what tells a segment from its repetition a wrap
      later. A reset is looked at for its number alone. */
  predicate InWrap(c: Conn, s: Seg) {
    if s.flags.rst then -TWO32 < c.rcv - s.sq <= TWO32 - WINDOW
    else SqInWrap(c, s) && (s.flags.ack ==> AckInWrap(c.una, c.nxt, s.ack))
  }

  predicate SqInWrap(c: Conn, s: Seg) {
    s.data != [] || s.flags.fin ==> -TWO32 < c.rcv - s.sq < TWO32
  }

  predicate AckInWrap(una: int, nxt: int, ack: int) {
    (ack <= nxt || ack - una < TWO31) && nxt - ack < TWO32
  }

  /** SEQ_LT and SEQ_LEQ. */
  method SeqLt(a: int, b: int, ghost x: int, ghost y: int) returns (r: bool)
    requires a == U32(x) && b == U32(y)
    ensures r <==> S32(U32(x) - U32(y)) < 0
    ensures -TWO31 <= x - y < TWO31 ==> (r <==> x < y)
  {
    if -TWO31 <= x - y < TWO31 { SignedDifference(x, y); }
    r := S32(a - b) < 0;
  }

  method SeqLeq(a: int, b: int, ghost x: int, ghost y: int) returns (r: bool)
    requires a == U32(x) && b == U32(y)
    ensures r <==> S32(U32(x) - U32(y)) <= 0
    ensures -TWO31 <= x - y < TWO31 ==> (r <==> x <= y)
  {
    if -TWO31 <= x - y < TWO31 { SignedDifference(x, y); }
    r := S32(a - b) <= 0;
  }

  /** The signed difference of two words for numbers up to a wrap apart. */
  lemma SignedGap(x: int, y: int)
    requires -TWO32 <= x - y < TWO32
    ensures S32(U32(x) - U32(y)) ==
              if x - y < -TWO31 then x - y + TWO32 else if x - y < TWO31 then x - y else x - y - TWO32
  {
    var d, k := x - y, x / TWO32 - y / TWO32;
    assert U32(x) - U32(y) == d - TWO32 * k;
    ModShift(d, k);
    ModShift(d, if d < 0 then -1 else 0);
  }

  /** recv's two tests of the acknowledgement number, exactly: they accept what is outstanding,
      and one number that is not. */
  lemma AckAccepted(una: int, nxt: int, ack: int)
    requires 0 <= nxt - una <= TWO31 && AckInWrap(una, nxt, ack)
    ensures S32(U32(una) - U32(ack)) < 0 && S32(U32(ack) - U32(nxt)) <= 0 <==>
            una < ack <= nxt || (una == nxt && una - ack == TWO31)
  {
    SignedGap(una, ack);
    SignedGap(ack, nxt);
  }

  /** recv's two tests of a reset's number, exactly. */
  lemma ResetAccepted(rcv: int, sq: int)
    requires -TWO32 < rcv - sq <= TWO32 - WINDOW
    ensures S32(U32(rcv) - U32(sq)) <= 0 && S32(U32(sq) - U32(rcv + WINDOW)) < 0 <==> rcv <= sq < rcv + WINDOW
  {
    SignedGap(rcv, sq);
    SignedGap(sq, rcv + WINDOW);
  }

  /** Numbers less than 2^32 apart are equal when their words are. */
  lemma SameWord(x: int, y: int)
    requires -TWO32 < x - y < TWO32
    ensures U32(x) == U32(y) <==> x == y
  {
    assert x == x / TWO32 * TWO32 + U32(x) && y == y / TWO32 * TWO32 + U32(y);
  }

  lemma WordGap(x: int, y: int)
    requires 0 <= x - y < TWO32
    ensures U32(U32(x) - U32(y)) == x - y
  {
    assert U32(x) - U32(y) == (x - y) - TWO32 * (x / TWO32 - y / TWO32);
    ModShift(x - y, x / TWO32 - y / TWO32);
  }

  /** The ring size divides the counter range, so wrapping keeps the slot. */
  lemma SlotOf(x: nat)
    ensures U32(x) % RING == x % RING
  {
    assert x == x / TWO32 * TWO32 + U32(x);
    assert x == RING * (x / TWO32 * (TWO32 / RING)) + U32(x);
    SlotShift(U32(x), x / TWO32 * (TWO32 / RING));
  }

  lemma SlotShift(x: int, k: int)
    ensures (RING * k + x) % RING == x % RING
  {
  }

  /** The n bytes stored from counter `tail` on. */
  function RingBytes(ring: seq<Byte>, tail: nat, n: nat): (s: seq<Byte>)
    requires |ring| == RING
    ensures |s| == n
  {
    seq(n, i requires 0 <= i < n => ring[(tail + i) % RING])
  }

  /** Slots of counters less than a ring apart are different. */
  lemma SlotsDiffer(x: nat, y: nat)
    requires 0 < y - x < RING
    ensures x % RING != y % RING
  {
    assert x == x / RING * RING + x % RING && y == y / RING * RING + y % RING;
  }

  /** The ring after `data` has been written at counter `at`, wrapping round. */
  predicate Written(ring: seq<Byte>, ring': seq<Byte>, at: int, data: seq<Byte>) {
    && |ring| == RING == |ring'| && |data| <= RING && 0 <= at < RING
    && (forall j :: 0 <= j < |data| ==> ring'[if at + j < RING then at + j else at + j - RING] == data[j])
    && (forall k :: 0 <= k < RING && !(at <= k < at + |data|) && !(k + RING < at + |data|) ==> ring'[k] == ring[k])
  }

  lemma Step(x: nat, j: nat)
    requires j <= RING
    ensures (x + j) % RING == if x % RING + j < RING then x % RING + j else x % RING + j - RING
  {
    assert x + j == x / RING * RING + (x % RING + j);
    SlotShift(x % RING + j, x / RING);
  }

  lemma PutBytes(ring: seq<Byte>, ring': seq<Byte>, tail: nat, n: nat, data: seq<Byte>)
    requires n + |data| <= RING && Written(ring, ring', (tail + n) % RING, data)
    ensures RingBytes(ring', tail, n + |data|) == RingBytes(ring, tail, n) + data
  {
    var at := (tail + n) % RING;
    forall i | 0 <= i < n + |data| ensures ring'[(tail + i) % RING] == (RingBytes(ring, tail, n) + data)[i] {
      if i < n {
        Behind(tail, n, i, |data|);
      } else {
        Step(tail + n, i - n);
      }
    }
  }

  lemma Behind(tail: nat, n: nat, i: nat, len: nat)
    requires i < n && n + len <= RING
    ensures var at, k := (tail + n) % RING, (tail + i) % RING; !(at <= k < at + len) && !(k + RING < at + len)
  {
    Step(tail + i, n - i);
  }

  /** rx is what the ring holds between the two counters. */
  ghost predicate Stored(ring: seq<Byte>, head: nat, tail: nat, rx: seq<Byte>) {
    |ring| == RING && tail <= head <= tail + RING && rx == RingBytes(ring, tail, head - tail)
  }

  lemma StoredSize(ring: seq<Byte>, head: nat, tail: nat, rx: seq<Byte>)
    requires Stored(ring, head, tail, rx)
    ensures tail <= head <= tail + RING && |rx| == head - tail
  {
  }

  /** The static record tcp_ctrl. */
  datatype Ctrl = Ctrl(
    state: TcpState, sndUna: int, sndNxt: int, rcvNxt: int,
    txFlags: Flags, txData: seq<Byte>, txLen: int, retries: int, rto: int,
    sender: bool, sendErr: int, rxHead: int, rxTail: int, rxEof: bool)

  const CLEARED := Ctrl(Closed, 0, 0, 0, NO_FLAGS, [], 0, 0, 0, false, 0, 0, 0, false)

  /** The numbers the words stand for. */
  datatype Numbers = Numbers(una: int, nxt: int, rcv: int, head: nat, tail: nat)

  predicate Matches(t: Ctrl, n: Numbers, rx: seq<Byte>) {
    && t.sndUna == U32(n.una) && t.sndNxt == U32(n.nxt) && t.rcvNxt == U32(n.rcv) && t.txLen == |t.txData| <= MSS
    && t.rxHead == U32(n.head) && t.rxTail == U32(n.tail) && |rx| == n.head - n.tail <= RING
    && 0 <= n.nxt - n.una <= TWO31
  }

  class Connection {
    var t: Ctrl
    const rxRing: array<Byte>
    ghost var n: Numbers
    ghost var rx: seq<Byte>

    ghost function Abs(): Conn
      reads this
    {
      Conn(t.state, n.una, n.nxt, n.rcv, t.txFlags, t.txData, t.retries, t.rto, t.sender, t.sendErr, rx, t.rxEof)
    }

    ghost predicate Valid()
      reads this, rxRing
    {
      Stored(rxRing[..], n.head, n.tail, rx) && Matches(t, n, rx)
    }

    constructor ()
      ensures Valid() && fresh(rxRing) && Abs() == RESET.(state := Listen)
    {
      t := CLEARED.(state := Listen);
      n, rx := Numbers(0, 0, 0, 0, 0), [];
      rxRing := new Byte[RING](_ => 0);
    }

    method RxRoom() returns (room: int)
      requires Valid()
      ensures room == Room(Abs())
    {
      WordGap(n.head, n.tail);
      room := RING - U32(t.rxHead - t.rxTail);
    }

    method SendSegment(sq: int, flags: Flags, data: seq<Byte>, ghost s: int) returns (w: Wire)
      requires Valid() && sq == U32(s)
      ensures w == ToWire(Emit(Abs(), s, flags, data))
    {
      hide Stored;
      var room := RxRoom();
      w := Wire(sq, t.rcvNxt, flags, data, if room < WINDOW then room else WINDOW);
    }

    method SendUnacked() returns (w: Wire)
      requires Valid()
      ensures w == ToWire(Resend(Abs()))
    {
      hide Stored;
      WordGap(n.nxt, n.una);
      var outstanding := U32(t.sndNxt - t.sndUna);
      var acked := if outstanding < t.txLen then t.txLen - outstanding else 0;
      w := SendSegment(t.sndUna, t.txFlags, t.txData[acked..acked + (t.txLen - acked)], n.una);
    }

    method SendNew(flags: Flags, data: seq<Byte>) returns (w: Wire)
      requires Valid() && |data| <= MSS
      modifies this`t
      ensures Valid() && Abs() == TcpSpec.SendNew(old(Abs()), flags, data).0
      ensures w == ToWire(TcpSpec.SendNew(old(Abs()), flags, data).1)
    {
      hide Stored;
      t := t.(txFlags := flags, txData := data, txLen := |data|, retries := 0, rto := RTO_INITIAL);
      w := SendUnacked();
    }

    /** memset, then the verdict for a blocked writer. */
    method Disconnect()
      requires Valid()
      modifies this
      ensures Valid() && Abs() == TcpSpec.Disconnect(old(Abs()))
    {
      hide Stored;
      NoBytes(rxRing[..], n.head, n.tail, rx);
      var sender := t.sender;
      t := CLEARED;
      n, rx := Numbers(0, 0, 0, 0, 0), [];
      if sender { t := t.(sendErr := -1); }
    }

    /** memcpy into the ring at slot `at`. */
    method CopyIn(at: int, data: seq<Byte>)
      requires rxRing.Length == RING && 0 <= at && at + |data| <= RING
      modifies rxRing
      ensures forall j :: 0 <= j < |data| ==> rxRing[at + j] == data[j]
      ensures forall k :: 0 <= k < RING && !(at <= k < at + |data|) ==> rxRing[k] == old(rxRing[k])
    {
      var i := 0;
      while i < |data|
        invariant 0 <= i <= |data|
        invariant forall j :: 0 <= j < i ==> rxRing[at + j] == data[j]
        invariant forall k :: 0 <= k < RING && !(at <= k < at + i) ==> rxRing[k] == old(rxRing[k])
      {
        rxRing[at + i] := data[i];
        i := i + 1;
      }
    }

    method RxPut(data: seq<Byte>)
      requires Valid() && |data| <= Room(Abs())
      modifies this, rxRing
      ensures Valid() && Abs() == old(Abs()).(rx := old(rx) + data)
    {
      hide RingBytes;
      ghost var ring := rxRing[..];
      SlotOf(n.head);
      var at := t.rxHead % RING;
      var first := RING - at;
      if first > |data| { first := |data|; }
      CopyIn(at, data[..first]);
      CopyIn(0, data[first..]);
      PutBytes(ring, rxRing[..], n.tail, n.head - n.tail, data);
      MoveHead(data);
    }

    /** rx_head += len: the data copied counts as stored. */
    method MoveHead(data: seq<Byte>)
      requires Matches(t, n, rx) && Stored(rxRing[..], n.head + |data|, n.tail, rx + data)
      modifies this`t, this`n, this`rx
      ensures Valid() && Abs() == old(Abs()).(rx := old(rx) + data)
    {
      hide Stored, RingBytes;
      StoredSize(rxRing[..], n.head + |data|, n.tail, rx + data);
      WrapSum(n.head, |data|);
      t := t.(rxHead := U32(t.rxHead + |data|));
      n, rx := n.(head := n.head + |data|), rx + data;
    }

    /** The two memcpys out of the ring: `first` bytes from slot `at` on, `rest` from its start. */
    method CopyOut(at: int, first: int, rest: int) returns (out: seq<Byte>)
      requires 0 <= at && 0 <= first && at + first <= rxRing.Length && 0 <= rest <= rxRing.Length
      ensures out == rxRing[..][at..at + first] + rxRing[..][..rest]
    {
      out := rxRing[at..at + first] + rxRing[..rest];
    }

    /** The bytes copied out; `room` is what the caller has space for. */
    method RxGet(room: nat) returns (out: seq<Byte>)
      requires Valid()
      modifies this
      ensures Valid() && var k := if room > |old(rx)| then |old(rx)| else room;
              out == old(rx)[..k] && Abs() == old(Abs()).(rx := old(rx)[k..])
    {
      hide RingBytes;
      WordGap(n.head, n.tail);
      SlotOf(n.tail);
      var avail := U32(t.rxHead - t.rxTail);
      var k := if room > avail then avail else room;
      var at := t.rxTail % RING;
      var first := RING - at;
      if first > k { first := k; }
      out := CopyOut(at, first, k - first);
      GetBytes(rxRing[..], n.tail, n.head - n.tail, k);
      MoveTail(k);
    }

    /** rx_tail += n: the k oldest bytes are gone. */
    method MoveTail(k: nat)
      requires Valid() && k <= |rx| && Stored(rxRing[..], n.head, n.tail + k, rx[k..])
      modifies this`t, this`n, this`rx
      ensures Valid() && Abs() == old(Abs()).(rx := old(rx)[k..])
    {
      hide Stored;
      WrapSum(n.tail, k);
      t := t.(rxTail := U32(t.rxTail + k));
      n, rx := n.(tail := n.tail + k), rx[k..];
    }

    /** recv's handling of the acknowledgement; false when the connection ended with it. */
    method TakeAck(w: Wire, ghost s: Seg) returns (open: bool)
      requires Valid() && w == ToWire(s) && (s.flags.ack ==> AckInWrap(n.una, n.nxt, s.ack))
      modifies this
      ensures Valid() && Abs() == TakeAckWord(old(Abs()), s)
      ensures old(t.state) != Closed ==> open == (t.state != Closed)
      ensures open ==> n.rcv == old(n.rcv)
    {
      hide Stored, AckInWrap;
      open := true;
      if !w.flags.ack { return; }
      AckAccepted(n.una, n.nxt, s.ack);
      var after := SeqLt(t.sndUna, w.ack, n.una, s.ack);
      if !after { return; }
      var within := SeqLeq(w.ack, t.sndNxt, s.ack, n.nxt);
      if !within { return; }
      t, n := t.(sndUna := w.ack), n.(una := s.ack);
      SameWord(n.una, n.nxt);
      if t.sndUna == t.sndNxt {
        if t.sender { t := t.(sender := false, sendErr := 0); }
        if t.state == SynRcvd {
          t := t.(state := Established);
        } else if t.state == FinWait1 {
          t := t.(state := FinWait2);
        } else if t.state == LastAck {
          Disconnect();
          open := false;
        }
      }
    }

    method AnswerNow() returns (w: Wire)
      requires Valid()
      ensures w == ToWire(Answer(Abs()))
    {
      hide Stored;
      w := SendSegment(t.sndNxt, ACK, [], n.nxt);
    }

    /** The peer's next number moves on. */
    method Advance(k: nat)
      requires Valid()
      modifies this`t, this`n
      ensures Valid() && Abs() == old(Abs()).(rcv := old(n.rcv) + k) && n.rcv == old(n.rcv) + k
    {
      hide Stored;
      WrapSum(n.rcv, k);
      t, n := t.(rcvNxt := U32(t.rcvNxt + k)), n.(rcv := n.rcv + k);
    }

    /** recv's handling of FIN. */
    method TakeFin(w: Wire, ghost s: Seg) returns (out: seq<Wire>)
      requires Valid() && w == ToWire(s) && (w.data == [] ==> SqInWrap(Abs(), s))
      modifies this
      ensures Valid() && Abs() == TcpSpec.TakeFin(old(Abs()), s).0
      ensures out == ToWires(TcpSpec.TakeFin(old(Abs()), s).1)
    {
      hide Stored;
      out := [];
      if !w.flags.fin { return; }
      if |w.data| == 0 {
        SameWord(s.sq, n.rcv);
        if w.sq != t.rcvNxt {
          var a := AnswerNow();
          return [a];
        }
      }
      if t.state == Established {
        Advance(1);
        var a := AnswerNow();
        out := [a];
        t := t.(state := CloseWait, rxEof := true);
      } else if t.state == FinWait2 {
        Advance(1);
        var a := AnswerNow();
        out := [a];
        Disconnect();
      }
    }

    method TakeData(w: Wire, ghost s: Seg)
      requires Valid() && w == ToWire(s) && InOrder(Abs(), s)
      modifies this, rxRing
      ensures Valid() && Abs() == TcpSpec.TakeData(old(Abs()), s)
    {
      hide Stored;
      Advance(|w.data|);
      if t.state == Established { RxPut(w.data); }
    }

    /** Everything behind the acknowledgement. */
    method TakeRest(w: Wire, ghost s: Seg) returns (out: seq<Wire>)
      requires Valid() && w == ToWire(s) && SqInWrap(Abs(), s)
      modifies this, rxRing
      ensures Valid() && Abs() == TcpSpec.TakeRest(old(Abs()), s).0
      ensures out == ToWires(TcpSpec.TakeRest(old(Abs()), s).1)
    {
      hide Stored, TcpSpec.TakeFin, TcpSpec.TakeData;
      out := [];
      if |w.data| > 0 {
        SameWord(s.sq, n.rcv);
        var room := RxRoom();
        if w.sq != t.rcvNxt || |w.data| > room {
          var a := AnswerNow();
          return [a];
        }
        TakeData(w, s);
        var a := AnswerNow();
        out := [a];
      }
      var fin := TakeFin(w, s);
      out := out + fin;
    }

    /** A reset counts when its number lies in the window. */
    method ResetIfInside(w: Wire, ghost s: Seg)
      requires Valid() && w == ToWire(s) && -TWO32 < n.rcv - s.sq <= TWO32 - WINDOW
      modifies this
      ensures Valid()
      ensures Abs() == if old(n.rcv) <= s.sq < old(n.rcv) + WINDOW then TcpSpec.Disconnect(old(Abs())) else old(Abs())
    {
      hide Stored, TcpSpec.Disconnect;
      ResetAccepted(n.rcv, s.sq);
      var from := SeqLeq(t.rcvNxt, w.sq, n.rcv, s.sq);
      if !from { return; }
      WrapSum(n.rcv, WINDOW);
      var to := SeqLt(w.sq, U32(t.rcvNxt + WINDOW), s.sq, n.rcv + WINDOW);
      if to { Disconnect(); }
    }

    /** recv in LISTEN: a SYN without ACK opens a connection, anything with an ACK is reset,
        a reset is dropped; `iss` is the random number drawn for the connection. */
    method Listening(w: Wire, ghost s: Seg, iss: int) returns (out: seq<Wire>)
      requires Valid() && t.state == Listen && w == ToWire(s) && 0 <= iss < TWO32
      modifies this
      ensures Valid()
      ensures if s.flags.rst || (!s.flags.syn && !s.flags.ack) then Abs() == old(Abs()) && out == []
              else if s.flags.ack then Abs() == old(Abs()) && out == [ToWire(Refuse(Abs(), s))]
              else Abs() == Open(old(Abs()), s.sq, iss).0 && out == [ToWire(Open(old(Abs()), s.sq, iss).1)]
      ensures out != [] && w.flags.ack ==> out[0].sq == w.ack && out[0].flags == RST && out[0].data == []
      ensures out != [] && !w.flags.ack ==> out[0].sq == iss && out[0].ack == U32(w.sq + 1) && out[0].flags == SYN_ACK
    {
      hide Stored;
      out := [];
      if w.flags.rst { return; }
      if w.flags.syn && !w.flags.ack {
        WrapSum(s.sq, 1);
        t := t.(rcvNxt := U32(w.sq + 1), sndUna := iss, sndNxt := U32(iss + 1), state := SynRcvd);
        n := n.(rcv := s.sq + 1, una := iss, nxt := iss + 1);
        var a := SendNew(SYN_ACK, []);
        out := [a];
      } else if w.flags.ack {
        var room := RxRoom();
        out := [Wire(w.ack, 0, RST, [], if room < WINDOW then room else WINDOW)];
      }
    }

    /** recv, for a segment of this connection in a state past LISTEN. */
    method Recv(w: Wire, ghost s: Seg) returns (out: seq<Wire>)
      requires Valid() && t.state != Closed && w == ToWire(s) && InWrap(Abs(), s)
      modifies this, rxRing
      ensures Valid() && Abs() == RecvWord(old(Abs()), s).0
      ensures out == ToWires(RecvWord(old(Abs()), s).1)
    {
      hide Stored, TakeAckWord, TcpSpec.TakeRest, TcpSpec.Disconnect, AckInWrap;
      out := [];
      if w.flags.rst {
        ResetIfInside(w, s);
        return;
      }
      if w.flags.syn && t.state == SynRcvd {
        var a := SendUnacked();
        return [a];
      }
      var open := TakeAck(w, s);
      if !open { return; }
      out := TakeRest(w, s);
    }

    /** send_data up to its wait for the acknowledgement. */
    method SendData(buf: seq<Byte>) returns (started: bool, out: seq<Wire>)
      requires Valid() && |buf| <= MSS
      modifies this
      ensures Valid() && Abs() == TcpSpec.SendData(old(Abs()), buf).0
      ensures started == TcpSpec.SendData(old(Abs()), buf).1.Some?
      ensures out == if started then [ToWire(TcpSpec.SendData(old(Abs()), buf).1.value)] else []
    {
      hide Stored;
      SameWord(n.una, n.nxt);
      if (t.state != Established && t.state != CloseWait) || t.sndUna != t.sndNxt { return false, []; }
      WrapSum(n.nxt, |buf|);
      t, n := t.(sender := true, sndNxt := U32(t.sndNxt + |buf|)), n.(nxt := n.nxt + |buf|);
      var a := SendNew(PSH_ACK, buf);
      started, out := true, [a];
    }

    /** tcp_conn_read once its wait is over. */
    method Read(room: nat) returns (bytes: seq<Byte>, got: int)
      requires Valid() && !ReadBlocks(Abs())
      modifies this
      ensures Valid() && (Abs(), bytes, got) == TcpSpec.Read(old(Abs()), room)
    {
      hide Stored;
      SameWord(n.head, n.tail);
      if t.rxHead != t.rxTail {
        bytes := RxGet(room);
        got := |bytes|;
      } else {
        bytes, got := [], if t.rxEof then 0 else -1;
      }
    }

    /** tcp_conn_close up to its wait. */
    method Close() returns (out: seq<Wire>)
      requires Valid()
      modifies this
      ensures Valid() && Abs() == TcpSpec.Close(old(Abs())).0
      ensures out == if TcpSpec.Close(old(Abs())).1.Some? then [ToWire(TcpSpec.Close(old(Abs())).1.value)] else []
    {
      hide Stored;
      Emptied(rxRing[..], n.head, n.tail, rx);
      t, n, rx := t.(rxTail := t.rxHead), n.(tail := n.head), [];
      SameWord(n.una, n.nxt);
      out := [];
      if (t.state == Established || t.state == CloseWait) && t.sndUna == t.sndNxt {
        WrapSum(n.nxt, 1);
        t := t.(state := if t.state == Established then FinWait1 else LastAck, sndNxt := U32(t.sndNxt + 1));
        n := n.(nxt := n.nxt + 1);
        var a := SendNew(FIN_ACK, []);
        out := [a];
      }
    }

    /** The timer process when its timed wait ran out. */
    method Timeout() returns (out: seq<Wire>)
      requires Valid()
      modifies this
      ensures Valid() && Abs() == TcpSpec.Timeout(old(Abs())).0
      ensures out == if TcpSpec.Timeout(old(Abs())).1.Some? then [ToWire(TcpSpec.Timeout(old(Abs())).1.value)] else []
    {
      hide Stored;
      out := [];
      if t.retries >= MAX_RETRIES {
        Disconnect();
      } else {
        t := t.(retries := t.retries + 1, rto := t.rto * 2);
        var a := SendUnacked();
        out := [a];
      }
    }
  }

  /** tcp_conn_write's loop: the buffer is offered to send_data chunk by chunk, each the one
      that TcpRuns offers from the same place, until one fails. `verdicts[j]` is what the j-th
      send_data returned. */
  method ConnWrite(buf: seq<Byte>, verdicts: seq<int>) returns (r: int, chunks: seq<seq<Byte>>)
    requires |verdicts| >= |buf|
    ensures |chunks| <= |buf| && Concat(chunks) <= buf && ChunksOf(chunks, buf)
    ensures forall j :: 0 <= j < |chunks| - 1 ==> verdicts[j] >= 0
    ensures r == |buf| || r == -1
    ensures r == -1 <==> chunks != [] && verdicts[|chunks| - 1] < 0
    ensures r == |buf| ==> Concat(chunks) == buf
  {
    hide ChunksOf, Concat, NextChunk;
    var off := 0;
    chunks := [];
    NoChunks(buf);
    while off < |buf|
      invariant 0 <= off <= |buf| && |chunks| <= off && Concat(chunks) == buf[..off]
      invariant off < |buf| ==> off == MSS * |chunks|
      invariant ChunksOf(chunks, buf)
      invariant forall j :: 0 <= j < |chunks| ==> verdicts[j] >= 0
    {
      var chunk := |buf| - off;
      if chunk > MSS { chunk := MSS; }
      IsNext(buf, off, chunk);
      ChunkMore(chunks, buf, off, buf[off..off + chunk]);
      chunks := chunks + [buf[off..off + chunk]];
      if verdicts[|chunks| - 1] < 0 { return -1, chunks; }
      off := off + chunk;
    }
    assert buf[..off] == buf;
    r := |buf|;
  }

  function Concat(s: seq<seq<Byte>>): seq<Byte> {
    if s == [] then [] else Concat(s[..|s| - 1]) + s[|s| - 1]
  }

  /** The chunks from the start of the buffer on, as tcp_conn_write cuts it. */
  predicate ChunksOf(chunks: seq<seq<Byte>>, buf: seq<Byte>) {
    forall j :: 0 <= j < |chunks| ==> MSS * j < |buf| && chunks[j] == NextChunk(buf, MSS * j)
  }

  lemma NoChunks(buf: seq<Byte>)
    ensures ChunksOf([], buf) && Concat([]) == buf[..0]
  {
  }

  lemma ChunkMore(chunks: seq<seq<Byte>>, buf: seq<Byte>, off: nat, chunk: seq<Byte>)
    requires ChunksOf(chunks, buf) && off == MSS * |chunks| < |buf| && Concat(chunks) == buf[..off]
    requires chunk == NextChunk(buf, off)
    ensures ChunksOf(chunks + [chunk], buf) && Concat(chunks + [chunk]) == buf[..off + |chunk|]
  {
    hide NextChunk, Concat, ChunksOf;
    OneMore(chunks, buf, chunk);
    ConcatMore(chunks, chunk);
    Adjoin(buf, off, |chunk|);
  }

  lemma OneMore(chunks: seq<seq<Byte>>, buf: seq<Byte>, chunk: seq<Byte>)
    requires ChunksOf(chunks, buf) && MSS * |chunks| < |buf| && chunk == NextChunk(buf, MSS * |chunks|)
    ensures ChunksOf(chunks + [chunk], buf)
  {
    hide NextChunk;
  }

  lemma Adjoin(buf: seq<Byte>, off: nat, n: nat)
    requires off + n <= |buf|
    ensures buf[..off] + buf[off..off + n] == buf[..off + n]
  {
  }

  lemma IsNext(buf: seq<Byte>, off: nat, n: nat)
    requires off < |buf| && n == if |buf| - off > MSS then MSS else |buf| - off
    ensures buf[off..off + n] == NextChunk(buf, off)
  {
  }

  lemma ConcatMore(s: seq<seq<Byte>>, c: seq<Byte>)
    ensures Concat(s + [c]) == Concat(s) + c
  {
    assert (s + [c])[..|s|] == s;
  }

  lemma Emptied(ring: seq<Byte>, head: nat, tail: nat, rx: seq<Byte>)
    requires Stored(ring, head, tail, rx)
    ensures Stored(ring, head, head, [])
  {
  }

  lemma GetBytes(ring: seq<Byte>, tail: nat, n: nat, k: nat)
    requires |ring| == RING && k <= n <= RING
    ensures var at := tail % RING; var first := if RING - at > k then k else RING - at;
            ring[at..at + first] + ring[..k - first] == RingBytes(ring, tail, n)[..k]
    ensures RingBytes(ring, tail + k, n - k) == RingBytes(ring, tail, n)[k..]
  {
    var at := tail % RING;
    var first := if RING - at > k then k else RING - at;
    forall i | 0 <= i < k ensures (ring[at..at + first] + ring[..k - first])[i] == RingBytes(ring, tail, n)[i] {
      Step(tail, i);
    }
  }

  lemma NoBytes(ring: seq<Byte>, head: nat, tail: nat, rx: seq<Byte>)
    requires Stored(ring, head, tail, rx)
    ensures Stored(ring, 0, 0, [])
  {
  }
}
