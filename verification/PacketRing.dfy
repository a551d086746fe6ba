/** The ring between the receiver and ipv4_proc: one producer and one consumer, interleaved
    at every statement that matters, with counters that wrap at 32 bits. */
module PacketRing {
  import opened Config

  const SLOTS: int := 4
  const MTU: int := 1500

  /** What a slot holds: the sender's hardware address and the packet. */
  datatype Packet = Packet(sa: seq<Byte>, data: seq<Byte>)

  const EMPTY := Packet([0, 0, 0, 0, 0, 0], [])

  /** Where ipv4_enqueue stands. Copied and Counted are the states behind the copy into the
      slot and behind the increment of ring_head. */
  datatype Producer = Idle | Cleared(pkt: Packet) | Copied | Counted

  /** Where ipv4_proc stands; Busy while ipv4_recv reads the slot. */
  datatype Consumer = Waiting | Busy(pkt: Packet) | Done

  /** `head` and `tail` are the counters as words. `accepted` and `processed` only observe, as
      do the unwrapped counts `h` and `t`. */
  datatype Sys = Sys(
    head: int, tail: int, slots: seq<Packet>, tokens: nat, p: Producer, c: Consumer,
    accepted: seq<Packet>, processed: seq<Packet>, h: nat, t: nat)

  datatype Event = Arrive(pkt: Packet) | Copy | CountHead | Signal | Wait | Finish | CountTail

  predicate Shape(x: Sys) { |x.slots| == SLOTS }

  predicate Legal(x: Sys, e: Event) {
    match e
    case Arrive(_) => x.p.Idle?
    case Copy => x.p.Cleared?
    case CountHead => x.p.Copied?
    case Signal => x.p.Counted?
    case Wait => x.c.Waiting? && x.tokens > 0
    case Finish => x.c.Busy?
    case CountTail => x.c.Done?
  }

  /** The two tests of ipv4_enqueue. */
  predicate Refused(x: Sys, pkt: Packet) {
    |pkt.data| > MTU || U32(x.head - x.tail) >= SLOTS
  }

  function Slot(count: int): (i: nat)
    ensures i < SLOTS
  {
    count % SLOTS
  }

  function Next(x: Sys, e: Event): (r: Sys)
    requires Shape(x) && Legal(x, e)
    ensures Shape(r)
  {
    match e
    case Arrive(pkt) => if Refused(x, pkt) then x else x.(p := Cleared(pkt))
    case Copy => x.(slots := x.slots[Slot(x.head) := x.p.pkt], accepted := x.accepted + [x.p.pkt], p := Copied)
    case CountHead => x.(head := U32(x.head + 1), h := x.h + 1, p := Counted)
    case Signal => x.(tokens := x.tokens + 1, p := Idle)
    case Wait => x.(tokens := x.tokens - 1, c := Busy(x.slots[Slot(x.tail)]))
    case Finish => x.(processed := x.processed + [x.c.pkt], c := Done)
    case CountTail => x.(tail := U32(x.tail + 1), t := x.t + 1, c := Waiting)
  }

  // ---- the invariant ----

  function InProcess(x: Sys): nat { if x.c.Waiting? then 0 else 1 }

  function Unsignalled(x: Sys): nat { if x.p.Counted? then 1 else 0 }

  ghost predicate Inv(x: Sys) {
    && Shape(x) && x.head == U32(x.h) && x.tail == U32(x.t) && x.t <= x.h
    && x.tokens + InProcess(x) + Unsignalled(x) == x.h - x.t
    && x.h - x.t + (if x.p.Cleared? || x.p.Copied? then 1 else 0) <= SLOTS
    && |x.accepted| == x.h + (if x.p.Copied? then 1 else 0)
    && (forall j :: x.t <= j < |x.accepted| ==> x.slots[Slot(j)] == x.accepted[j])
    && |x.processed| == x.t + (if x.c.Done? then 1 else 0) && x.processed <= x.accepted
    && (x.c.Busy? ==> x.t < x.h && x.c.pkt == x.accepted[x.t])
  }

  /** Four divides the counters' range. */
  lemma SlotWraps(k: nat)
    ensures Slot(U32(k)) == Slot(k)
  {
    assert k == k / TWO32 * TWO32 + U32(k);
    assert k == SLOTS * (k / TWO32 * (TWO32 / SLOTS)) + U32(k);
  }

  lemma SlotsDiffer(i: nat, j: nat)
    requires i < j < i + SLOTS
    ensures Slot(i) != Slot(j)
  {
  }

  lemma WordGap(h: nat, t: nat)
    requires t <= h < t + TWO32
    ensures U32(U32(h) - U32(t)) == h - t
  {
    assert U32(h) - U32(t) == (h - t) - TWO32 * (h / TWO32 - t / TWO32);
    ModShift(h - t, h / TWO32 - t / TWO32);
  }

  lemma CopyKeeps(x: Sys)
    requires Inv(x) && x.p.Cleared?
    ensures Inv(Next(x, Copy))
  {
    var r := Next(x, Copy);
    SlotWraps(x.h);
    forall j | x.t <= j < |r.accepted| ensures r.slots[Slot(j)] == r.accepted[j] {
      if j < x.h { SlotsDiffer(j, x.h); }
    }
  }

  lemma WaitKeeps(x: Sys)
    requires Inv(x) && Legal(x, Wait)
    ensures Inv(Next(x, Wait))
  {
    SlotWraps(x.t);
    assert x.slots[Slot(x.t)] == x.accepted[x.t];
  }

  lemma FinishKeeps(x: Sys)
    requires Inv(x) && Legal(x, Finish)
    ensures Inv(Next(x, Finish))
  {
    var r := Next(x, Finish);
    assert r.processed == x.accepted[..x.t] + [x.accepted[x.t]];
    assert r.processed == x.accepted[..x.t + 1];
  }

  lemma CountKeeps(x: Sys)
    requires Inv(x)
    ensures x.p.Copied? ==> Inv(Next(x, CountHead))
    ensures x.c.Done? ==> Inv(Next(x, CountTail))
  {
    WrapSum(x.h, 1);
    WrapSum(x.t, 1);
  }

  lemma ArriveKeeps(x: Sys, pkt: Packet)
    requires Inv(x) && x.p.Idle?
    ensures Inv(Next(x, Arrive(pkt)))
    ensures Refused(x, pkt) <==> |pkt.data| > MTU || x.h - x.t == SLOTS
  {
    WordGap(x.h, x.t);
  }

  /** In every interleaving: tokens, the packet in processing and the one published but not
      yet signalled make up head - tail, which is at most 4. */
  lemma NextKeeps(x: Sys, e: Event)
    requires Inv(x) && Legal(x, e)
    ensures Inv(Next(x, e))
  {
    match e {
      case Arrive(pkt) => ArriveKeeps(x, pkt);
      case Copy => CopyKeeps(x);
      case CountHead => CountKeeps(x);
      case Wait => WaitKeeps(x);
      case Finish => FinishKeeps(x);
      case CountTail => CountKeeps(x);
      case Signal =>
    }
  }

  // ---- runs ----

  function Start(): (x: Sys)
    ensures Shape(x)
  {
    Sys(0, 0, [EMPTY, EMPTY, EMPTY, EMPTY], 0, Idle, Waiting, [], [], 0, 0)
  }

  predicate IsRun(x: Sys, es: seq<Event>)
    requires Shape(x)
    decreases |es|
  {
    es == [] || (Legal(x, es[0]) && IsRun(Next(x, es[0]), es[1..]))
  }

  function Run(x: Sys, es: seq<Event>): (r: Sys)
    requires Shape(x) && IsRun(x, es)
    ensures Shape(r)
    decreases |es|
  {
    if es == [] then x else Run(Next(x, es[0]), es[1..])
  }

  lemma {:induction false} RunKeeps(x: Sys, es: seq<Event>)
    requires Inv(x) && IsRun(x, es)
    ensures Inv(Run(x, es))
    decreases |es|
  {
    if es != [] {
      NextKeeps(x, es[0]);
      hide Inv, Next, Legal;
      RunKeeps(Next(x, es[0]), es[1..]);
    }
  }

  lemma Reached(es: seq<Event>)
    requires IsRun(Start(), es)
    ensures Inv(Run(Start(), es))
  {
    StartInv();
    hide Inv, Next, Legal, Start, Run, IsRun;
    RunKeeps(Start(), es);
  }

  lemma StartInv()
    ensures Inv(Start())
  {
  }

  /** The accounting of the ring in every reachable state. */
  lemma TokensBalance(es: seq<Event>)
    requires IsRun(Start(), es)
    ensures var x := Run(Start(), es);
            && x.tokens + InProcess(x) + Unsignalled(x) == U32(x.head - x.tail) <= SLOTS
            && (x.tokens > 0 ==> x.head != x.tail)
  {
    hide Next, Legal, Start, Run, IsRun;
    Reached(es);
    var x := Run(Start(), es);
    WordGap(x.h, x.t);
  }

  /** Packets are processed in the order they were accepted, each once and as it arrived. */
  lemma InOrder(es: seq<Event>)
    requires IsRun(Start(), es)
    ensures var x := Run(Start(), es); x.processed <= x.accepted && |x.accepted| - |x.processed| <= SLOTS
  {
    hide Next, Legal, Start, Run, IsRun;
    Reached(es);
  }

  /** The slot being processed still holds its packet, wherever the producer has got to. */
  lemma SlotStable(es: seq<Event>)
    requires IsRun(Start(), es)
    ensures var x := Run(Start(), es); x.c.Busy? ==> x.slots[Slot(x.tail)] == x.c.pkt
  {
    hide Next, Legal, Start, Run, IsRun;
    Reached(es);
    var x := Run(Start(), es);
    SlotWraps(x.t);
    if x.c.Busy? { assert x.slots[Slot(x.t)] == x.accepted[x.t]; }
  }

  /** A packet is refused exactly when it is of more than 1500 bytes or four others are
      unfinished, and then leaves no trace. */
  lemma RefusedWhenFull(es: seq<Event>, pkt: Packet)
    requires IsRun(Start(), es) && Run(Start(), es).p.Idle?
    ensures var x := Run(Start(), es);
            && (Refused(x, pkt) <==> |pkt.data| > 1500 || x.h - x.t == 4)
            && (Refused(x, pkt) <==> Next(x, Arrive(pkt)) == x)
  {
    hide Next, Start, Run, IsRun, Refused;
    Reached(es);
    ArriveKeeps(Run(Start(), es), pkt);
    Traceless(Run(Start(), es), pkt);
  }

  lemma Traceless(x: Sys, pkt: Packet)
    requires Shape(x) && x.p.Idle?
    ensures Refused(x, pkt) <==> Next(x, Arrive(pkt)) == x
  {
  }

  // ---- the code ----

  class Ring {
    var head: int
    var tail: int
    const slots: array<Packet>
    ghost var h: nat
    ghost var t: nat
    ghost var queue: seq<Packet>

    ghost predicate Valid()
      reads this, slots
    {
      && slots.Length == SLOTS && head == U32(h) && tail == U32(t) && h - t == |queue| <= SLOTS
      && forall j :: t <= j < h ==> slots[Slot(j)] == queue[j - t]
    }

    constructor ()
      ensures Valid() && fresh(slots) && queue == []
    {
      head, tail, h, t, queue := 0, 0, 0, 0, [];
      slots := new Packet[SLOTS](_ => EMPTY);
    }

    /** ipv4_enqueue: `signalled` tells whether the consumer is given a token. */
    method Enqueue(pkt: Packet) returns (signalled: bool)
      requires Valid()
      modifies this, slots
      ensures Valid() && signalled == (|pkt.data| <= MTU && |old(queue)| < SLOTS)
      ensures queue == if signalled then old(queue) + [pkt] else old(queue)
    {
      WordGap(h, t);
      if |pkt.data| > MTU { return false; }
      if U32(head - tail) >= SLOTS { return false; }
      SlotWraps(h);
      forall j | t <= j < h ensures Slot(j) != Slot(h) { SlotsDiffer(j, h); }
      slots[Slot(head)] := pkt;
      WrapSum(h, 1);
      head, h, queue := U32(head + 1), h + 1, queue + [pkt];
      signalled := true;
    }

    /** One turn of ipv4_proc: the packet handed to ipv4_recv. */
    method Process() returns (pkt: Packet)
      requires Valid() && queue != []
      modifies this
      ensures Valid() && pkt == old(queue)[0] && queue == old(queue)[1..]
    {
      SlotWraps(t);
      pkt := slots[Slot(tail)];
      assert slots[Slot(t)] == queue[0];
      WrapSum(t, 1);
      tail, t, queue := U32(tail + 1), t + 1, queue[1..];
    }
  }
}
