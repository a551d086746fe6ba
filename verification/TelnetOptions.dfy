/** Two ends running this code negotiate over two FIFO channels. Every message is about one
    side of one option, so the system falls into four independent conversations. */
module TelnetOptions {
  import opened Config
  import opened TelnetSpec

  datatype Msg = Msg(command: Byte, option: Byte)

  datatype End = End(local: Table, remote: Table)

  /** `ends[p]` are the two parties; `chan[p]` is what party p has sent and the other has not
      yet taken. */
  datatype Sys = Sys(ends: seq<End>, chan: seq<seq<Msg>>)

  datatype Event =
    | EnableLocal(p: nat, o: Byte)
    | EnableRemote(p: nat, o: Byte)
    | Take(p: nat)

  predicate Shape(x: Sys) { |x.ends| == 2 == |x.chan| }

  predicate Legal(x: Sys, e: Event)
    requires Shape(x)
  {
    match e
    case EnableLocal(p, _) => p < 2
    case EnableRemote(p, _) => p < 2
    case Take(p) => p < 2 && x.chan[1 - p] != []
  }

  function Send(x: Sys, p: nat, m: Msg): Sys
    requires Shape(x) && p < 2
  {
    x.(chan := x.chan[p := x.chan[p] + [m]])
  }

  /** enable_option asks only from the state NO. */
  function Enable(x: Sys, p: nat, local: bool, o: Byte): Sys
    requires Shape(x) && p < 2
  {
    var e := x.ends[p];
    if Get(if local then e.local else e.remote, o) != Some(No) then x
    else
      var e1 := if local then e.(local := Set(e.local, o, WantYes)) else e.(remote := Set(e.remote, o, WantYes));
      Send(x.(ends := x.ends[p := e1]), p, Msg(if local then WILL else DO, o))
  }

  /** p takes the next message and answers it if process_option does. */
  function TakeNext(x: Sys, p: nat): Sys
    requires Shape(x) && p < 2 && x.chan[1 - p] != []
  {
    var m, e := x.chan[1 - p][0], x.ends[p];
    var (t, r) := Negotiate(if Remote(m.command) then e.remote else e.local, m.command, m.option);
    var e1 := if Remote(m.command) then e.(remote := t) else e.(local := t);
    var x1 := x.(ends := x.ends[p := e1], chan := x.chan[1 - p := x.chan[1 - p][1..]]);
    if r.Some? then Send(x1, p, Msg(r.value, m.option)) else x1
  }

  function Next(x: Sys, e: Event): (r: Sys)
    requires Shape(x) && Legal(x, e)
    ensures Shape(r)
  {
    match e
    case EnableLocal(p, o) => Enable(x, p, true, o)
    case EnableRemote(p, o) => Enable(x, p, false, o)
    case Take(p) => TakeNext(x, p)
  }

  // ---- one conversation: p's own side of option o ----

  /** The messages of a channel that are about option o, from its owner (WILL, WONT) or to
      its owner (DO, DONT). */
  function Filter(s: seq<Msg>, remote: bool, o: Byte): seq<Byte> {
    if s == [] then []
    else (if Remote(s[0].command) == remote && s[0].option == o then [s[0].command] else []) + Filter(s[1..], remote, o)
  }

  /** p's local state of o, the other's remote state of it, and what is on its way. */
  datatype Talk = Talk(mine: OptState, theirs: OptState, fwd: seq<Byte>, back: seq<Byte>)

  function TalkOf(x: Sys, p: nat, o: Byte): Talk
    requires Shape(x) && p < 2 && Known(o)
  {
    Talk(Get(x.ends[p].local, o).value, Get(x.ends[1 - p].remote, o).value,
         Filter(x.chan[p], true, o), Filter(x.chan[1 - p], false, o))
  }

  /** The nine situations a conversation can be in. */
  predicate Sound(t: Talk) {
    || t == Talk(No, No, [], [])
    || t == Talk(WantYes, No, [WILL], [])
    || t == Talk(No, WantYes, [], [DO])
    || t == Talk(WantYes, WantYes, [WILL], [DO])
    || t == Talk(WantYes, Yes, [], [DO])
    || t == Talk(WantYes, No, [], [DONT])
    || t == Talk(WantYes, WantYes, [], [DONT, DO])
    || t == Talk(Yes, WantYes, [WILL], [])
    || t == Talk(Yes, Yes, [], [])
  }

  /** How many more messages a conversation can cause. */
  function Pending(t: Talk): nat {
    if t.fwd == [WILL] then (if t.mine == WantYes then 2 else 1)
    else if t.back == [DONT, DO] then 3
    else if t.back == [DO] then (if t.mine == No then 2 else 1)
    else if t.back == [DONT] then 1
    else 0
  }

  predicate MsgsOk(x: Sys)
    requires Shape(x)
  {
    forall p, i :: 0 <= p < 2 && 0 <= i < |x.chan[p]| ==>
      Known(x.chan[p][i].option) && WILL <= x.chan[p][i].command <= DONT
  }

  ghost predicate Inv(x: Sys) {
    && Shape(x)
    && (forall p, o :: 0 <= p < 2 && Known(o) ==> Sound(TalkOf(x, p, o)))
    && MsgsOk(x)
  }

  function Total(x: Sys): nat
    requires Shape(x)
  {
    Pending(TalkOf(x, 0, ECHO)) + Pending(TalkOf(x, 0, SUPPRESS_GO_AHEAD))
    + Pending(TalkOf(x, 1, ECHO)) + Pending(TalkOf(x, 1, SUPPRESS_GO_AHEAD))
  }

  /** What one message contributes. */
  function Part(m: Msg, remote: bool, o: Byte): seq<Byte> {
    if Remote(m.command) == remote && m.option == o then [m.command] else []
  }

  lemma {:induction false} FilterAppend(s: seq<Msg>, m: Msg, remote: bool, o: Byte)
    ensures Filter(s + [m], remote, o) == Filter(s, remote, o) + Part(m, remote, o)
    decreases |s|
  {
    hide Part;
    FilterHead(s + [m], remote, o);
    if s == [] {
      assert s + [m] == [m] && (s + [m])[1..] == s;
      FilterNone(remote, o);
    } else {
      assert (s + [m])[1..] == s[1..] + [m];
      FilterHead(s, remote, o);
      FilterAppend(s[1..], m, remote, o);
    }
  }

  lemma FilterNone(remote: bool, o: Byte)
    ensures Filter([], remote, o) == []
  {
  }

  lemma FilterHead(s: seq<Msg>, remote: bool, o: Byte)
    requires s != []
    ensures Filter(s, remote, o) == Part(s[0], remote, o) + Filter(s[1..], remote, o)
  {
  }

  // ---- what one event does to one conversation ----

  /** The owner asks. */
  function AskMine(t: Talk): Talk {
    if t.mine == No then t.(mine := WantYes, fwd := t.fwd + [WILL]) else t
  }

  /** The other end asks. */
  function AskTheirs(t: Talk): Talk {
    if t.theirs == No then t.(theirs := WantYes, back := t.back + [DO]) else t
  }

  /** The owner takes the first DO or DONT. */
  function TakeBack(t: Talk): Talk
    requires t.back != []
  {
    var table := Table(t.mine, No);
    var (r, reply) := Negotiate(table, t.back[0], ECHO);
    Talk(r.echo, t.theirs, t.fwd + (if reply.Some? then [reply.value] else []), t.back[1..])
  }

  /** The other end takes the first WILL or WONT about option o. */
  function TakeFwd(t: Talk, o: Byte): Talk
    requires t.fwd != [] && Known(o)
  {
    var table := Set(Table(No, No), o, t.theirs);
    var (r, reply) := Negotiate(table, t.fwd[0], o);
    Talk(t.mine, Get(r, o).value, t.fwd[1..], t.back + (if reply.Some? then [reply.value] else []))
  }

  /** No event leaves the nine situations; taking a message brings the end nearer, asking
      puts it off by two at most; and a refusal never finds the option on. */
  lemma TalkSteps(t: Talk, o: Byte)
    requires Sound(t) && Known(o)
    ensures Sound(AskMine(t)) && Pending(AskMine(t)) <= Pending(t) + 2
    ensures Sound(AskTheirs(t)) && Pending(AskTheirs(t)) <= Pending(t) + 2
    ensures t.back != [] ==> Sound(TakeBack(t)) && Pending(TakeBack(t)) < Pending(t)
    ensures t.fwd != [] ==> Sound(TakeFwd(t, o)) && Pending(TakeFwd(t, o)) < Pending(t)
    ensures t.back != [] && t.back[0] == DONT ==> t.mine != Yes
    ensures t.fwd != [] ==> t.fwd[0] != WONT
  {
  }

  // ---- an event of the system is an event of one conversation ----

  lemma EnableTalks(x: Sys, q: nat, local: bool, o': Byte, p: nat, o: Byte)
    requires Shape(x) && q < 2 && p < 2 && Known(o)
    ensures TalkOf(Enable(x, q, local, o'), p, o) ==
              if o != o' then TalkOf(x, p, o)
              else if local && p == q then AskMine(TalkOf(x, p, o))
              else if !local && p == 1 - q then AskTheirs(TalkOf(x, p, o))
              else TalkOf(x, p, o)
  {
    hide Filter;
    var m := Msg(if local then WILL else DO, o');
    FilterAppend(x.chan[q], m, true, o);
    FilterAppend(x.chan[q], m, false, o);
  }

  /** The option's own entry decides, and no other entry changes. */
  lemma NegotiateOne(t: Table, c: Byte, o: Byte)
    requires Known(o) && WILL <= c <= DONT
    ensures var (r, reply) := Negotiate(t, c, o);
            && (forall o1 :: Known(o1) && o1 != o ==> Get(r, o1) == Get(t, o1))
            && (Remote(c) ==> var (r1, reply1) := Negotiate(Set(Table(No, No), o, Get(t, o).value), c, o);
                              reply == reply1 && Get(r, o) == Get(r1, o))
            && (!Remote(c) ==> var (r1, reply1) := Negotiate(Table(Get(t, o).value, No), c, ECHO);
                               reply == reply1 && Get(r, o).value == r1.echo)
            && (reply.Some? ==> Remote(reply.value) == !Remote(c) && WILL <= reply.value <= DONT)
  {
  }

  /** The table p looks at for a command. */
  function TableFor(e: End, command: Byte): Table {
    if Remote(command) then e.remote else e.local
  }

  predicate HeadOk(x: Sys, q: nat)
    requires Shape(x) && q < 2
  {
    x.chan[1 - q] != [] && Known(x.chan[1 - q][0].option) && WILL <= x.chan[1 - q][0].command <= DONT
  }

  lemma TakeFilters(x: Sys, q: nat, o: Byte, remote: bool)
    requires Shape(x) && q < 2 && HeadOk(x, q)
    ensures var m := x.chan[1 - q][0]; var (t, r) := Negotiate(TableFor(x.ends[q], m.command), m.command, m.option);
            var x1 := TakeNext(x, q);
            && Filter(x.chan[1 - q], remote, o) == Part(m, remote, o) + Filter(x1.chan[1 - q], remote, o)
            && Filter(x1.chan[q], remote, o) ==
                 Filter(x.chan[q], remote, o) + (if r.Some? then Part(Msg(r.value, m.option), remote, o) else [])
  {
    hide Filter, Negotiate, Part;
    var m := x.chan[1 - q][0];
    var (t, r) := Negotiate(TableFor(x.ends[q], m.command), m.command, m.option);
    FilterHead(x.chan[1 - q], remote, o);
    if r.Some? { FilterAppend(x.chan[q], Msg(r.value, m.option), remote, o); }
  }

  lemma TakeFwdTalk(x: Sys, q: nat, o: Byte)
    requires Shape(x) && q < 2 && HeadOk(x, q) && Remote(x.chan[1 - q][0].command) && x.chan[1 - q][0].option == o
    ensures TalkOf(x, 1 - q, o).fwd != [] && TalkOf(TakeNext(x, q), 1 - q, o) == TakeFwd(TalkOf(x, 1 - q, o), o)
  {
    NegotiateOne(x.ends[q].remote, x.chan[1 - q][0].command, o);
    TakeFilters(x, q, o, true);
    TakeFilters(x, q, o, false);
    hide Filter, Negotiate;
  }

  lemma TakeBackTalk(x: Sys, q: nat, o: Byte)
    requires Shape(x) && q < 2 && HeadOk(x, q) && !Remote(x.chan[1 - q][0].command) && x.chan[1 - q][0].option == o
    ensures TalkOf(x, q, o).back != [] && TalkOf(TakeNext(x, q), q, o) == TakeBack(TalkOf(x, q, o))
  {
    NegotiateOne(x.ends[q].local, x.chan[1 - q][0].command, o);
    TakeFilters(x, q, o, true);
    TakeFilters(x, q, o, false);
    hide Filter, Negotiate;
  }

  lemma TakeOtherTalk(x: Sys, q: nat, p: nat, o: Byte)
    requires Shape(x) && q < 2 && p < 2 && Known(o) && HeadOk(x, q)
    requires x.chan[1 - q][0].option != o || (p == q) == Remote(x.chan[1 - q][0].command)
    ensures TalkOf(TakeNext(x, q), p, o) == TalkOf(x, p, o)
  {
    OtherTables(x, q, p, o);
    OtherFilters(x, q, p, o);
    hide Filter, Negotiate, TakeNext;
  }

  lemma OtherFilters(x: Sys, q: nat, p: nat, o: Byte)
    requires Shape(x) && q < 2 && p < 2 && Known(o) && HeadOk(x, q)
    requires x.chan[1 - q][0].option != o || (p == q) == Remote(x.chan[1 - q][0].command)
    ensures var r := TakeNext(x, q);
            Shape(r) && Filter(r.chan[p], true, o) == Filter(x.chan[p], true, o)
                && Filter(r.chan[1 - p], false, o) == Filter(x.chan[1 - p], false, o)
  {
    assert Shape(TakeNext(x, q));
    hide Filter, TakeNext;
    TakeKeepsOther(x, q, o, p == q);
  }

  /** Taking a message leaves alone what was said about the side it does not speak of: p's own
      in its answers and the other's in what it reads, or the reverse. */
  lemma TakeKeepsOther(x: Sys, q: nat, o: Byte, own: bool)
    requires Shape(x) && q < 2 && HeadOk(x, q)
    requires x.chan[1 - q][0].option != o || own == Remote(x.chan[1 - q][0].command)
    ensures var r := TakeNext(x, q);
            && Filter(r.chan[q], own, o) == Filter(x.chan[q], own, o)
            && Filter(r.chan[1 - q], !own, o) == Filter(x.chan[1 - q], !own, o)
  {
    var m := x.chan[1 - q][0];
    NegotiateOne(TableFor(x.ends[q], m.command), m.command, m.option);
    hide Filter, Negotiate, TakeNext;
    TakeFilters(x, q, o, own);
    TakeFilters(x, q, o, !own);
  }

  lemma OtherTables(x: Sys, q: nat, p: nat, o: Byte)
    requires Shape(x) && q < 2 && p < 2 && Known(o) && HeadOk(x, q)
    requires x.chan[1 - q][0].option != o || (p == q) == Remote(x.chan[1 - q][0].command)
    ensures var r := TakeNext(x, q);
            Shape(r) && Get(r.ends[p].local, o) == Get(x.ends[p].local, o)
                && Get(r.ends[1 - p].remote, o) == Get(x.ends[1 - p].remote, o)
  {
    var m := x.chan[1 - q][0];
    NegotiateOne(TableFor(x.ends[q], m.command), m.command, m.option);
    hide Negotiate, Get;
  }

  // ---- the system ----

  lemma MsgsKept(x: Sys, e: Event)
    requires Shape(x) && MsgsOk(x) && Legal(x, e)
    ensures MsgsOk(Next(x, e))
  {
    if e.Take? {
      var m := x.chan[1 - e.p][0];
      NegotiateOne(TableFor(x.ends[e.p], m.command), m.command, m.option);
      hide Negotiate;
    }
  }

  /** One event keeps every conversation in one of the nine situations. A message taken brings
      the total down; a call of enable_option raises it by two at most. */
  lemma NextKeeps(x: Sys, e: Event)
    requires Inv(x) && Legal(x, e)
    ensures Inv(Next(x, e))
    ensures if e.Take? then Total(Next(x, e)) < Total(x) else Total(Next(x, e)) <= Total(x) + 2
  {
    if e.Take? { assert HeadOk(x, e.p); }
    hide Sound, Pending, TalkOf, Next, MsgsOk;
    MsgsKept(x, e);
    forall p, o | 0 <= p < 2 && Known(o) ensures Sound(TalkOf(Next(x, e), p, o)) { TalkStep(x, e, p, o); }
    TalkStep(x, e, 0, ECHO);
    TalkStep(x, e, 0, SUPPRESS_GO_AHEAD);
    TalkStep(x, e, 1, ECHO);
    TalkStep(x, e, 1, SUPPRESS_GO_AHEAD);
    hide Inv;
    OnlyOne(x, e);
  }

  /** The conversation an event belongs to. */
  predicate Concerns(x: Sys, e: Event, p: nat, o: Byte)
    requires Shape(x) && Legal(x, e)
  {
    match e
    case EnableLocal(q, o1) => p == q && o == o1
    case EnableRemote(q, o1) => p == 1 - q && o == o1
    case Take(q) => x.chan[1 - q][0].option == o && p == (if Remote(x.chan[1 - q][0].command) then 1 - q else q)
  }

  lemma TalkStep(x: Sys, e: Event, p: nat, o: Byte)
    requires Inv(x) && Legal(x, e) && p < 2 && Known(o)
    ensures var t, r := TalkOf(x, p, o), TalkOf(Next(x, e), p, o);
            && Sound(r) && (!Concerns(x, e, p, o) ==> r == t)
            && (Concerns(x, e, p, o) ==> if e.Take? then Pending(r) < Pending(t) else Pending(r) <= Pending(t) + 2)
  {
    hide Sound, Pending, TalkOf, AskMine, AskTheirs, TakeBack, TakeFwd, Enable, TakeNext;
    assert Sound(TalkOf(x, p, o)) && MsgsOk(x);
    TalkSteps(TalkOf(x, p, o), o);
    hide Inv;
    match e {
      case EnableLocal(q, o1) => EnableTalks(x, q, true, o1, p, o);
      case EnableRemote(q, o1) => EnableTalks(x, q, false, o1, p, o);
      case Take(q) => TakeStep(x, q, p, o);
    }
  }

  lemma TakeStep(x: Sys, q: nat, p: nat, o: Byte)
    requires Shape(x) && MsgsOk(x) && q < 2 && p < 2 && Known(o) && Legal(x, Take(q))
    ensures var t, r, c := TalkOf(x, p, o), TalkOf(TakeNext(x, q), p, o), Concerns(x, Take(q), p, o);
            && (!c ==> r == t)
            && (c && Remote(x.chan[1 - q][0].command) ==> t.fwd != [] && r == TakeFwd(t, o))
            && (c && !Remote(x.chan[1 - q][0].command) ==> t.back != [] && r == TakeBack(t))
  {
    hide TalkOf, TakeBack, TakeFwd, TakeNext;
    assert HeadOk(x, q);
    if !Concerns(x, Take(q), p, o) { TakeOtherTalk(x, q, p, o); }
    else if Remote(x.chan[1 - q][0].command) { TakeFwdTalk(x, q, o); }
    else { TakeBackTalk(x, q, o); }
  }

  /** An event belongs to at most one conversation, a message taken to exactly one. */
  lemma OnlyOne(x: Sys, e: Event)
    requires Shape(x) && Legal(x, e)
    ensures forall p, o, p1, o1 :: Concerns(x, e, p, o) && Concerns(x, e, p1, o1) ==> p == p1 && o == o1
  {
  }

  // ---- runs ----

  const ALL_OFF := Table(No, No)

  function Start(): Sys {
    Sys([End(ALL_OFF, ALL_OFF), End(ALL_OFF, ALL_OFF)], [[], []])
  }

  predicate IsRun(x: Sys, es: seq<Event>)
    requires Shape(x)
    decreases |es|
  {
    es == [] || (Legal(x, es[0]) && IsRun(Next(x, es[0]), es[1..]))
  }

  function Run(x: Sys, es: seq<Event>): (r: Sys)
    requires Shape(x) && IsRun(x, es)
    ensures Shape(r)
    decreases |es|
  {
    if es == [] then x else Run(Next(x, es[0]), es[1..])
  }

  function Takes(es: seq<Event>): nat {
    if es == [] then 0 else (if es[0].Take? then 1 else 0) + Takes(es[1..])
  }

  lemma StartInv()
    ensures Inv(Start()) && Total(Start()) == 0
  {
  }

  lemma {:induction false} RunKeeps(x: Sys, es: seq<Event>)
    requires Inv(x) && IsRun(x, es)
    ensures Inv(Run(x, es)) && Total(Run(x, es)) + 3 * Takes(es) <= Total(x) + 2 * |es|
    decreases |es|
  {
    hide Sound, MsgsOk, TalkOf, Total, Next, Legal;
    if es != [] {
      NextKeeps(x, es[0]);
      RunKeeps(Next(x, es[0]), es[1..]);
    }
  }

  /** However the calls of enable_option and the deliveries interleave, n calls cause at most
      2 n messages to be taken: the ends cannot go on answering each other. */
  lemma NoLoops(es: seq<Event>)
    requires IsRun(Start(), es)
    ensures Takes(es) <= 2 * (|es| - Takes(es))
  {
    StartInv();
    RunKeeps(Start(), es);
  }

  /** Once nothing is on its way, an option is on at its owner exactly when the other end
      thinks it is. */
  lemma Agreement(es: seq<Event>, p: nat, o: Byte)
    requires IsRun(Start(), es) && p < 2 && Known(o)
    requires Run(Start(), es).chan[0] == [] && Run(Start(), es).chan[1] == []
    ensures var r := Run(Start(), es);
            Get(r.ends[p].local, o) == Get(r.ends[1 - p].remote, o)
                && (Get(r.ends[p].local, o) == Some(Yes) || Get(r.ends[p].local, o) == Some(No))
  {
    hide Next, Legal;
    StartInv();
    RunKeeps(Start(), es);
    assert Sound(TalkOf(Run(Start(), es), p, o));
  }

  /** No refusal ever meets an option that is on, so none is ever confirmed. */
  lemma RefusalsMeetNo(es: seq<Event>, q: nat)
    requires IsRun(Start(), es) && q < 2 && Run(Start(), es).chan[1 - q] != []
    ensures var m, e := Run(Start(), es).chan[1 - q][0], Run(Start(), es).ends[q];
            && m.command != WONT
            && (m.command == DONT ==> Get(e.local, m.option) != Some(Yes))
  {
    hide Next, Legal, IsRun, Run, Sound, Pending, AskMine, AskTheirs, TakeBack, TakeFwd, Filter;
    StartInv();
    RunKeeps(Start(), es);
    var r := Run(Start(), es);
    var m := r.chan[1 - q][0];
    var owner := if Remote(m.command) then 1 - q else q;
    assert Sound(TalkOf(r, owner, m.option));
    hide Inv;
    TalkSteps(TalkOf(r, owner, m.option), m.option);
    FilterHead(r.chan[1 - q], Remote(m.command), m.option);
  }
}
