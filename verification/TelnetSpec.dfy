/** telnet.c on values: the byte machine that decodes the wire, its option replies, and the
    escaping that telnet_write applies. */
module TelnetSpec {
  import opened Config

  const SE: Byte := 240
  const SB: Byte := 250
  const WILL: Byte := 251
  const WONT: Byte := 252
  const DO: Byte := 253
  const DONT: Byte := 254
  const IAC: Byte := 255
  const ECHO: Byte := 1
  const SUPPRESS_GO_AHEAD: Byte := 3

  datatype Mode = Data | Command | Opt | Sub | SubCommand

  datatype OptState = No | Yes | WantYes | WantNo

  /** The state of the two known options on one side. */
  datatype Table = Table(echo: OptState, sga: OptState)

  datatype Machine = Machine(mode: Mode, command: Byte, local: Table, remote: Table)

  const FRESH := Machine(Data, 0, Table(No, No), Table(No, No))

  predicate Known(o: Byte) { o == ECHO || o == SUPPRESS_GO_AHEAD }

  predicate Offered(o: Byte) { o == ECHO || o == SUPPRESS_GO_AHEAD }

  predicate Accepted(o: Byte) { o == SUPPRESS_GO_AHEAD }

  /** None for an option the tables do not hold. */
  function Get(t: Table, o: Byte): Option<OptState> {
    if o == ECHO then Some(t.echo) else if o == SUPPRESS_GO_AHEAD then Some(t.sga) else None
  }

  function Set(t: Table, o: Byte, s: OptState): Table {
    if o == ECHO then t.(echo := s) else if o == SUPPRESS_GO_AHEAD then t.(sga := s) else t
  }

  /** WILL and WONT speak of the sender's side, which is our remote; DO and DONT of ours. */
  predicate Remote(command: Byte) { command == WILL || command == WONT }

  /** A refusal: the option is off, and that is confirmed only if it was on. */
  function Refused(t: Table, o: Byte, command: Byte): (Table, Option<Byte>) {
    (Set(t, o, No), if Get(t, o) == Some(Yes) then Some(if command == DONT then WONT else DONT) else None)
  }

  /** A request or offer: an answer to ours ends the matter, anything else is answered. */
  function Asked(t: Table, o: Byte, agree: bool, yes: Byte, no: Byte): (Table, Option<Byte>) {
    match Get(t, o)
    case Some(WantNo) => (Set(t, o, No), None)
    case Some(WantYes) => (Set(t, o, Yes), None)
    case Some(Yes) => (t, None)
    case _ => if agree then (Set(t, o, Yes), Some(yes)) else (t, Some(no))
  }

  /** process_option on the table the command is about. */
  function Negotiate(t: Table, command: Byte, o: Byte): (Table, Option<Byte>) {
    if command == DONT || command == WONT then Refused(t, o, command)
    else if command == DO then Asked(t, o, Offered(o), WILL, WONT)
    else if command == WILL then Asked(t, o, Accepted(o), DO, DONT)
    else (t, None)
  }

  /** process_option: the reply goes back as IAC, command, option. */
  function TakeOption(m: Machine, o: Byte): (Machine, seq<Byte>) {
    var (t, r) := Negotiate(if Remote(m.command) then m.remote else m.local, m.command, o);
    var m1 := m.(mode := Data);
    (if Remote(m.command) then m1.(remote := t) else m1.(local := t), if r.Some? then [IAC, r.value, o] else [])
  }

  datatype Outcome = Outcome(m: Machine, data: seq<Byte>, reply: seq<Byte>)

  /** process: one byte of the wire. */
  function Process(m: Machine, c: Byte): Outcome {
    match m.mode
    case Data => if c == IAC then Outcome(m.(mode := Command), [], []) else Outcome(m, [c], [])
    case Command =>
      if c == IAC then Outcome(m.(mode := Data), [c], [])
      else if c >= WILL then Outcome(m.(command := c, mode := Opt), [], [])
      else if c == SB then Outcome(m.(mode := Sub), [], [])
      else Outcome(m.(mode := Data), [], [])
    case Opt => var (m1, reply) := TakeOption(m, c); Outcome(m1, [], reply)
    case Sub => Outcome(if c == IAC then m.(mode := SubCommand) else m, [], [])
    case SubCommand => Outcome(m.(mode := if c == SE then Data else Sub), [], [])
  }

  /** A stretch of the wire. */
  function Decode(m: Machine, wire: seq<Byte>): (r: Outcome)
    ensures |r.data| <= |wire|
    decreases |wire|
  {
    if wire == [] then Outcome(m, [], [])
    else
      var a := Process(m, wire[0]);
      var b := Decode(a.m, wire[1..]);
      Outcome(b.m, a.data + b.data, a.reply + b.reply)
  }

  /** What telnet_write puts on the wire. */
  function Escape(s: seq<Byte>): seq<Byte> {
    if s == [] then [] else (if s[0] == IAC then [IAC, IAC] else [s[0]]) + Escape(s[1..])
  }

  // ---- decoding in pieces ----

  /** Cutting the wire anywhere makes no difference. */
  lemma {:induction false} DecodeCut(m: Machine, x: seq<Byte>, y: seq<Byte>)
    ensures var a := Decode(m, x); var b := Decode(a.m, y);
            Decode(m, x + y) == Outcome(b.m, a.data + b.data, a.reply + b.reply)
    decreases |x|
  {
    hide Process;
    if x == [] {
      assert x + y == y;
    } else {
      assert (x + y)[0] == x[0] && (x + y)[1..] == x[1..] + y;
      DecodeCut(Process(m, x[0]).m, x[1..], y);
    }
  }

  /** One end's writes, and the commands it sends between them. */
  datatype Item = Bytes(s: seq<Byte>) | Verb(command: Byte, option: Byte)

  function Wire(items: seq<Item>): seq<Byte> {
    if items == [] then []
    else (match items[0]
          case Bytes(s) => Escape(s)
          case Verb(c, o) => [IAC, c, o]) + Wire(items[1..])
  }

  function Payload(items: seq<Item>): seq<Byte> {
    if items == [] then []
    else (if items[0].Bytes? then items[0].s else []) + Payload(items[1..])
  }

  predicate Verbs(items: seq<Item>) {
    forall i :: 0 <= i < |items| && items[i].Verb? ==> WILL <= items[i].command <= DONT
  }

  lemma {:induction false} EscapeDecodes(m: Machine, s: seq<Byte>)
    requires m.mode == Data
    ensures Decode(m, Escape(s)) == Outcome(m, s, [])
    decreases |s|
  {
    if s != [] {
      var head := if s[0] == IAC then [IAC, IAC] else [s[0]];
      DecodeCut(m, head, Escape(s[1..]));
      EscapeDecodes(m, s[1..]);
      HeadDecodes(m, s[0]);
      assert [s[0]] + s[1..] == s;
    }
  }

  lemma DecodeOne(m: Machine, c: Byte)
    ensures Decode(m, [c]) == Process(m, c)
  {
    hide Process;
    assert [c][1..] == [];
    EmptyDecodes(Process(m, c).m);
  }

  lemma HeadDecodes(m: Machine, c: Byte)
    requires m.mode == Data
    ensures Decode(m, if c == IAC then [IAC, IAC] else [c]) == Outcome(m, [c], [])
  {
    hide Decode;
    DecodeOne(m, c);
    if c == IAC {
      DecodeOne(m.(mode := Command), IAC);
      DecodeCut(m, [IAC], [IAC]);
      assert [IAC] + [IAC] == [IAC, IAC];
    }
  }

  lemma VerbDecodes(m: Machine, c: Byte, o: Byte)
    requires m.mode == Data && WILL <= c <= DONT
    ensures var r := Decode(m, [IAC, c, o]); r.m.mode == Data && r.data == []
  {
    hide TakeOption, Decode;
    var m1 := m.(mode := Command);
    var m2 := m1.(command := c, mode := Opt);
    DecodeOne(m, IAC);
    DecodeOne(m1, c);
    DecodeOne(m2, o);
    DecodeCut(m1, [c], [o]);
    DecodeCut(m, [IAC], [c] + [o]);
    assert [IAC] + ([c] + [o]) == [IAC, c, o];
    TakesOption(m2, o);
  }

  lemma TakesOption(m: Machine, o: Byte)
    ensures TakeOption(m, o).0.mode == Data
  {
  }

  /** Decoding gives back exactly the bytes written, whatever bytes they are and whatever
      option commands travel between the writes. */
  lemma {:induction false} TranscriptDecodes(m: Machine, items: seq<Item>)
    requires m.mode == Data && Verbs(items)
    ensures Decode(m, Wire(items)).data == Payload(items) && Decode(m, Wire(items)).m.mode == Data
    decreases |items|
  {
    hide Decode, Escape;
    if items != [] {
      var head := Wire(items[..1]);
      match items[0] {
        case Bytes(s) =>
          DecodeCut(m, Escape(s), Wire(items[1..]));
          EscapeDecodes(m, s);
          TranscriptDecodes(m, items[1..]);
        case Verb(c, o) =>
          DecodeCut(m, [IAC, c, o], Wire(items[1..]));
          VerbDecodes(m, c, o);
          TranscriptDecodes(Decode(m, [IAC, c, o]).m, items[1..]);
      }
    } else {
      EmptyDecodes(m);
    }
  }

  lemma EmptyDecodes(m: Machine)
    ensures Decode(m, []) == Outcome(m, [], [])
  {
  }

  /** An IAC and its repetition go out in two writes. A reply that another process sends in
      between is taken for data: the peer reads a command byte and an option that nobody wrote.
      It is left in the middle of a command, unless the option is 255, which closes the pair
      the repetition then opens. Behind the pair the same reply does no harm, so
      TranscriptDecodes holds for replies at every other place. */
  lemma ReplySplitsEscape(m: Machine, c: Byte, o: Byte)
    requires m.mode == Data && WILL <= c <= DONT
    ensures var r := Decode(m, [IAC] + [IAC, c, o] + [IAC]);
            r.data == [IAC, c, o] && r.reply == [] && r.m == m.(mode := if o == IAC then Data else Command)
    ensures Decode(m, [IAC, IAC] + [IAC, c, o]).data == [IAC] && Escape([IAC]) == [IAC, IAC]
  {
    hide Decode;
    HeadDecodes(m, IAC);
    HeadDecodes(m, c);
    DecodeCut(m, [IAC, IAC], [c] + ([o] + [IAC]));
    DecodeCut(m, [c], [o] + [IAC]);
    assert [IAC] + [IAC, c, o] + [IAC] == [IAC, IAC] + ([c] + ([o] + [IAC]));
    HeadDecodes(m, o);
    if o == IAC {
      assert [o] + [IAC] == [IAC, IAC];
    } else {
      DecodeOne(m, IAC);
      DecodeCut(m, [o], [IAC]);
    }
    VerbDecodes(m, c, o);
    DecodeCut(m, [IAC, IAC], [IAC, c, o]);
    assert [IAC][1..] == [];
  }

  /** The outputs of a sequence of reads, each decoding one piece of the wire. */
  function Reads(m: Machine, pieces: seq<seq<Byte>>): seq<Byte>
    decreases |pieces|
  {
    if pieces == [] then [] else var r := Decode(m, pieces[0]); r.data + Reads(r.m, pieces[1..])
  }

  function Joined(pieces: seq<seq<Byte>>): seq<Byte> {
    if pieces == [] then [] else pieces[0] + Joined(pieces[1..])
  }

  lemma {:induction false} ReadsAreDecode(m: Machine, pieces: seq<seq<Byte>>)
    ensures Reads(m, pieces) == Decode(m, Joined(pieces)).data
    decreases |pieces|
  {
    hide Decode;
    if pieces == [] {
      EmptyDecodes(m);
    } else {
      DecodeCut(m, pieces[0], Joined(pieces[1..]));
      ReadsAreDecode(Decode(m, pieces[0]).m, pieces[1..]);
    }
  }

  /** Reading what was written yields it, however the wire is cut into reads. */
  lemma RoundTrip(m: Machine, items: seq<Item>, pieces: seq<seq<Byte>>)
    requires m.mode == Data && Verbs(items) && Joined(pieces) == Wire(items)
    ensures Reads(m, pieces) == Payload(items)
  {
    ReadsAreDecode(m, pieces);
    TranscriptDecodes(m, items);
  }
}
