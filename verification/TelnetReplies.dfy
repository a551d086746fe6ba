/** What the server answers on the wire, byte by byte, to whatever a client may ask for. */
module TelnetReplies {
  import opened Config
  import opened TelnetSpec

  /** Between commands, ready for the next byte. */
  predicate Ready(m: Machine) { m.mode == Data }

  /** A command about an option, taken off the wire. */
  lemma CommandDecodes(m: Machine, c: Byte, o: Byte)
    requires Ready(m) && 251 <= c <= 254
    ensures var (r, reply) := TakeOption(m.(command := c, mode := Opt), o);
            Decode(m, [255, c, o]) == Outcome(r, [], reply)
  {
    hide TakeOption, Decode;
    var m1 := m.(mode := Command);
    var m2 := m1.(command := c, mode := Opt);
    DecodeOne(m, IAC);
    DecodeOne(m1, c);
    DecodeOne(m2, o);
    DecodeCut(m1, [c], [o]);
    DecodeCut(m, [IAC], [c] + [o]);
    assert [IAC] + ([c] + [o]) == [255, c, o];
  }

  /** Whatever option other than 1 and 3 a client asks for or offers, from any state and at any
      time: a request is refused, an offer is refused, a refusal is not answered, and nothing
      is remembered. */
  lemma UnknownOption(m: Machine, o: Byte)
    requires Ready(m) && o != 1 && o != 3
    ensures Decode(m, [255, 253, o]) == Outcome(m.(command := 253), [], [255, 252, o])
    ensures Decode(m, [255, 251, o]) == Outcome(m.(command := 251), [], [255, 254, o])
    ensures Decode(m, [255, 254, o]) == Outcome(m.(command := 254), [], [])
    ensures Decode(m, [255, 252, o]) == Outcome(m.(command := 252), [], [])
  {
    CommandDecodes(m, 253, o);
    CommandDecodes(m, 251, o);
    CommandDecodes(m, 254, o);
    CommandDecodes(m, 252, o);
    hide Decode;
  }

  /** What option o, 1 or 3, is set to on one side, and the same side with it set anew. */
  function Held(t: Table, o: Byte): OptState { if o == 1 then t.echo else t.sga }

  function With(t: Table, o: Byte, s: OptState): Table { if o == 1 then t.(echo := s) else t.(sga := s) }

  /** DO and DONT about our options 1 and 3: a request is granted, answered only if it is news
      to us and settles what we asked for ourselves; DONT switches off, answered only if the
      option was on. */
  lemma OursAsked(m: Machine, o: Byte)
    requires Ready(m) && (o == 1 || o == 3)
    ensures var r := Decode(m, [255, 253, o]);
            && r.data == [] && r.reply == (if Held(m.local, o) == No then [255, 251, o] else [])
            && r.m == m.(command := 253, local := With(m.local, o, if Held(m.local, o) == WantNo then No else Yes))
    ensures var r := Decode(m, [255, 254, o]);
            && r.data == [] && r.reply == (if Held(m.local, o) == Yes then [255, 252, o] else [])
            && r.m == m.(command := 254, local := With(m.local, o, No))
  {
    hide Decode, TakeOption;
    CommandDecodes(m, 253, o);
    CommandDecodes(m, 254, o);
    Granted(m.(command := 253, mode := Opt), o);
    SwitchedOff(m.(command := 254, mode := Opt), o);
  }

  lemma Granted(m: Machine, o: Byte)
    requires m.command == 253 && (o == 1 || o == 3)
    ensures var (r, reply) := TakeOption(m, o); var s := Held(m.local, o);
            && reply == (if s == No then [255, 251, o] else [])
            && r == m.(mode := Data, local := With(m.local, o, if s == WantNo then No else Yes))
  {
  }

  lemma SwitchedOff(m: Machine, o: Byte)
    requires m.command == 254 && (o == 1 || o == 3)
    ensures var (r, reply) := TakeOption(m, o);
            && reply == (if Held(m.local, o) == Yes then [255, 252, o] else [])
            && r == m.(mode := Data, local := With(m.local, o, No))
  {
  }

  /** WILL and WONT about the client's: suppress-go-ahead is accepted, echo is not, unless we
      asked for it. */
  lemma TheirsOffered(m: Machine, o: Byte)
    requires Ready(m) && (o == 1 || o == 3)
    ensures var r := Decode(m, [255, 251, o]); var s := Held(m.remote, o);
            && r.data == [] && r.reply == (if s != No then [] else if o == 3 then [255, 253, 3] else [255, 254, 1])
            && r.m == m.(command := 251, remote :=
                   With(m.remote, o, if s == WantNo || (s == No && o == 1) then No else Yes))
    ensures var r := Decode(m, [255, 252, o]);
            && r.data == [] && r.reply == (if Held(m.remote, o) == Yes then [255, 254, o] else [])
            && r.m == m.(command := 252, remote := With(m.remote, o, No))
  {
    hide Decode, TakeOption;
    CommandDecodes(m, 251, o);
    CommandDecodes(m, 252, o);
    Accepts(m.(command := 251, mode := Opt), o);
    Withdrawn(m.(command := 252, mode := Opt), o);
  }

  lemma Accepts(m: Machine, o: Byte)
    requires m.command == 251 && (o == 1 || o == 3)
    ensures var (r, reply) := TakeOption(m, o); var s := Held(m.remote, o);
            && reply == (if s != No then [] else if o == 3 then [255, 253, 3] else [255, 254, 1])
            && r == m.(mode := Data, remote :=
                 With(m.remote, o, if s == WantNo || (s == No && o == 1) then No else Yes))
  {
  }

  lemma Withdrawn(m: Machine, o: Byte)
    requires m.command == 252 && (o == 1 || o == 3)
    ensures var (r, reply) := TakeOption(m, o);
            && reply == (if Held(m.remote, o) == Yes then [255, 254, o] else [])
            && r == m.(mode := Data, remote := With(m.remote, o, No))
  {
  }

  // ---- commands without options, subnegotiations ----

  /** Any other command is skipped. */
  lemma CommandSkipped(m: Machine, c: Byte)
    requires Ready(m) && c < 250
    ensures Decode(m, [255, c]) == Outcome(m, [], [])
  {
    hide Decode;
    DecodeOne(m, IAC);
    DecodeOne(m.(mode := Command), c);
    DecodeCut(m, [IAC], [c]);
    assert [IAC] + [c] == [255, c];
  }

  /** The inside of a subnegotiation: IAC SE does not occur in it, though IAC does, doubled or
      with anything else behind it. */
  predicate Inside(body: seq<Byte>) {
    || body == []
    || (body[0] != 255 && Inside(body[1..]))
    || (|body| >= 2 && body[0] == 255 && body[1] != 240 && Inside(body[2..]))
  }

  lemma {:induction false} InsideSilent(m: Machine, body: seq<Byte>)
    requires m.mode == Sub && Inside(body)
    ensures Decode(m, body) == Outcome(m, [], [])
    decreases |body|
  {
    hide Decode;
    if body == [] {
      EmptyDecodes(m);
    } else if body[0] != 255 {
      assert body == [body[0]] + body[1..];
      DecodeOne(m, body[0]);
      DecodeCut(m, [body[0]], body[1..]);
      InsideSilent(m, body[1..]);
    } else {
      assert body == [255] + ([body[1]] + body[2..]);
      DecodeOne(m, 255);
      DecodeOne(m.(mode := SubCommand), body[1]);
      DecodeCut(m.(mode := SubCommand), [body[1]], body[2..]);
      DecodeCut(m, [255], [body[1]] + body[2..]);
      InsideSilent(m, body[2..]);
    }
  }

  /** A subnegotiation, whatever is in it, yields no data, is not answered and changes nothing. */
  lemma SubnegotiationSkipped(m: Machine, body: seq<Byte>)
    requires Ready(m) && Inside(body)
    ensures Decode(m, [255, 250] + body + [255, 240]) == Outcome(m, [], [])
  {
    hide Decode, Inside;
    var m1, m2, m3 := m.(mode := Command), m.(mode := Sub), m.(mode := SubCommand);
    DecodeOne(m, 255);
    DecodeOne(m1, 250);
    DecodeOne(m2, 255);
    DecodeOne(m3, 240);
    InsideSilent(m2, body);
    DecodeCut(m2, [255], [240]);
    DecodeCut(m2, body, [255] + [240]);
    DecodeCut(m1, [250], body + ([255] + [240]));
    DecodeCut(m, [255], [250] + (body + ([255] + [240])));
    assert [255, 250] + body + [255, 240] == [255] + ([250] + (body + ([255] + [240])));
  }
}
