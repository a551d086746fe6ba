/** telnet.c's state and loops: bytes are decoded in the buffer they arrived in, replies and
    escaped data go out on the connection below. */
module Telnet {
  import opened Config
  import opened TelnetSpec

  class Terminal {
    var m: Machine
    /** Everything handed to write() on the connection so far. */
    var sent: seq<Byte>

    constructor ()
      ensures m == FRESH && sent == []
    {
      m := FRESH;
      sent := [];
    }

    method GetOption(local: bool, o: Byte) returns (s: Option<OptState>)
      ensures s == Get(if local then m.local else m.remote, o)
    {
      var t := if local then m.local else m.remote;
      if o == ECHO { return Some(t.echo); }
      if o == SUPPRESS_GO_AHEAD { return Some(t.sga); }
      s := None;
    }

    method SetOption(local: bool, o: Byte, s: OptState)
      modifies this`m
      ensures m == if local then old(m).(local := Set(old(m).local, o, s))
          else old(m).(remote := Set(old(m).remote, o, s))
    {
      var t := if local then m.local else m.remote;
      if o == ECHO { t := t.(echo := s); }
      if o == SUPPRESS_GO_AHEAD { t := t.(sga := s); }
      if local { m := m.(local := t); } else { m := m.(remote := t); }
    }

    /** enable_option: asks only when the option is known and off. */
    method Enable(local: bool, o: Byte)
      modifies this
      ensures var t := if local then old(m).local else old(m).remote;
              if Get(t, o) == Some(No)
              then && sent == old(sent) + [IAC, if local then WILL else DO, o]
                   && m == (if local then old(m).(local := Set(t, o, WantYes))
                       else old(m).(remote := Set(t, o, WantYes)))
              else sent == old(sent) && m == old(m)
    {
      var s := GetOption(local, o);
      if s != Some(No) { return; }
      SetOption(local, o, WantYes);
      sent := sent + [IAC, if local then WILL else DO, o];
    }

    /** process_option */
    method ProcessOption(o: Byte) returns (reply: seq<Byte>)
      requires m.mode == Opt
      modifies this`m
      ensures (m, reply) == TakeOption(old(m), o)
    {
      m := m.(mode := Data);
      reply := [];
      if m.command != DO && m.command != WILL && m.command != DONT && m.command != WONT { return; }
      var local := !(m.command == WILL || m.command == WONT);
      var before := GetOption(local, o);
      if m.command == DONT || m.command == WONT {
        SetOption(local, o, No);
        if before != Some(Yes) { return; }
        return [IAC, if m.command == DONT then WONT else DONT, o];
      }
      if before == Some(WantNo) {
        SetOption(local, o, No);
        return;
      }
      if before == Some(WantYes) || before == Some(Yes) {
        SetOption(local, o, Yes);
        return;
      }
      var agree := if m.command == DO then Offered(o) else Accepted(o);
      if agree { SetOption(local, o, Yes); }
      var yes, no := if m.command == DO then WILL else DO, if m.command == DO then WONT else DONT;
      reply := [IAC, if agree then yes else no, o];
    }

    /** process: the data byte, or -1 when the byte was not data. */
    method Process(c: Byte) returns (r: int)
      modifies this
      ensures var u := TelnetSpec.Process(old(m), c);
              m == u.m && sent == old(sent) + u.reply && -1 <= r < 256 && u.data == if r >= 0 then [r] else []
    {
      r := -1;
      match m.mode
      case Data =>
        if c == IAC { m := m.(mode := Command); } else { r := c; }
      case Command =>
        if c == IAC {
          m := m.(mode := Data);
          r := c;
        } else if c >= WILL {
          m := m.(command := c, mode := Opt);
        } else if c == SB {
          m := m.(mode := Sub);
        } else {
          m := m.(mode := Data);
        }
      case Opt =>
        var reply := ProcessOption(c);
        if |reply| > 0 { sent := sent + reply; }
      case Sub =>
        if c == IAC { m := m.(mode := SubCommand); }
      case SubCommand =>
        m := m.(mode := if c == SE then Data else Sub);
    }

    /** The decoding loop of telnet_read: output overtakes input nowhere, so every byte is read
        before it is overwritten. */
    method DecodeInPlace(p: array<Byte>, n: nat) returns (out: nat)
      requires n <= p.Length
      modifies this, p
      ensures var u := Decode(old(m), old(p[..n]));
              m == u.m && sent == old(sent) + u.reply && out == |u.data| <= n && p[..out] == u.data
      ensures forall j :: n <= j < p.Length ==> p[j] == old(p[j])
    {
      hide TelnetSpec.Process, Decode;
      ghost var wire, m0, sent0 := p[..n], m, sent;
      out := 0;
      EmptyDecodes(m0);
      for i := 0 to n
        invariant out <= i && p[i..] == old(p[i..])
        invariant var u := Decode(m0, wire[..i]); m == u.m && sent == sent0 + u.reply && p[..out] == u.data
      {
        DecodeNext(m0, wire, i);
        assert p[i] == wire[i];
        var c := Process(p[i]);
        if c >= 0 {
          p[out] := c;
          out := out + 1;
        }
      }
      assert wire[..n] == wire;
    }

    /** telnet_read. `pieces` are the results of the reads below, in order; when they run out
        the connection reports its end. */
    method Read(p: array<Byte>, pieces: seq<seq<Byte>>) returns (got: nat, used: nat)
      requires forall k :: 0 <= k < |pieces| ==> 0 < |pieces[k]| <= p.Length
      modifies this, p
      ensures used <= |pieces| && got <= p.Length && p[..got] == Decode(old(m), Joined(pieces[..used])).data
      ensures m == Decode(old(m), Joined(pieces[..used])).m
      ensures got == 0 ==> used == |pieces|
    {
      hide Decode;
      ghost var m0 := m;
      EmptyDecodes(m0);
      got, used := 0, 0;
      while used < |pieces|
        invariant used <= |pieces| && m == Decode(m0, Joined(pieces[..used])).m
            && Decode(m0, Joined(pieces[..used])).data == []
      {
        Load(p, pieces[used]);
        JoinedMore(pieces, used);
        DecodeCut(m0, Joined(pieces[..used]), pieces[used]);
        got := DecodeInPlace(p, |pieces[used]|);
        used := used + 1;
        if got > 0 { return; }
      }
      got := 0;
    }

    /** read() on the connection: a piece lands at the start of the buffer. */
    method Load(p: array<Byte>, piece: seq<Byte>)
      requires |piece| <= p.Length
      modifies p
      ensures p[..|piece|] == piece
    {
      for i := 0 to |piece|
        invariant forall j :: 0 <= j < i ==> p[j] == piece[j]
      {
        p[i] := piece[i];
      }
    }

    /** telnet_write: runs of bytes up to and including an IAC, each IAC repeated. The write
        numbered `fails` is the first one the connection refuses. */
    method Write(buf: seq<Byte>, fails: nat) returns (r: int)
      modifies this`sent
      ensures r == |buf| ==> sent == old(sent) + Escape(buf)
      ensures r == |buf| || (r == -1 && old(sent) <= sent && sent < old(sent) + Escape(buf))
    {
      hide Escape;
      ghost var sent0 := sent;
      var start, writes := 0, 0;
      EscapeNone();
      assert buf[..0] == [];
      for i := 0 to |buf|
        invariant 0 <= start <= i && IAC !in buf[start..i]
        invariant sent == sent0 + Escape(buf[..start])
      {
        if buf[i] == IAC {
          EscapeRun(buf, start, i + 1);
          if writes == fails {
            Unfinished(sent0, buf, i + 1, Escape(buf[..start]));
            return -1;
          }
          sent, writes := sent + buf[start..i + 1], writes + 1;
          if writes == fails {
            Unfinished(sent0, buf, i + 1, Escape(buf[..start]) + buf[start..i + 1]);
            return -1;
          }
          sent, writes := sent + [IAC], writes + 1;
          start := i + 1;
        }
      }
      assert buf[..|buf|] == buf;
      if |buf| - start > 0 {
        EscapeRun(buf, start, |buf|);
        if writes == fails {
          Unfinished(sent0, buf, |buf|, Escape(buf[..start]));
          return -1;
        }
        sent := sent + buf[start..];
      }
      r := |buf|;
    }
  }

  lemma DecodeNext(m: Machine, wire: seq<Byte>, i: nat)
    requires i < |wire|
    ensures var a := Decode(m, wire[..i]); var b := TelnetSpec.Process(a.m, wire[i]);
            Decode(m, wire[..i + 1]) == Outcome(b.m, a.data + b.data, a.reply + b.reply)
  {
    hide TelnetSpec.Process, Decode;
    assert wire[..i + 1] == wire[..i] + [wire[i]];
    DecodeCut(m, wire[..i], [wire[i]]);
    DecodeOne(Decode(m, wire[..i]).m, wire[i]);
  }

  lemma JoinedMore(pieces: seq<seq<Byte>>, k: nat)
    requires k < |pieces|
    ensures Joined(pieces[..k + 1]) == Joined(pieces[..k]) + pieces[k]
    decreases |pieces|
  {
    if k == 0 {
      var one := pieces[..1];
      assert one[0] == pieces[0] && one[1..] == [] && pieces[..0] == [];
      assert Joined(one) == pieces[0] + Joined([]);
    } else {
      JoinedMore(pieces[1..], k - 1);
      assert pieces[..k + 1][1..] == pieces[1..][..k] && pieces[..k][1..] == pieces[1..][..k - 1];
    }
  }

  /** What is out is a part of the whole when it is a part of the escaped beginning. */
  lemma Unfinished(sent: seq<Byte>, buf: seq<Byte>, end: nat, done: seq<Byte>)
    requires end <= |buf| && done < Escape(buf[..end])
    ensures sent <= sent + done && sent + done < sent + Escape(buf)
  {
    assert buf == buf[..end] + buf[end..];
    EscapeJoin(buf[..end], buf[end..]);
  }

  lemma EscapeNone()
    ensures Escape([]) == []
  {
  }

  lemma {:induction false} EscapeJoin(x: seq<Byte>, y: seq<Byte>)
    ensures Escape(x + y) == Escape(x) + Escape(y)
    decreases |x|
  {
    if x == [] {
      assert x + y == y;
    } else {
      assert (x + y)[1..] == x[1..] + y;
      EscapeJoin(x[1..], y);
    }
  }

  lemma {:induction false} EscapePlain(x: seq<Byte>)
    requires IAC !in x
    ensures Escape(x) == x
  {
    if x != [] { EscapePlain(x[1..]); }
  }

  /** The escaped form of a run that holds no IAC except perhaps its last byte. */
  lemma EscapeRun(buf: seq<Byte>, start: nat, end: nat)
    requires start < end <= |buf| && IAC !in buf[start..end - 1]
    ensures Escape(buf[..end]) == Escape(buf[..start]) + buf[start..end] + (if buf[end - 1] == IAC then [IAC] else [])
  {
    var run := buf[start..end - 1];
    assert buf[..end] == buf[..start] + (run + [buf[end - 1]]) && buf[start..end] == run + [buf[end - 1]];
    EscapeJoin(buf[..start], run + [buf[end - 1]]);
    EscapeJoin(run, [buf[end - 1]]);
    EscapePlain(run);
    EscapeOne(buf[end - 1]);
  }

  lemma EscapeOne(c: Byte)
    ensures Escape([c]) == if c == IAC then [IAC, IAC] else [c]
  {
    assert [c][1..] == [];
    EscapeNone();
  }
}
