/** What a negotiation comes to: which options are on once nothing is on its way. */
module TelnetOutcome {
  import opened Config
  import opened TelnetSpec
  import opened TelnetOptions

  /** Every DO for an option this code knows is granted, but of the WILLs only the one for
      suppress-go-ahead. */
  predicate On(o: Byte, mine: bool, theirs: bool) {
    theirs || (o == SUPPRESS_GO_AHEAD && mine)
  }

  /** The situation of a conversation about option o when the owner has asked for it (`a`) and
      the other end has (`b`) at some time. */
  predicate Fits(t: Talk, o: Byte, a: bool, b: bool) {
    || (t == Talk(No, No, [], []) && !On(o, a, b))
    || (t == Talk(WantYes, No, [WILL], []) && a && !b)
    || (t == Talk(No, WantYes, [], [DO]) && b && (o == SUPPRESS_GO_AHEAD ==> !a))
    || (t == Talk(WantYes, WantYes, [WILL], [DO]) && a && b)
    || (t == Talk(WantYes, Yes, [], [DO]) && a && On(o, a, b))
    || (t == Talk(WantYes, No, [], [DONT]) && a && !On(o, a, b))
    || (t == Talk(WantYes, WantYes, [], [DONT, DO]) && a && b && o != SUPPRESS_GO_AHEAD)
    || (t == Talk(Yes, WantYes, [WILL], []) && b)
    || (t == Talk(Yes, Yes, [], []) && On(o, a, b))
  }

  lemma FitsSteps(t: Talk, o: Byte, a: bool, b: bool)
    requires Fits(t, o, a, b) && Known(o)
    ensures Fits(AskMine(t), o, true, b) && Fits(AskTheirs(t), o, a, true)
    ensures t.back != [] ==> Fits(TakeBack(t), o, a, b)
    ensures t.fwd != [] ==> Fits(TakeFwd(t, o), o, a, b)
  {
  }

  lemma FitsNext(x: Sys, e: Event, p: nat, o: Byte, a: bool, b: bool)
    requires Inv(x) && Legal(x, e) && p < 2 && Known(o) && Fits(TalkOf(x, p, o), o, a, b)
    ensures Fits(TalkOf(Next(x, e), p, o), o, a || e == EnableLocal(p, o), b || e == EnableRemote(1 - p, o))
  {
    hide Fits, TalkOf, AskMine, AskTheirs, TakeBack, TakeFwd, Enable, TakeNext, Sound;
    FitsSteps(TalkOf(x, p, o), o, a, b);
    assert MsgsOk(x);
    match e {
      case EnableLocal(q, o1) => EnableTalks(x, q, true, o1, p, o);
      case EnableRemote(q, o1) => EnableTalks(x, q, false, o1, p, o);
      case Take(q) => TakeStep(x, q, p, o);
    }
  }

  lemma {:induction false} FitsRun(x: Sys, es: seq<Event>, p: nat, o: Byte, a: bool, b: bool)
    requires Inv(x) && IsRun(x, es) && p < 2 && Known(o) && Fits(TalkOf(x, p, o), o, a, b)
    ensures Fits(TalkOf(Run(x, es), p, o), o, a || EnableLocal(p, o) in es, b || EnableRemote(1 - p, o) in es)
    decreases |es|
  {
    hide Fits, TalkOf, Next, Legal, Sound, MsgsOk;
    if es != [] {
      NextKeeps(x, es[0]);
      FitsNext(x, es[0], p, o, a, b);
      FitsRun(Next(x, es[0]), es[1..], p, o, a || es[0] == EnableLocal(p, o), b || es[0] == EnableRemote(1 - p, o));
      assert es == [es[0]] + es[1..];
    }
  }

  /** Once nothing is on its way an option is on exactly when the other end has ever asked for
      it, or its owner has and it is one that this code accepts: no request is forgotten,
      whatever crossed on the way, and nothing comes on unasked. */
  lemma Outcome(es: seq<Event>, p: nat, o: Byte)
    requires IsRun(Start(), es) && p < 2 && Known(o)
    requires Run(Start(), es).chan[0] == [] && Run(Start(), es).chan[1] == []
    ensures Get(Run(Start(), es).ends[p].local, o) == Some(Yes)
        <==> On(o, EnableLocal(p, o) in es, EnableRemote(1 - p, o) in es)
  {
    hide Next, Legal;
    StartInv();
    assert TalkOf(Start(), p, o) == Talk(No, No, [], []);
    FitsRun(Start(), es, p, o, false, false);
    hide IsRun, Run;
  }
}
