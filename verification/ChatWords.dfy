/** What the model says is passed on, word for word. */
module ChatWords {
  import opened Strings
  import opened ChatTypes
  import opened Compaction
  import opened ChatMachine
  import opened ChatInvariants
  import opened ChatRounds
  import opened ChatEvents
  import opened ChatTheorems
  import opened ChatLog

  /** Something the model says, or an error. */
  datatype Word = Spoken(text: string) | Argument(callId: string) | Fault(text: string) | Other

  function WordOf(e: Event): seq<Word> {
    match e
    case Text(_, text) => [Spoken(text)]
    case Arguments(_, callId, _) => [Argument(callId)]
    case RunError(_, text) => [Fault(text)]
    case Forwarded => [Other]
    case _ => []
  }

  function WordsOf(es: seq<Event>): seq<Word> {
    if es == [] then [] else WordsOf(es[..|es| - 1]) + WordOf(es[|es| - 1])
  }

  /** What a step lets the model say, or the engine itself if there is no model. */
  function Hear(heard: seq<Word>, a: Action): seq<Word> {
    match a
    case AtEntry(Pop) => []
    case AtEntry(Enter(false)) => heard + [Fault("No provider registered.")]
    case InRound(Receive(TextDelta(text))) => if text == "" then heard else heard + [Spoken(text)]
    case InRound(Receive(ArgumentDelta(callId))) => heard + [Argument(callId)]
    case InRound(Receive(StreamError(text))) => heard + [Fault(text)]
    case InRound(Receive(Passthrough)) => heard + [Other]
    case _ => heard
  }

  function HearAll(heard: seq<Word>, trace: seq<Action>): seq<Word>
    decreases |trace|
  {
    if trace == [] then heard else HearAll(Hear(heard, trace[0]), trace[1..])
  }

  lemma WordsAppend(es: seq<Event>, e: Event)
    ensures WordsOf(es + [e]) == WordsOf(es) + WordOf(e)
  {
    assert (es + [e])[..|es|] == es;
  }

  lemma {:induction false} WordsConcat(es: seq<Event>, more: seq<Event>)
    ensures WordsOf(es + more) == WordsOf(es) + WordsOf(more)
    decreases |more|
  {
    if more == [] {
      assert es + more == es;
    } else {
      hide WordsOf, WordOf;
      var front, last := more[..|more| - 1], more[|more| - 1];
      WordsConcat(es, front);
      assert more == front + [last];
      WordsAppend(front, last);
      WordsAppend(es + front, last);
      Assoc(es, front, [last]);
      Assoc(WordsOf(es), WordsOf(front), WordOf(last));
    }
  }

  lemma FewWords(es: seq<Event>)
    requires |es| <= 3
    ensures WordsOf(es) == (if |es| > 0 then WordOf(es[0]) else []) + (if |es| > 1 then WordOf(es[1]) else [])
                         + (if |es| > 2 then WordOf(es[2]) else [])
  {
    if |es| > 0 {
      var t := es[..|es| - 1];
      assert WordsOf([]) == [];
      if |t| > 0 {
        assert t[..|t| - 1] == es[..|es| - 2];
      }
    }
  }

  predicate WordsOk(s: State, heard: seq<Word>) {
    if s.worker.Idle? then true
    else
      && WordsOf(s.run.events) <= heard
      && (!HasCaptured(s.worker) || Early(s.worker) || !Stale(s) ==> WordsOf(s.run.events) == heard)
  }

  lemma EntryWords(s: State, a: EntryAction)
    requires EntryEnabled(s, a) && !a.Pop?
    ensures Hear([], AtEntry(a)) == WordsOf(SaidAtEntry(s, a))
  {
    FewWords(SaidAtEntry(s, a));
    hide WordsOf, Removed;
  }

  lemma SinkWords(s: State, round: Round, e: ProviderEvent)
    ensures WordsOf(SaidBySink(s, round, e)) == if Stale(s) then [] else Hear([], InRound(Receive(e)))
  {
    FewWords(SaidBySink(s, round, e));
    hide WordsOf;
  }

  lemma RoundWords(s: State, a: RoundAction)
    requires RoundEnabled(s, a) && !a.Receive?
    ensures WordsOf(SaidInRound(s, a)) == []
  {
    FewWords(SaidInRound(s, a));
    hide WordsOf, SaidBySink;
  }

  lemma ToolWords(s: State, a: ToolAction)
    requires ToolEnabled(s, a)
    ensures WordsOf(SaidInTools(s, a)) == []
  {
    FewWords(SaidInTools(s, a));
    hide WordsOf, CardOf;
  }

  lemma EndWords(s: State, a: EndAction)
    requires EndEnabled(s, a)
    ensures WordsOf(SaidAtEnd(s, a)) == []
  {
    FewWords(SaidAtEnd(s, a));
    hide WordsOf;
  }

  /** The words a step adds to the log. */
  lemma WordsOfStep(s: State, a: Action)
    requires Enabled(s, a) && Quiet(a)
    ensures a.InRound? && a.round.Receive? && Stale(s) ==> WordsOf(SaidBy(s, a)) == []
    ensures !(a.InRound? && a.round.Receive? && Stale(s)) ==> Hear([], a) == WordsOf(SaidBy(s, a))
  {
    hide WordsOf, SaidAtEntry, SaidBySink, SaidInTools, SaidAtEnd;
    match a
    case AtEntry(e) => EntryWords(s, e);
    case InRound(r) =>
      if r.Receive? {
        SinkWords(s, s.worker.round, r.event);
      } else {
        RoundWords(s, r);
      }
    case InTools(t) => ToolWords(s, t);
    case AtEnd(e) => EndWords(s, e);
  }

  lemma HearMore(heard: seq<Word>, a: Action)
    requires a != AtEntry(Pop)
    ensures Hear(heard, a) == heard + Hear([], a)
  {}

  lemma QuietWords(s: State, a: Action, heard: seq<Word>)
    requires Generations(s) && WordsOk(s, heard) && Enabled(s, a) && Quiet(a)
    ensures WordsOk(Apply(s, a), Hear(heard, a))
  {
    QuietFrame(s, a);
    StepSays(s, a);
    WordsConcat(s.run.events, SaidBy(s, a));
    WordsOfStep(s, a);
    HearMore(heard, a);
    if Early(Apply(s, a).worker) {
      EarlyPhase(s, a);
    }
    hide Apply, SaidBy, WordsOf, Hear;
  }

  lemma WordsKept(s: State, a: Action, heard: seq<Word>)
    requires Generations(s) && WordsOk(s, heard) && Enabled(s, a)
    ensures WordsOk(Apply(s, a), Hear(heard, a))
  {
    if Quiet(a) {
      QuietWords(s, a, heard);
      hide *;
    } else if a.ByOthers? {
      OthersMoveForward(s, a.other);
      hide ApplyOther, WordsOf;
    } else {
      assert WordsOf([]) == [];
      hide WordsOf;
    }
  }

  lemma {:induction false} WordsAlways(s: State, trace: seq<Action>, heard: seq<Word>)
    requires Generations(s) && WordsOk(s, heard) && Possible(s, trace)
    ensures WordsOk(After(s, trace), HearAll(heard, trace))
    decreases |trace|
  {
    hide Generations, WordsOk, Enabled, Apply, Hear;
    if trace == [] {
    } else {
      GenerationsKept(s, trace[0]);
      WordsKept(s, trace[0], heard);
      WordsAlways(Apply(s, trace[0]), trace[1..], Hear(heard, trace[0]));
    }
  }

  /** While a run is current its listeners hear everything the model says: every piece of
      text, every argument fragment under its call, every error and every other event, each
      once and in order; and nothing more. Once it is superseded they hear no more of it. */
  lemma WordsArePassedOn(trace: seq<Action>)
    requires Possible(INIT, trace) && !After(INIT, trace).worker.Idle?
    ensures var s, heard := After(INIT, trace), HearAll([], trace);
            && WordsOf(s.run.events) <= heard
            && (HasCaptured(s.worker) && !Stale(s) ==> WordsOf(s.run.events) == heard)
  {
    InvariantHoldsInitially();
    WordsAlways(INIT, trace, []);
    hide Possible, After;
  }
}
