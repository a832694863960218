/** What holds over every run of the chat engine, whatever the other threads do. */
module ChatTheorems {
  import opened ChatTypes
  import opened Compaction
  import opened ChatMachine
  import opened ChatInvariants
  import opened ChatRounds
  import opened ChatEvents

  ghost predicate Invariant(s: State) {
    && Generations(s) && Isolated(s) && Projected(s)
    && RoundsOk(s) && AllRunsOk(s)
    && EventsOk(s) && PastEnded(s)
  }

  lemma InvariantHoldsInitially()
    ensures Invariant(INIT)
  {}

  /** Every step of every thread keeps the invariant. */
  lemma InvariantKept(s: State, a: Action)
    requires Invariant(s) && Enabled(s, a)
    ensures Invariant(Apply(s, a))
  {
    hide Apply, Generations, Isolated, Projected, RoundsOk, AllRunsOk, EventsOk, PastEnded;
    GenerationsKept(s, a);
    IsolatedKept(s, a);
    ProjectedKept(s, a);
    RoundsKept(s, a);
    AllRunsKept(s, a);
    EventsKept(s, a);
    PastEndedKept(s, a);
  }

  lemma {:induction false} InvariantAlways(s: State, trace: seq<Action>)
    requires Invariant(s) && Possible(s, trace)
    ensures Invariant(After(s, trace))
    decreases |trace|
  {
    if trace == [] {
    } else {
      InvariantKept(s, trace[0]);
      InvariantAlways(Apply(s, trace[0]), trace[1..]);
    }
  }

  /** Reset isolation: after any steps of any threads, drain timeouts included, every
      message a prompt run has in the history comes from a run that took its
      generation after the latest clear. */
  lemma ResetIsolation(trace: seq<Action>)
    requires Possible(INIT, trace)
    ensures var s := After(INIT, trace);
            forall m :: m in s.history && m.origin.FromRun? ==>
              && IsRun(s, m.origin.run)
              && RunAt(s, m.origin.run).captured
              && RunAt(s, m.origin.run).epoch == s.epoch
  {
    InvariantHoldsInitially();
    InvariantAlways(INIT, trace);
    var s := After(INIT, trace);
    forall m | m in s.history && m.origin.FromRun?
      ensures CurrentSource(s, m.origin.run)
    {
      assert Isolated(s);
    }
  }

  /** Run `k` took its generation before the latest clear. */
  predicate Superseded(s: State, k: nat) {
    IsRun(s, k) && RunAt(s, k).captured && RunAt(s, k).epoch < s.epoch
  }

  lemma SupersededRunIsSilent(s: State, a: Action, k: nat)
    requires Generations(s) && Enabled(s, a) && Superseded(s, k)
    ensures Superseded(Apply(s, a), k)
    ensures RunAt(Apply(s, a), k).appended == RunAt(s, k).appended
  {
    GenerationsKept(s, a);
    if Quiet(a) {
      QuietFrame(s, a);
      hide Apply;
    } else if a.ByOthers? {
      OthersMoveForward(s, a.other);
      hide ApplyOther;
    }
  }

  /** A run that took its generation before a clear never appends again. */
  lemma {:induction false} SupersededRunsNeverAppendAgain(s: State, trace: seq<Action>, k: nat)
    requires Generations(s) && Superseded(s, k) && Possible(s, trace)
    ensures IsRun(After(s, trace), k)
    ensures RunAt(After(s, trace), k).appended == RunAt(s, k).appended
    decreases |trace|
  {
    if trace == [] {
    } else {
      SupersededRunIsSilent(s, trace[0], k);
      GenerationsKept(s, trace[0]);
      SupersededRunsNeverAppendAgain(Apply(s, trace[0]), trace[1..], k);
    }
  }

  lemma ClearedRunsNeverAppendAgain(before: seq<Action>, later: seq<Action>, k: nat)
    requires Possible(INIT, before) && Possible(After(INIT, before), later)
    requires Superseded(After(INIT, before), k)
    ensures Possible(INIT, before + later)
    ensures var s, s' := After(INIT, before), After(INIT, before + later);
            IsRun(s', k) && RunAt(s', k).appended == RunAt(s, k).appended
  {
    PossibleConcat(INIT, before, later);
    InvariantHoldsInitially();
    InvariantAlways(INIT, before);
    SupersededRunsNeverAppendAgain(After(INIT, before), later, k);
  }

  /** Request `q` of run `k` carried exactly what the run had appended so far, which reads
      as a prompt and tool rounds with no call left unanswered. */
  ghost predicate ClosedRequest(r: Run, k: nat, q: Request) {
    && 0 < q.appended <= |r.appended|
    && OfRun(q.history, k) == r.appended[..q.appended]
    && FullyAnswered(Parse(r.appended[..q.appended]))
    && Parse(r.appended[..q.appended]).closing == []
  }

  /** Tool rounds are closed before the model is asked again. What a run appended
      reads as a prompt, tool rounds answered in order, and at most one closing
      message; and each request it made carried exactly what it had appended so
      far, with no tool call left unanswered. */
  lemma RequestsFindClosedRounds(trace: seq<Action>, k: nat)
    requires Possible(INIT, trace) && IsRun(After(INIT, trace), k)
    ensures var r := RunAt(After(INIT, trace), k);
            && (r.appended != [] ==> WellFormed(Parse(r.appended)) && Render(Parse(r.appended)) == r.appended)
            && forall q :: q in r.requests ==> ClosedRequest(r, k, q)
  {
    InvariantHoldsInitially();
    InvariantAlways(INIT, trace);
    var r := RunAt(After(INIT, trace), k);
    assert RunOk(r, k);
    if r.appended != [] {
      RunsHaveTheirGrammar(r.appended);
    }
    forall q | q in r.requests
      ensures ClosedRequest(r, k, q)
    {
      assert RequestOk(r, k, q);
      RunsHaveTheirGrammar(r.appended[..q.appended]);
    }
  }

  /** Events and text are conserved. A run that is over and emitted Started emitted
      exactly one Finished, last of all. If it reported the assistant message done,
      the deltas it emitted spell exactly the assistant messages it appended; in any
      case it appended no text it did not stream. */
  lemma EventsAndTextAreConserved(trace: seq<Action>, k: nat)
    requires Possible(INIT, trace)
    requires k < |After(INIT, trace).past|
    ensures var r := After(INIT, trace).past[k];
            && (HasStarted(r.events) ==> FinishedLast(r.events))
            && (SaidDone(r.events) ==> StreamedText(r.events) == StoredText(r.appended))
            && StoredText(r.appended) <= StreamedText(r.events)
  {
    InvariantHoldsInitially();
    InvariantAlways(INIT, trace);
    assert Ended(After(INIT, trace).past[k]);
  }

  /** While a run is under way it has not finished, and what it streamed is what it
      stored followed by the round in flight. */
  lemma NothingIsFinishedEarly(trace: seq<Action>)
    requires Possible(INIT, trace)
    requires var s := After(INIT, trace); !s.worker.Idle? && !s.worker.Returned?
    ensures var s := After(INIT, trace);
            && NoFinished(s.run.events) && !SaidDone(s.run.events)
            && StreamedText(s.run.events) == StoredText(s.run.appended) + InFlight(s.worker)
  {
    InvariantHoldsInitially();
    InvariantAlways(INIT, trace);
  }

  /** What the worker can do next. */
  function NextStep(s: State): Action
    requires !s.worker.Idle?
  {
    match s.worker
    case Popped => AtEntry(Announce)
    case Announced => AtEntry(Capture)
    case Captured => AtEntry(Enter(true))
    case Entered => AtEntry(CheckEntry)
    case BeforePrompt => AtEntry(ChooseCompaction(NoCompaction))
    case Summarizing(_) => AtEntry(ReceiveSummary(Failed("")))
    case ReadyToAppend => AtEntry(AppendPrompt)
    case RoundStart => InRound(BuildRequest)
    case Streaming(_) => InRound(EndStream)
    case RoundDone(_) => InRound(AppendRound)
    case ModelDone(_) => AtEnd(AppendFinal)
    case ToolLoop(_, _) => InTools(StartTool)
    case ToolRunning(_, _, _) => InTools(FinishTool("", false))
    case ToolFinished(_, _, _, _, _) => InTools(AppendResult)
    case ToolAppended(_, _) => InTools(CheckStopAfterTool)
    case ToolsReturned => AtEnd(CheckStopAfterRound)
    case ToolsReturnedNoStop => AtEnd(CheckGenerationAfterRound)
    case Returned => AtEnd(Drain)
  }

  /** The worker is never stuck inside a prompt. */
  lemma WorkerIsNeverStuck(trace: seq<Action>)
    requires Possible(INIT, trace) && !After(INIT, trace).worker.Idle?
    ensures Enabled(After(INIT, trace), NextStep(After(INIT, trace)))
  {
    InvariantHoldsInitially();
    InvariantAlways(INIT, trace);
  }
}
