/** What a requested stop leaves to the run under way. */
module ChatStops {
  import opened ChatTypes
  import opened Compaction
  import opened ChatMachine
  import opened ChatInvariants
  import opened ChatRounds
  import opened ChatEvents
  import opened ChatTheorems
  import opened ChatLog

  function ToolStarts(es: seq<Event>): nat {
    if es == [] then 0 else ToolStarts(es[..|es| - 1]) + (if es[|es| - 1].ToolStarted? then 1 else 0)
  }

  /** The run can still come to its next request. */
  predicate MayAsk(s: State) {
    match s.worker
    case Popped => true
    case Announced => true
    case RoundStart => !Stale(s)
    case ToolsReturnedNoStop => !Stale(s)
    case _ => Early(s.worker) && !Stale(s)
  }

  /** The run can still come to its next tool, with or without another request. */
  predicate MayStart(s: State) {
    match s.worker
    case Streaming(round) => !Stale(s) && !round.failed
    case RoundDone(_) => !Stale(s)
    case ToolLoop(round, i) => i < |round.tools|
    case _ => MayAsk(s)
  }

  function Asks(s: State): nat {
    |s.run.requests| + (if MayAsk(s) then 1 else 0)
  }

  function Starts(s: State): nat {
    ToolStarts(s.run.events) + (if MayStart(s) then 1 else 0)
  }

  lemma {:induction false} StartsAppend(es: seq<Event>, more: seq<Event>)
    ensures ToolStarts(es + more) == ToolStarts(es) + ToolStarts(more)
    decreases |more|
  {
    if more == [] {
      assert es + more == es;
    } else {
      var n := |more| - 1;
      assert (es + more)[..|es| + n] == es + more[..n];
      StartsAppend(es, more[..n]);
    }
  }

  // ---------- neither grows ----------

  predicate NoMore(s: State, s': State, said: seq<Event>) {
    && |s'.run.requests| + (if MayAsk(s') then 1 else 0) <= Asks(s)
    && ToolStarts(said) + (if MayStart(s') then 1 else 0) <= (if MayStart(s) then 1 else 0)
  }

  lemma FewStarts(es: seq<Event>)
    requires |es| <= 3
    ensures ToolStarts(es) == (if |es| > 0 && es[0].ToolStarted? then 1 else 0)
                            + (if |es| > 1 && es[1].ToolStarted? then 1 else 0)
                            + (if |es| > 2 && es[2].ToolStarted? then 1 else 0)
  {
    if |es| > 0 {
      var t := es[..|es| - 1];
      if |t| > 0 {
        assert t[..|t| - 1] == es[..|es| - 2];
      }
    }
  }

  lemma ChoosingAsksNoMore(s: State, plan: CompactionPlan)
    requires EntryEnabled(s, ChooseCompaction(plan))
    ensures NoMore(s, ApplyEntry(s, ChooseCompaction(plan)), SaidAtEntry(s, ChooseCompaction(plan)))
  {
    FewStarts(SaidAtEntry(s, ChooseCompaction(plan)));
    hide Compacted, Removed, Truncated, CompactNow, ToolStarts;
    if plan.Truncate? {
      CompactNowWorker(s, Truncated(s.history, plan.keep), Removed(s.history, plan.keep));
    }
  }

  lemma SummaryAsksNoMore(s: State, summary: Summary)
    requires EntryEnabled(s, ReceiveSummary(summary))
    ensures NoMore(s, ApplyEntry(s, ReceiveSummary(summary)), SaidAtEntry(s, ReceiveSummary(summary)))
  {
    FewStarts(Shrinking(Removed(s.history, s.worker.keep)));
    hide Removed, ToolStarts;
    SummaryReady(s, summary);
    hide ApplyEntry, Shrinking;
  }

  lemma NothingMoreAtEntry(s: State, a: EntryAction)
    requires EntryEnabled(s, a) && !a.Pop? && !a.Capture?
    ensures NoMore(s, ApplyEntry(s, a), SaidAtEntry(s, a))
  {
    if a.ChooseCompaction? {
      ChoosingAsksNoMore(s, a.plan);
      hide *;
    } else if a.ReceiveSummary? {
      SummaryAsksNoMore(s, a.summary);
      hide *;
    } else {
      FewStarts(SaidAtEntry(s, a));
      hide ToolStarts, CompactNow, Truncated, Removed, Compacted;
    }
  }

  lemma NothingMoreFromModel(s: State, e: ProviderEvent)
    requires s.worker.Streaming?
    ensures NoMore(s, Sink(s, s.worker.round, e), SaidBySink(s, s.worker.round, e))
  {
    FewStarts(SaidBySink(s, s.worker.round, e));
    hide ToolStarts;
  }

  lemma RequestsAskNoMore(s: State)
    requires RoundEnabled(s, BuildRequest)
    ensures NoMore(s, ApplyRound(s, BuildRequest), SaidInRound(s, BuildRequest))
  {
    FewStarts(SaidInRound(s, BuildRequest));
    hide ToolStarts;
  }

  lemma StreamEndsAskNoMore(s: State)
    requires RoundEnabled(s, EndStream)
    ensures NoMore(s, ApplyRound(s, EndStream), SaidInRound(s, EndStream))
  {
    FewStarts(SaidInRound(s, EndStream));
    hide ToolStarts;
  }

  lemma RoundsAskNoMore(s: State)
    requires RoundsOk(s) && RoundEnabled(s, AppendRound)
    ensures NoMore(s, ApplyRound(s, AppendRound), SaidInRound(s, AppendRound))
  {
    FewStarts(SaidInRound(s, AppendRound));
    hide ToolStarts, ShapeOf;
  }

  lemma NothingMoreInRound(s: State, a: RoundAction)
    requires RoundsOk(s) && RoundEnabled(s, a)
    ensures NoMore(s, ApplyRound(s, a), SaidInRound(s, a))
  {
    match a
    case Receive(e) =>
      NothingMoreFromModel(s, e);
      hide NoMore, Sink, SaidBySink;
    case BuildRequest => RequestsAskNoMore(s); hide *;
    case EndStream => StreamEndsAskNoMore(s); hide *;
    case AppendRound => RoundsAskNoMore(s); hide *;
  }

  lemma NothingMoreInTools(s: State, a: ToolAction)
    requires s.stopRequested && ToolEnabled(s, a)
    ensures NoMore(s, ApplyTool(s, a), SaidInTools(s, a))
  {
    ToolFrame(s, a);
    FewStarts(SaidInTools(s, a));
    hide ToolStarts, QuietStep;
  }

  lemma NothingMoreAtEnd(s: State, a: EndAction)
    requires s.stopRequested && EndEnabled(s, a) && !a.Drain?
    ensures NoMore(s, ApplyEnd(s, a), SaidAtEnd(s, a))
  {
    EndFrame(s, a);
    FewStarts(SaidAtEnd(s, a));
    hide ToolStarts, QuietStep;
  }

  lemma NothingMore(s: State, a: Action)
    requires s.stopRequested && RoundsOk(s) && Enabled(s, a) && Quiet(a)
    ensures NoMore(s, Apply(s, a), SaidBy(s, a))
  {
    hide ApplyEntry, ApplyRound, ApplyTool, ApplyEnd, SaidAtEntry, SaidInRound, SaidInTools, SaidAtEnd, NoMore, RoundsOk;
    match a
    case AtEntry(e) => NothingMoreAtEntry(s, e);
    case InRound(r) => NothingMoreInRound(s, r);
    case InTools(t) => NothingMoreInTools(s, t);
    case AtEnd(e) => NothingMoreAtEnd(s, e);
  }

  /** Run `k` has been asked to stop, or is over, and has no more than this to come. */
  predicate Bounded(s: State, k: nat, asks: nat, starts: nat) {
    && IsRun(s, k)
    && (if k < |s.past| then |s.past[k].requests| <= asks && ToolStarts(s.past[k].events) <= starts
        else s.stopRequested && Asks(s) <= asks && Starts(s) <= starts)
  }

  lemma BoundedStep(s: State, a: Action, k: nat, asks: nat, starts: nat)
    requires Generations(s) && RoundsOk(s) && Enabled(s, a) && Bounded(s, k, asks, starts)
    ensures Bounded(Apply(s, a), k, asks, starts)
  {
    hide ToolStarts, RoundsOk;
    if Quiet(a) {
      QuietFrame(s, a);
      if k == |s.past| {
        NothingMore(s, a);
        StepSays(s, a);
        StartsAppend(s.run.events, SaidBy(s, a));
      }
      hide Apply, SaidBy, MayAsk, MayStart;
    } else if a.ByOthers? {
      OthersMoveForward(s, a.other);
      OthersLeaveItToTheRun(s, a.other);
      hide ApplyOther, MayAsk, MayStart;
    }
  }

  lemma OthersLeaveItToTheRun(s: State, a: OtherAction)
    requires OtherEnabled(s, a) && (HasCaptured(s.worker) ==> s.run.generation <= s.generation)
    ensures MayAsk(ApplyOther(s, a)) ==> MayAsk(s)
    ensures MayStart(ApplyOther(s, a)) ==> MayStart(s)
  {
    OthersMoveForward(s, a);
    hide ApplyOther;
  }

  lemma {:induction false} BoundedAlways(s: State, trace: seq<Action>, k: nat, asks: nat, starts: nat)
    requires Generations(s) && RoundsOk(s) && Bounded(s, k, asks, starts) && Possible(s, trace)
    ensures Bounded(After(s, trace), k, asks, starts)
    decreases |trace|
  {
    hide Apply, Enabled, Generations, RoundsOk, Bounded;
    if trace == [] {
    } else {
      BoundedStep(s, trace[0], k, asks, starts);
      GenerationsKept(s, trace[0]);
      RoundsKept(s, trace[0]);
      BoundedAlways(Apply(s, trace[0]), trace[1..], k, asks, starts);
    }
  }

  // ---------- what is allowed does happen ----------

  predicate Nearer(s: State, s': State, said: seq<Event>) {
    && MayAsk(s') && s'.past == s.past && ToGo(s') < ToGo(s)
    && s'.run.requests == s.run.requests && ToolStarts(said) == 0
  }

  lemma EntryComesNearer(s: State, a: EntryAction)
    requires EntryEnabled(s, a) && MayAsk(s) && AtEntry(a) == NextStep(s)
    ensures Nearer(s, ApplyEntry(s, a), SaidAtEntry(s, a))
  {
    FewStarts(SaidAtEntry(s, a));
    hide Compacted, Removed, Truncated, CompactNow, ToolStarts;
    if a.ReceiveSummary? {
      SummaryComesNearer(s, a.summary);
      hide ApplyEntry, SaidAtEntry;
    }
  }

  lemma SummaryComesNearer(s: State, summary: Summary)
    requires s.worker.Summarizing? && MayAsk(s)
    ensures Nearer(s, ApplyEntry(s, ReceiveSummary(summary)), SaidAtEntry(s, ReceiveSummary(summary)))
  {
    FewStarts(SaidAtEntry(s, ReceiveSummary(summary)));
    SummaryReady(s, summary);
    hide Compacted, Removed, Truncated, CompactNow, ToolStarts;
    CompactNowWorker(s, Truncated(s.history, s.worker.keep), Removed(s.history, s.worker.keep));
  }

  /** One step on the way to the next request. */
  lemma OneStepToTheRequest(s: State) returns (a: Action)
    requires MayAsk(s) && !s.worker.RoundStart?
    ensures Enabled(s, a) && Nearer(s, Apply(s, a), SaidBy(s, a)) && Adds(s, Apply(s, a), SaidBy(s, a))
  {
    a := NextStep(s);
    StepSays(s, a);
    if a.AtEntry? {
      EntryComesNearer(s, a.entry);
      hide ApplyEntry, SaidAtEntry, Nearer;
    } else {
      hide ApplyEntry, ApplyRound, ApplyTool, ApplyOther;
    }
  }

  function ToGo(s: State): nat {
    match s.worker
    case Popped => 7
    case Announced => 6
    case Captured => 5
    case Entered => 4
    case BeforePrompt => 3
    case Summarizing(_) => 2
    case ReadyToAppend => 1
    case ToolsReturnedNoStop => 1
    case _ => 0
  }

  lemma {:induction false} ToTheRequest(s: State) returns (trace: seq<Action>, s': State)
    requires MayAsk(s)
    ensures Leads(s, trace, s') && s'.past == s.past && s'.worker == Streaming(EMPTY_ROUND) && !Stale(s')
    ensures |s'.run.requests| == |s.run.requests| + 1 && ToolStarts(s'.run.events) == ToolStarts(s.run.events)
    decreases ToGo(s)
  {
    hide Leads, ToolStarts;
    if s.worker.RoundStart? {
      NoSteps(s);
      trace, s' := OneMore(s, [], s, InRound(BuildRequest));
    } else {
      var a := OneStepToTheRequest(s);
      StartsAppend(s.run.events, SaidBy(s, a));
      hide Apply, Enabled, SaidBy, ToGo, MayAsk;
      trace, s' := ToTheRequest(Apply(s, a));
      trace := OneBefore(s, a, trace, s');
    }
  }

  lemma OneBefore(s: State, a: Action, trace: seq<Action>, s': State) returns (trace': seq<Action>)
    requires Enabled(s, a) && Leads(Apply(s, a), trace, s')
    ensures Leads(s, trace', s')
  {
    hide Apply, Enabled;
    trace' := [a] + trace;
    assert trace'[1..] == trace;
  }

  lemma ToTheRound(s: State, call: ToolCall) returns (trace: seq<Action>, s': State)
    requires RoundsOk(s) && MayStart(s) && !s.worker.ToolLoop?
    ensures Leads(s, trace, s') && s'.past == s.past && s'.worker.RoundDone? && s'.worker.round.tools != [] && !Stale(s')
    ensures ToolStarts(s'.run.events) == ToolStarts(s.run.events)
  {
    hide Leads, ToolStarts, ShapeOf, ToGo;
    NoSteps(s);
    trace, s' := [], s;
    if MayAsk(s) {
      trace, s' := ToTheRequest(s);
    }
    hide MayAsk;
    if s'.worker.Streaming? {
      trace, s' := OneMore(s, trace, s', InRound(Receive(ToolCallRequested([call]))));
      trace, s' := OneMore(s, trace, s', InRound(EndStream));
    }
  }

  lemma ToTheLoop(s: State) returns (trace: seq<Action>, s': State)
    requires RoundsOk(s) && MayStart(s)
    ensures Leads(s, trace, s') && s'.past == s.past && s'.worker.ToolLoop? && s'.worker.next < |s'.worker.round.tools|
    ensures ToolStarts(s'.run.events) == ToolStarts(s.run.events)
  {
    hide Leads, ShapeOf, ToolStarts;
    NoSteps(s);
    trace, s' := [], s;
    if !s.worker.ToolLoop? {
      trace, s' := ToTheRound(s, ToolCall("", "", ""));
      hide MayAsk, MayStart, RoundsOk;
      trace, s' := OneMore(s, trace, s', InRound(AppendRound));
    }
  }

  lemma StartingStarts(s: State)
    requires s.worker.ToolLoop? && s.worker.next < |s.worker.round.tools|
    ensures var s' := ApplyTool(s, StartTool);
            && s'.past == s.past && !s'.worker.Idle?
            && ToolStarts(s'.run.events) == ToolStarts(s.run.events) + 1
  {
    ToolSays(s, StartTool);
    FewStarts(SaidInTools(s, StartTool));
    StartsAppend(s.run.events, SaidInTools(s, StartTool));
    hide ToolStarts;
  }

  lemma ToTheTool(s: State) returns (trace: seq<Action>, s': State)
    requires RoundsOk(s) && MayStart(s)
    ensures Leads(s, trace, s') && s'.past == s.past && !s'.worker.Idle?
    ensures ToolStarts(s'.run.events) == ToolStarts(s.run.events) + 1
  {
    hide Leads, MayAsk, MayStart, RoundsOk, ToolStarts, ApplyTool;
    trace, s' := ToTheLoop(s);
    StartingStarts(s');
    trace, s' := OneMore(s, trace, s', InTools(StartTool));
  }

  ghost predicate AsksAgain(s: State, k: nat)
    requires IsRun(s, k)
  {
    exists later :: Possible(s, later) && IsRun(After(s, later), k)
                    && |RunAt(After(s, later), k).requests| > |RunAt(s, k).requests|
  }

  ghost predicate StartsATool(s: State, k: nat)
    requires IsRun(s, k)
  {
    exists later :: Possible(s, later) && IsRun(After(s, later), k)
                    && ToolStarts(RunAt(After(s, later), k).events) > ToolStarts(RunAt(s, k).events)
  }

  /** From `s` on, run `k` makes at most one request and starts at most one tool. */
  ghost predicate OneOfEachAtMost(s: State, k: nat)
    requires IsRun(s, k)
  {
    forall later :: Possible(s, later) ==>
      && IsRun(After(s, later), k)
      && |RunAt(After(s, later), k).requests| <= |RunAt(s, k).requests| + 1
      && ToolStarts(RunAt(After(s, later), k).events) <= ToolStarts(RunAt(s, k).events) + 1
  }

  lemma WhatIsLeft(s: State, later: seq<Action>)
    requires Invariant(s) && s.active && s.stopRequested && Possible(s, later)
    ensures var k, s' := |s.past|, After(s, later);
            && IsRun(s', k)
            && |RunAt(s', k).requests| <= Asks(s) && ToolStarts(RunAt(s', k).events) <= Starts(s)
  {
    BoundedAlways(s, later, |s.past|, Asks(s), Starts(s));
  }

  lemma WhatCanHappen(s: State)
    requires Invariant(s) && s.active
    ensures IsRun(s, |s.past|)
    ensures MayAsk(s) ==> AsksAgain(s, |s.past|)
    ensures MayStart(s) ==> StartsATool(s, |s.past|)
  {
    hide Possible, After, ToolStarts, MayAsk, MayStart;
    if MayAsk(s) {
      var trace, s' := ToTheRequest(s);
      assert Possible(s, trace) && After(s, trace) == s';
    }
    if MayStart(s) {
      var trace, s' := ToTheTool(s);
      assert Possible(s, trace) && After(s, trace) == s';
    }
  }

  /** The steps that ask the run under way to stop. */
  predicate AsksToStop(a: OtherAction) {
    a.StopActive? || a.ResetClearQueue?
  }

  /** A stop, by a cancellation, the destructor or a reset, leaves to the run under way at
      most one request and one tool, whatever happens afterwards. The request is still
      possible exactly if the worker is before it, behind the test of the stop at the end
      of a round, and the run is not superseded; a tool exactly if that is so, or the round
      being streamed has not failed, or is done, and the run is not superseded, or the loop
      over the tools is about to go on. */
  lemma StopsLeaveOneRequestExactly(trace: seq<Action>, a: OtherAction)
    requires Possible(INIT, trace) && After(INIT, trace).active
    requires AsksToStop(a) && OtherEnabled(After(INIT, trace), a)
    ensures var s := After(INIT, trace);
            var s1, k := ApplyOther(s, a), |s.past|;
            && IsRun(s1, k) && OneOfEachAtMost(s1, k)
            && (AsksAgain(s1, k) <==> MayAsk(s))
            && (StartsATool(s1, k) <==> MayStart(s))
  {
    var s := After(INIT, trace);
    InvariantHoldsInitially();
    InvariantAlways(INIT, trace);
    InvariantKept(s, ByOthers(a));
    hide Possible, After;
    StopsLeave(s, a);
  }

  lemma StopsLeave(s: State, a: OtherAction)
    requires OtherEnabled(s, a) && AsksToStop(a)
    requires Invariant(s) && Invariant(ApplyOther(s, a)) && s.active
    ensures var s1, k := ApplyOther(s, a), |s.past|;
            && IsRun(s1, k) && OneOfEachAtMost(s1, k)
            && (AsksAgain(s1, k) <==> MayAsk(s))
            && (StartsATool(s1, k) <==> MayStart(s))
  {
    var s1, k := ApplyOther(s, a), |s.past|;
    assert MayAsk(s1) == MayAsk(s) && MayStart(s1) == MayStart(s);
    hide Possible, After, MayAsk, MayStart, ToolStarts, Isolated, Projected, RoundsOk, AllRunsOk, EventsOk, PastEnded;
    WhatCanHappen(s1);
    forall later | Possible(s1, later)
      ensures var s' := After(s1, later);
              && IsRun(s', k)
              && |RunAt(s', k).requests| <= Asks(s1) && ToolStarts(RunAt(s', k).events) <= Starts(s1)
    {
      WhatIsLeft(s1, later);
    }
  }
}
