/** What a cancellation, or a section of a reset that moves the generation on, does to the
    run under way. */
module ChatCancel {
  import opened ChatTypes
  import opened Compaction
  import opened ChatMachine
  import opened ChatInvariants
  import opened ChatRounds
  import opened ChatEvents
  import opened ChatTheorems
  import opened ChatLog

  /** The steps after which what the worker has read is out of date. */
  predicate Supersedes(a: OtherAction) {
    a.Cancel? || a.ResetBump? || a.ResetClear?
  }

  /** Events that pass on what the model says, and the start of the answer. */
  predicate FromModel(e: Event) {
    e.Text? || e.Arguments? || e.Forwarded? || e.Started?
  }

  predicate NothingNew(before: seq<Event>, after: seq<Event>) {
    before <= after && forall i :: |before| <= i < |after| ==> !FromModel(after[i])
  }

  /** From `r` to `r'` the run stored nothing, asked the model nothing and passed nothing on. */
  predicate SaidNothing(r: Run, r': Run) {
    r'.appended == r.appended && r'.requests == r.requests && NothingNew(r.events, r'.events)
  }

  /** Run `k` had read a generation that is not current any more. */
  predicate Outdated(s: State, k: nat) {
    && IsRun(s, k) && RunAt(s, k).captured && RunAt(s, k).generation < s.generation
    && (k == |s.past| ==> HasCaptured(s.worker))
  }

  // ---------- silence ----------

  lemma OutdatedSays(s: State, a: Action)
    requires Enabled(s, a) && Stale(s)
    ensures forall e :: e in SaidBy(s, a) ==> !FromModel(e)
  {
    hide Removed;
  }

  lemma NothingAdded(before: seq<Event>, more: seq<Event>)
    requires forall e :: e in more ==> !FromModel(e)
    ensures NothingNew(before, before + more)
  {}

  lemma OutdatedStep(s: State, a: Action, k: nat)
    requires Generations(s) && Outdated(s, k) && Enabled(s, a)
    ensures Outdated(Apply(s, a), k) && SaidNothing(RunAt(s, k), RunAt(Apply(s, a), k))
  {
    if Quiet(a) {
      QuietFrame(s, a);
      if k == |s.past| {
        StepSays(s, a);
        OutdatedSays(s, a);
        NothingAdded(s.run.events, SaidBy(s, a));
      }
      hide Apply, SaidBy, NothingNew;
      if k < |s.past| {
        NothingAdded(RunAt(s, k).events, []);
        assert RunAt(s, k).events + [] == RunAt(s, k).events;
      }
    } else if a.ByOthers? {
      OthersMoveForward(s, a.other);
      hide ApplyOther;
    }
  }

  lemma {:induction false} OutdatedRunsSayNothing(s: State, trace: seq<Action>, k: nat)
    requires Generations(s) && Outdated(s, k) && Possible(s, trace)
    ensures IsRun(After(s, trace), k) && SaidNothing(RunAt(s, k), RunAt(After(s, trace), k))
    decreases |trace|
  {
    hide Apply, Enabled, Generations;
    if trace == [] {
    } else {
      OutdatedStep(s, trace[0], k);
      GenerationsKept(s, trace[0]);
      OutdatedRunsSayNothing(Apply(s, trace[0]), trace[1..], k);
    }
  }

  /** Whatever happens from `s` on, run `k` stores nothing, asks nothing and passes nothing on. */
  ghost predicate Silent(s: State, k: nat)
    requires IsRun(s, k)
  {
    forall trace :: Possible(s, trace) ==>
      IsRun(After(s, trace), k) && SaidNothing(RunAt(s, k), RunAt(After(s, trace), k))
  }

  // ---------- the other half: prompts whose generation was not read yet ----------

  lemma ToTheRound(s: State) returns (trace: seq<Action>, s': State)
    requires s.worker.Popped? || s.worker.Announced?
    ensures Leads(s, trace, s') && s'.past == s.past && s'.worker.RoundStart? && !Stale(s')
    ensures s'.run.appended == s.run.appended + [ActiveUserMessage(s.run.prompt.id, s.run.prompt.content, |s.past|)]
    ensures s'.run.requests == s.run.requests
  {
    hide Leads;
    NoSteps(s);
    trace, s' := [], s;
    if s.worker.Popped? {
      trace, s' := OneMore(s, trace, s', AtEntry(Announce));
    }
    trace, s' := OneMore(s, trace, s', AtEntry(Capture));
    trace, s' := OneMore(s, trace, s', AtEntry(Enter(true)));
    trace, s' := OneMore(s, trace, s', AtEntry(CheckEntry));
    trace, s' := OneMore(s, trace, s', AtEntry(ChooseCompaction(NoCompaction)));
    trace, s' := OneMore(s, trace, s', AtEntry(AppendPrompt));
  }

  lemma ToTheAnswer(s: State, text: string) returns (trace: seq<Action>, s': State)
    requires (s.worker.Popped? || s.worker.Announced?) && text != ""
    ensures Leads(s, trace, s') && s'.past == s.past && s'.worker.Streaming?
    ensures s'.run.appended == s.run.appended + [ActiveUserMessage(s.run.prompt.id, s.run.prompt.content, |s.past|)]
    ensures |s'.run.requests| == |s.run.requests| + 1
    ensures s'.run.events != [] && s'.run.events[|s'.run.events| - 1] == Text(s'.run.assistantId, text)
  {
    hide Leads;
    trace, s' := ToTheRound(s);
    trace, s' := OneMore(s, trace, s', InRound(BuildRequest));
    trace, s' := OneMore(s, trace, s', InRound(Receive(TextDelta(text))));
  }

  lemma NotSilent(s: State)
    requires s.worker.Popped? || s.worker.Announced?
    ensures IsRun(s, |s.past|) && !Silent(s, |s.past|)
  {
    var trace, s' := ToTheAnswer(s, "x");
    assert |s'.run.appended| != |s.run.appended|;
    assert !SaidNothing(s.run, s'.run);
    hide SaidNothing, Possible, After;
    assert Possible(s, trace) && After(s, trace) == s';
  }

  lemma SupersededStepIsOutdated(s: State, a: OtherAction)
    requires Generations(s) && s.active && Supersedes(a) && OtherEnabled(s, a) && HasCaptured(s.worker)
    ensures Outdated(ApplyOther(s, a), |s.past|)
  {}

  /** A cancellation, or either section of a reset that moves the generation on, silences
      the run under way for good, whatever happens afterwards, exactly if the run had read
      its generation: it stores no message, makes no request and passes on nothing the
      model says. Before that the prompt is still answered. */
  lemma SupersedingSilencesExactly(trace: seq<Action>, a: OtherAction)
    requires Possible(INIT, trace) && After(INIT, trace).active
    requires Supersedes(a) && OtherEnabled(After(INIT, trace), a)
    ensures var s := After(INIT, trace);
            && IsRun(ApplyOther(s, a), |s.past|)
            && (Silent(ApplyOther(s, a), |s.past|) <==> HasCaptured(s.worker))
  {
    var s := After(INIT, trace);
    InvariantHoldsInitially();
    InvariantAlways(INIT, trace);
    InvariantKept(s, ByOthers(a));
    hide Possible, After;
    OthersMoveForward(s, a);
    var s1 := ApplyOther(s, a);
    if HasCaptured(s.worker) {
      SupersededStepIsOutdated(s, a);
      hide ApplyOther, Outdated, SaidNothing, Isolated, Projected, RoundsOk, AllRunsOk, EventsOk, PastEnded;
      forall later | Possible(s1, later)
        ensures IsRun(After(s1, later), |s.past|) && SaidNothing(RunAt(s1, |s.past|), RunAt(After(s1, later), |s.past|))
      {
        OutdatedRunsSayNothing(s1, later, |s.past|);
      }
    } else {
      hide ApplyOther;
      NotSilent(s1);
    }
  }

  // ---------- how it ends ----------

  /** The run has said that it started and has not closed. */
  predicate Answering(w: Worker) {
    !w.Idle? && HasCaptured(w) && !Early(w) && !w.Returned?
  }

  /** The model is done and has nothing left to be stored. */
  predicate NothingLeft(w: Worker) {
    w.ModelDone? && w.round.text == ""
  }

  predicate EndsWith(es: seq<Event>, end: seq<Event>) {
    |end| <= |es| && es[|es| - |end|..] == end
  }

  function Closing(r: Run, cancelled: bool): seq<Event> {
    if cancelled then [RunCancelled(r.assistantId), Finished(r.assistantId)]
    else [AssistantDone(r.assistantId), Finished(r.assistantId)]
  }

  /** Run `k` is on the way to the closing events, or has come to them. */
  predicate WillClose(s: State, k: nat, cancelled: bool) {
    && IsRun(s, k)
    && (if k < |s.past| || s.worker.Returned? then EndsWith(RunAt(s, k).events, Closing(RunAt(s, k), cancelled))
        else Answering(s.worker) && Stale(s) && NothingLeft(s.worker) == !cancelled)
  }

  lemma EndsWithMore(es: seq<Event>, end: seq<Event>)
    ensures EndsWith(es + end, end)
  {}

  /** One step of the worker on the way through an outdated answer. */
  predicate OnTheWay(s: State, s': State, said: seq<Event>) {
    && s'.run.assistantId == s.run.assistantId
    && (Answering(s'.worker) || s'.worker.Returned?)
    && (Answering(s'.worker) ==> !NothingLeft(s.worker) && !NothingLeft(s'.worker))
    && (s'.worker.Returned? ==> said == Closing(s.run, !NothingLeft(s.worker)))
  }

  lemma OutdatedRound(s: State, a: RoundAction)
    requires Stale(s) && RoundEnabled(s, a)
    ensures OnTheWay(s, ApplyRound(s, a), SaidInRound(s, a))
  {}

  lemma OutdatedTools(s: State, a: ToolAction)
    requires Stale(s) && ToolEnabled(s, a)
    ensures OnTheWay(s, ApplyTool(s, a), SaidInTools(s, a))
  {}

  lemma OutdatedEnd(s: State, a: EndAction)
    requires Stale(s) && EndEnabled(s, a) && !a.Drain?
    ensures OnTheWay(s, ApplyEnd(s, a), SaidAtEnd(s, a))
  {}

  lemma OutdatedWay(s: State, a: Action)
    requires Answering(s.worker) && Stale(s) && Enabled(s, a) && Quiet(a)
    ensures OnTheWay(s, Apply(s, a), SaidBy(s, a))
  {
    hide ApplyRound, ApplyTool, ApplyEnd, SaidInRound, SaidInTools, SaidAtEnd, OnTheWay;
    match a
    case InRound(r) => OutdatedRound(s, r);
    case InTools(t) => OutdatedTools(s, t);
    case AtEnd(e) => OutdatedEnd(s, e);
    case _ =>
  }

  lemma ClosingStep(s: State, a: Action, k: nat, cancelled: bool)
    requires Generations(s) && Enabled(s, a) && WillClose(s, k, cancelled)
    ensures WillClose(Apply(s, a), k, cancelled)
  {
    var s' := Apply(s, a);
    if Quiet(a) {
      QuietFrame(s, a);
      if k == |s.past| {
        OutdatedWay(s, a);
        StepSays(s, a);
        EndsWithMore(s.run.events, SaidBy(s, a));
      }
      hide Apply, SaidBy;
    } else if a.ByOthers? {
      OthersMoveForward(s, a.other);
      hide ApplyOther;
    }
  }

  lemma {:induction false} ClosingAlways(s: State, trace: seq<Action>, k: nat, cancelled: bool)
    requires Generations(s) && WillClose(s, k, cancelled) && Possible(s, trace)
    ensures WillClose(After(s, trace), k, cancelled)
    decreases |trace|
  {
    hide Apply, Enabled, Generations, WillClose;
    if trace == [] {
    } else {
      ClosingStep(s, trace[0], k, cancelled);
      GenerationsKept(s, trace[0]);
      ClosingAlways(Apply(s, trace[0]), trace[1..], k, cancelled);
    }
  }

  /** An answer that is superseded while it is under way is reported as cancelled, last of
      all and whatever happens afterwards, exactly unless the model was done with nothing
      left to be stored; then it is reported as done. */
  lemma SupersededAnswersAreCancelledExactly(before: seq<Action>, a: OtherAction, later: seq<Action>)
    requires Possible(INIT, before) && Answering(After(INIT, before).worker)
    requires Supersedes(a) && OtherEnabled(After(INIT, before), a)
    requires Possible(ApplyOther(After(INIT, before), a), later)
    requires |After(ApplyOther(After(INIT, before), a), later).past| > |After(INIT, before).past|
    ensures var s := After(INIT, before);
            var r := After(ApplyOther(s, a), later).past[|s.past|];
            var n := |r.events|;
            && n >= 2 && r.events[n - 1] == Finished(r.assistantId)
            && (r.events[n - 2] == RunCancelled(r.assistantId) <==> !NothingLeft(s.worker))
            && (r.events[n - 2] == AssistantDone(r.assistantId) <==> NothingLeft(s.worker))
  {
    var s := After(INIT, before);
    InvariantHoldsInitially();
    InvariantAlways(INIT, before);
    InvariantKept(s, ByOthers(a));
    hide Possible, After;
    OthersMoveForward(s, a);
    SupersededStepIsOutdated(s, a);
    var s1 := ApplyOther(s, a);
    hide ApplyOther;
    ClosingAlways(s1, later, |s.past|, !NothingLeft(s.worker));
  }
}
