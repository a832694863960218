/** What every step of the chat engine keeps. */
module ChatInvariants {
  import opened ChatTypes
  import opened Compaction
  import opened ChatMachine

  // ---------- messages of one run ----------

  /** The messages of a history that run `k` appended. */
  function OfRun(h: seq<Message>, k: nat): seq<Message> {
    if h == [] then []
    else OfRun(h[..|h| - 1], k) + (if h[|h| - 1].origin == FromRun(k) then [h[|h| - 1]] else [])
  }

  lemma OfRunAppend(h: seq<Message>, m: Message, k: nat)
    ensures OfRun(h + [m], k) == OfRun(h, k) + (if m.origin == FromRun(k) then [m] else [])
  {
    assert (h + [m])[..|h|] == h;
  }

  lemma {:induction false} OfRunMembers(h: seq<Message>, k: nat)
    ensures OfRun(h, k) == [] <==> forall m :: m in h ==> m.origin != FromRun(k)
  {
    if h == [] {
    } else {
      var t, m := h[..|h| - 1], h[|h| - 1];
      OfRunMembers(t, k);
      assert h == t + [m];
    }
  }

  lemma CompactedMembers(h: seq<Message>, keep: nat, note: Message)
    ensures forall m :: m in Compacted(h, keep, note) ==> m in h || m == note
  {
    SurvivorsAreMembers(h[LeadingSystem(h)..], keep);
  }

  // ---------- what a step may touch ----------

  /** Steps that neither begin nor end a run nor read its generation. */
  predicate Quiet(a: Action) {
    match a
    case ByOthers(_) => false
    case AtEntry(e) => !e.Pop? && !e.Capture?
    case InRound(_) => true
    case InTools(_) => true
    case AtEnd(e) => !e.Drain?
  }

  predicate SameShared(s: State, s': State) {
    && s'.generation == s.generation && s'.epoch == s.epoch
    && s'.active == s.active && s'.stopRequested == s.stopRequested
    && s'.past == s.past
  }

  predicate SameRun(r: Run, r': Run) {
    r' == r.(assistantId := r'.assistantId, appended := r'.appended, events := r'.events, requests := r'.requests)
  }

  predicate SameProgress(w: Worker, w': Worker) {
    !w.Idle? && !w'.Idle? && HasCaptured(w) == HasCaptured(w')
  }

  /** The run appended `m`, to the history and to its record, under a current generation. */
  predicate Appended(s: State, s': State, m: Message) {
    && HasCaptured(s.worker) && !Stale(s) && m.origin == FromRun(|s.past|)
    && s'.history == s.history + [m] && s'.run.appended == s.run.appended + [m]
  }

  /** The history was compacted, before the run appended anything. */
  predicate CompactedHistory(s: State, s': State) {
    && (s.worker.BeforePrompt? || s.worker.Summarizing?)
    && s'.run.appended == s.run.appended
    && forall m :: m in s'.history ==> m in s.history || m.origin == FromCompaction
  }

  predicate HistoryStep(s: State, s': State) {
    || (s'.history == s.history && s'.run.appended == s.run.appended)
    || CompactedHistory(s, s')
    || (s'.history != [] && Appended(s, s', s'.history[|s'.history| - 1]))
  }

  /** A request is only ever built from the history as it is, between rounds. */
  predicate RequestStep(s: State, s': State) {
    || s'.run.requests == s.run.requests
    || (s.worker.RoundStart? && !Stale(s) && s'.run.appended == s.run.appended
        && s'.run.requests == s.run.requests + [Request(s.history, |s.run.appended|)])
  }

  predicate QuietStep(s: State, s': State) {
    && SameShared(s, s') && SameRun(s.run, s'.run) && SameProgress(s.worker, s'.worker)
    && HistoryStep(s, s') && RequestStep(s, s')
  }

  lemma SinkFrame(s: State, round: Round, e: ProviderEvent)
    requires s.worker == Streaming(round)
    ensures var s' := Sink(s, round, e);
            && s'.worker.Streaming?
            && s' == s.(worker := s'.worker, nextId := s'.nextId, run := s.run.(events := s'.run.events))
  {}

  lemma CompactNowWorker(s: State, h: seq<Message>, removed: nat)
    ensures var s' := CompactNow(s, h, removed);
            && s'.worker == ReadyToAppend
            && s' == s.(worker := ReadyToAppend, history := h, run := s.run.(events := s'.run.events))
  {}

  lemma CompactNowFrame(s: State, keep: nat, note: Message)
    requires (s.worker.BeforePrompt? || s.worker.Summarizing?) && note.origin == FromCompaction
    ensures QuietStep(s, CompactNow(s, Compacted(s.history, keep, note), Removed(s.history, keep)))
  {
    CompactNowWorker(s, Compacted(s.history, keep, note), Removed(s.history, keep));
    CompactedMembers(s.history, keep, note);
    hide Compacted, Removed;
  }

  lemma ChoiceFrame(s: State, plan: CompactionPlan)
    requires EntryEnabled(s, ChooseCompaction(plan))
    ensures QuietStep(s, ApplyEntry(s, ChooseCompaction(plan)))
  {
    hide Compacted, Removed, CompactNow;
    if plan.Truncate? {
      CompactNowFrame(s, plan.keep, TruncationNote(Removed(s.history, plan.keep)));
      hide QuietStep;
    }
  }

  lemma SummaryFrame(s: State, summary: Summary)
    requires EntryEnabled(s, ReceiveSummary(summary))
    ensures QuietStep(s, ApplyEntry(s, ReceiveSummary(summary)))
  {
    hide Compacted, Removed, CompactNow, QuietStep;
    CompactNowFrame(s, s.worker.keep, TruncationNote(Removed(s.history, s.worker.keep)));
    if summary.Written? {
      CompactNowFrame(s, s.worker.keep, SummaryNote(summary.text));
    }
  }

  lemma AppendPromptFrame(s: State)
    requires EntryEnabled(s, AppendPrompt)
    ensures QuietStep(s, ApplyEntry(s, AppendPrompt))
  {
    hide Compacted, Removed, Truncated, CompactNow;
  }

  lemma EntryFrame(s: State, a: EntryAction)
    requires EntryEnabled(s, a) && !a.Pop? && !a.Capture?
    ensures QuietStep(s, ApplyEntry(s, a))
  {
    hide Compacted, Removed, Truncated, CompactNow;
    match a
    case ChooseCompaction(plan) => ChoiceFrame(s, plan);
    case ReceiveSummary(summary) => SummaryFrame(s, summary);
    case AppendPrompt => AppendPromptFrame(s);
    case _ =>
  }

  lemma CancelFrame(s: State)
    requires !s.worker.Idle? && HasCaptured(s.worker)
    ensures QuietStep(s, CancelRun(s))
    ensures CancelRun(s).worker == Returned && CancelRun(s).run.appended == s.run.appended
  {}

  lemma ReceiveFrame(s: State, e: ProviderEvent)
    requires s.worker.Streaming?
    ensures QuietStep(s, Sink(s, s.worker.round, e))
  {
    SinkFrame(s, s.worker.round, e);
    hide Sink;
  }

  lemma RoundFrame(s: State, a: RoundAction)
    requires RoundEnabled(s, a)
    ensures QuietStep(s, ApplyRound(s, a))
  {
    CancelFrame(s);
    if a.Receive? {
      ReceiveFrame(s, a.event);
    }
    hide Sink, CancelRun;
  }

  lemma AppendResultFrame(s: State)
    requires ToolEnabled(s, AppendResult)
    ensures QuietStep(s, ApplyTool(s, AppendResult))
  {}

  lemma StartToolFrame(s: State)
    requires ToolEnabled(s, StartTool)
    ensures QuietStep(s, ApplyTool(s, StartTool))
  {}

  lemma ToolFrame(s: State, a: ToolAction)
    requires ToolEnabled(s, a)
    ensures QuietStep(s, ApplyTool(s, a))
  {
    if a.AppendResult? {
      AppendResultFrame(s);
      hide QuietStep;
    } else if a.StartTool? {
      StartToolFrame(s);
      hide QuietStep;
    }
  }

  lemma EndFrame(s: State, a: EndAction)
    requires EndEnabled(s, a) && !a.Drain?
    ensures QuietStep(s, ApplyEnd(s, a))
  {
    CancelFrame(s);
    hide CancelRun;
  }

  lemma QuietFrame(s: State, a: Action)
    requires Enabled(s, a) && Quiet(a)
    ensures QuietStep(s, Apply(s, a))
  {
    hide ApplyEntry, ApplyRound, ApplyTool, ApplyEnd, QuietStep;
    match a
    case AtEntry(e) => EntryFrame(s, e);
    case InRound(r) => RoundFrame(s, r);
    case InTools(t) => ToolFrame(s, t);
    case AtEnd(e) => EndFrame(s, e);
  }

  // ---------- generations and epochs ----------

  predicate CaptureOk(s: State, r: Run) {
    r.captured && r.epoch <= s.epoch && r.generation <= s.generation
    && (r.epoch < s.epoch ==> r.generation < s.generation)
  }

  ghost predicate Generations(s: State) {
    && (s.active <==> !s.worker.Idle?)
    && (s.stopRequested ==> s.active)
    && (HasCaptured(s.worker) ==> CaptureOk(s, s.run))
    && (!s.worker.Idle? && !HasCaptured(s.worker) ==> !s.run.captured && s.run.appended == [])
    && forall k :: 0 <= k < |s.past| ==> CaptureOk(s, s.past[k])
  }

  /** Counters never go back, and a clear always comes with a new generation. */
  predicate Later(s: State, s': State) {
    && s.generation <= s'.generation && s.epoch <= s'.epoch
    && (s.epoch < s'.epoch ==> s.generation < s'.generation)
    && s.past <= s'.past
  }

  lemma OthersMoveForward(s: State, a: OtherAction)
    requires OtherEnabled(s, a)
    ensures var s' := ApplyOther(s, a);
            Later(s, s') && s'.past == s.past && s'.run == s.run && s'.worker == s.worker && s'.active == s.active
            && (s.stopRequested ==> s'.stopRequested) && (s'.stopRequested ==> s.stopRequested || s.active)
  {
    hide Truncated;
  }

  lemma GenerationsKept(s: State, a: Action)
    requires Generations(s) && Enabled(s, a)
    ensures Generations(Apply(s, a)) && Later(s, Apply(s, a))
  {
    if Quiet(a) {
      QuietFrame(s, a);
      hide Apply, HistoryStep;
    } else if a.ByOthers? {
      OthersMoveForward(s, a.other);
      hide ApplyOther;
    }
  }

  // ---------- whose messages are in the history ----------

  /** Run `k` took its generation after the latest clear. */
  predicate CurrentSource(s: State, k: nat) {
    IsRun(s, k) && RunAt(s, k).captured && RunAt(s, k).epoch == s.epoch
  }

  ghost predicate Isolated(s: State) {
    forall m :: m in s.history && m.origin.FromRun? ==> CurrentSource(s, m.origin.run)
  }

  /** While its generation is current, what the history holds of the running prompt
      is everything the run appended. */
  predicate Projected(s: State) {
    && (Early(s.worker) ==> s.run.appended == [])
    && (HasCaptured(s.worker) && !Stale(s) ==> OfRun(s.history, |s.past|) == s.run.appended)
  }

  lemma IsolatedKeptByQuietStep(s: State, s': State)
    requires Generations(s) && Isolated(s) && QuietStep(s, s')
    ensures Isolated(s')
  {
    forall m | m in s'.history && m.origin.FromRun?
      ensures CurrentSource(s', m.origin.run)
    {
      if m in s.history {
        assert CurrentSource(s, m.origin.run);
      }
    }
  }

  lemma IsolatedKeptByOthers(s: State, a: OtherAction)
    requires Isolated(s) && OtherEnabled(s, a)
    ensures Isolated(ApplyOther(s, a))
  {
    var s' := ApplyOther(s, a);
    OthersMoveForward(s, a);
    if a.CompactManually? {
      CompactedMembers(s.history, a.keep, TruncationNote(Removed(s.history, a.keep)));
    }
    forall m | m in s'.history && m.origin.FromRun?
      ensures CurrentSource(s', m.origin.run)
    {
      assert m in s.history;
      assert CurrentSource(s, m.origin.run);
    }
  }

  lemma IsolatedKept(s: State, a: Action)
    requires Generations(s) && Isolated(s) && Enabled(s, a)
    ensures Isolated(Apply(s, a))
  {
    if Quiet(a) {
      QuietFrame(s, a);
      IsolatedKeptByQuietStep(s, Apply(s, a));
    } else if a.ByOthers? {
      IsolatedKeptByOthers(s, a.other);
    } else {
      var s' := Apply(s, a);
      forall m | m in s'.history && m.origin.FromRun?
        ensures CurrentSource(s', m.origin.run)
      {
        assert CurrentSource(s, m.origin.run);
      }
    }
  }

  lemma NothingOfUncapturedRun(s: State)
    requires Isolated(s) && !s.worker.Idle? && !s.run.captured
    ensures OfRun(s.history, |s.past|) == []
  {
    OfRunMembers(s.history, |s.past|);
    forall m | m in s.history
      ensures m.origin != FromRun(|s.past|)
    {
      if m.origin.FromRun? {
        assert CurrentSource(s, m.origin.run);
      }
    }
  }

  lemma ProjectedKeptByQuietStep(s: State, s': State)
    requires Generations(s) && Projected(s) && QuietStep(s, s')
    ensures HasCaptured(s'.worker) && !Stale(s') ==> OfRun(s'.history, |s'.past|) == s'.run.appended
  {
    var k := |s.past|;
    if s'.history != [] && Appended(s, s', s'.history[|s'.history| - 1]) {
      OfRunAppend(s.history, s'.history[|s.history|], k);
    } else if CompactedHistory(s, s') {
      OfRunMembers(s.history, k);
      OfRunMembers(s'.history, k);
    }
  }

  lemma ProjectedKeptByOthers(s: State, a: OtherAction)
    requires Generations(s) && Projected(s) && OtherEnabled(s, a)
    ensures Projected(ApplyOther(s, a))
  {
    hide Truncated;
    if a.Inject? {
      OfRunAppend(s.history, Continuation(s.nextId, a.body), |s.past|);
    }
  }

  lemma EarlyStepsAppendNothing(s: State, a: EntryAction)
    requires EntryEnabled(s, a) && !a.AppendPrompt? && !a.Pop?
    ensures ApplyEntry(s, a).run.appended == s.run.appended
  {
    hide Compacted, Removed, Truncated, CompactNow;
    if a.ChooseCompaction? && a.plan.Truncate? {
      CompactNowWorker(s, Truncated(s.history, a.plan.keep), Removed(s.history, a.plan.keep));
    } else if a.ReceiveSummary? {
      CompactNowWorker(s, Truncated(s.history, s.worker.keep), Removed(s.history, s.worker.keep));
      if a.summary.Written? {
        CompactNowWorker(s, Compacted(s.history, s.worker.keep, SummaryNote(a.summary.text)),
                         Removed(s.history, s.worker.keep));
      }
    }
  }

  lemma ProjectedKept(s: State, a: Action)
    requires Generations(s) && Isolated(s) && Projected(s) && Enabled(s, a)
    ensures Projected(Apply(s, a))
  {
    if Quiet(a) {
      QuietFrame(s, a);
      ProjectedKeptByQuietStep(s, Apply(s, a));
      if a.AtEntry? && !a.entry.AppendPrompt? {
        EarlyStepsAppendNothing(s, a.entry);
      }
      if Early(Apply(s, a).worker) {
        EarlyPhase(s, a);
      }
      hide Apply, QuietStep;
    } else if a.ByOthers? {
      ProjectedKeptByOthers(s, a.other);
    } else if a == AtEntry(Capture) {
      NothingOfUncapturedRun(s);
    }
  }

  predicate Early(w: Worker) {
    w.Captured? || w.Entered? || w.BeforePrompt? || w.Summarizing? || w.ReadyToAppend?
  }

  lemma EntryPhase(s: State, a: EntryAction)
    requires EntryEnabled(s, a) && !a.Pop? && !a.Capture? && Early(ApplyEntry(s, a).worker)
    ensures !a.AppendPrompt? && Early(s.worker)
  {
    hide Compacted, Removed, Truncated, CompactNow;
  }

  lemma RoundPhase(s: State, a: RoundAction)
    requires RoundEnabled(s, a)
    ensures !Early(ApplyRound(s, a).worker)
  {
    hide Sink;
    if a.Receive? {
      SinkFrame(s, s.worker.round, a.event);
    }
  }

  lemma ToolPhase(s: State, a: ToolAction)
    requires ToolEnabled(s, a)
    ensures !Early(ApplyTool(s, a).worker)
  {}

  lemma EndPhase(s: State, a: EndAction)
    requires EndEnabled(s, a)
    ensures !Early(ApplyEnd(s, a).worker)
  {}

  /** The phase before the prompt is appended is entered at its start only. */
  lemma EarlyPhase(s: State, a: Action)
    requires Enabled(s, a) && Quiet(a) && Early(Apply(s, a).worker)
    ensures a.AtEntry? && !a.entry.AppendPrompt? && Early(s.worker)
  {
    hide ApplyEntry, ApplyRound, ApplyTool, ApplyEnd;
    match a
    case AtEntry(e) => EntryPhase(s, e);
    case InRound(r) => RoundPhase(s, r);
    case InTools(t) => ToolPhase(s, t);
    case AtEnd(e) => EndPhase(s, e);
  }
}
