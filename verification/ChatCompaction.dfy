/** When the engine compacts its history, and what it says about it. */
module ChatCompaction {
  import opened Numerals
  import opened ChatTypes
  import opened Compaction
  import opened ChatMachine
  import opened ChatInvariants
  import opened ChatRounds
  import opened ChatEvents
  import opened ChatTheorems
  import opened ChatLog
  import opened ChatCancel

  // ---------- every compaction is announced ----------

  lemma {:induction false} TwoKinds(h: seq<Message>)
    ensures |h| == |Systems(h)| + CountNonSystem(h)
  {
    if h == [] {
    } else {
      TwoKinds(h[1..]);
      FilterCons(h);
    }
  }

  lemma LengthAfterCompaction(h: seq<Message>, keep: nat, note: Message)
    requires note.role.System?
    ensures |Compacted(h, keep, note)| + Removed(h, keep) == |h| + if Removed(h, keep) > 0 then 1 else 0
    ensures Removed(h, keep) == 0 ==> Compacted(h, keep, note) == h
  {
    var c := Compacted(h, keep, note);
    TwoKinds(h);
    TwoKinds(c);
    hide NonSystem, Systems, CountNonSystem, Survivors, LeadingSystem;
    if CountNonSystem(h) > keep {
      CompactionKeepsTheRightMessages(h, keep, note);
    }
  }

  /** The step left the history as it was but for messages at its end, or said how many
      messages are gone, for which one note came. */
  predicate Announced(h: seq<Message>, h': seq<Message>, said: seq<Event>) {
    || (h <= h' && forall e :: e in said ==> !e.HistoryCompacted?)
    || (|said| == 1 && said[0].HistoryCompacted? && said[0].removed > 0 && |h'| + said[0].removed == |h| + 1)
  }

  lemma CompactingIsAnnounced(s: State, keep: nat, note: Message)
    requires note.role.System?
    ensures var s' := CompactNow(s, Compacted(s.history, keep, note), Removed(s.history, keep));
            Announced(s.history, s'.history, Shrinking(Removed(s.history, keep)))
  {
    LengthAfterCompaction(s.history, keep, note);
    hide Compacted, Removed;
  }

  lemma EntryIsAnnounced(s: State, a: EntryAction)
    requires EntryEnabled(s, a)
    ensures Announced(s.history, ApplyEntry(s, a).history, SaidAtEntry(s, a))
  {
    hide Compacted, Removed, CompactNow, Shrinking;
    if a.ChooseCompaction? && a.plan.Truncate? {
      CompactingIsAnnounced(s, a.plan.keep, TruncationNote(Removed(s.history, a.plan.keep)));
      hide Announced;
    } else if a.ReceiveSummary? {
      var keep := s.worker.keep;
      CompactingIsAnnounced(s, keep, TruncationNote(Removed(s.history, keep)));
      if a.summary.Written? {
        CompactingIsAnnounced(s, keep, SummaryNote(a.summary.text));
      }
      hide Announced;
    }
  }

  lemma QuietlyGrowing(h: seq<Message>, h': seq<Message>, said: seq<Event>)
    requires h' == h || (|h'| > 0 && h' == h + [h'[|h'| - 1]])
    requires |said| <= 2 && (|said| > 0 ==> !said[0].HistoryCompacted?) && (|said| > 1 ==> !said[1].HistoryCompacted?)
    ensures Announced(h, h', said)
  {}

  lemma RoundIsAnnounced(s: State, a: RoundAction)
    requires RoundEnabled(s, a)
    ensures Announced(s.history, ApplyRound(s, a).history, SaidInRound(s, a))
  {
    if a.Receive? {
      SinkFrame(s, s.worker.round, a.event);
    }
    hide Announced, Sink;
    QuietlyGrowing(s.history, ApplyRound(s, a).history, SaidInRound(s, a));
  }

  lemma ToolIsAnnounced(s: State, a: ToolAction)
    requires ToolEnabled(s, a)
    ensures Announced(s.history, ApplyTool(s, a).history, SaidInTools(s, a))
  {
    hide Announced, CardOf;
    QuietlyGrowing(s.history, ApplyTool(s, a).history, SaidInTools(s, a));
  }

  lemma EndIsAnnounced(s: State, a: EndAction)
    requires EndEnabled(s, a)
    ensures Announced(s.history, ApplyEnd(s, a).history, SaidAtEnd(s, a))
  {
    hide Announced;
    QuietlyGrowing(s.history, ApplyEnd(s, a).history, SaidAtEnd(s, a));
  }

  /** Whenever the worker takes something out of the history it says so, with the number
      of messages that are gone, one note having come for them; and it says so only then. */
  lemma CompactionsAreAnnounced(s: State, a: Action)
    requires Enabled(s, a) && !a.ByOthers? && a != AtEntry(Pop)
    ensures var s' := Apply(s, a);
            exists said :: s'.run.events == s.run.events + said && Announced(s.history, s'.history, said)
  {
    StepSays(s, a);
    hide ApplyEntry, ApplyRound, ApplyTool, ApplyEnd, SaidAtEntry, SaidInRound, SaidInTools, SaidAtEnd, Announced;
    match a
    case AtEntry(e) => EntryIsAnnounced(s, e);
    case InRound(r) => RoundIsAnnounced(s, r);
    case InTools(t) => ToolIsAnnounced(s, t);
    case AtEnd(e) => EndIsAnnounced(s, e);
  }

  // ---------- summaries ----------

  /** Steps of other threads. */
  predicate ByOthersOnly(trace: seq<Action>) {
    forall a :: a in trace ==> a.ByOthers?
  }

  lemma {:induction false} OthersLeaveTheWorker(s: State, trace: seq<Action>)
    requires Possible(s, trace) && ByOthersOnly(trace)
    ensures After(s, trace).worker == s.worker && After(s, trace).run == s.run
    decreases |trace|
  {
    hide ApplyOther, OtherEnabled;
    if trace == [] {
    } else {
      assert trace[0] in trace;
      OthersMoveForward(s, trace[0].other);
      OthersLeaveTheWorker(Apply(s, trace[0]), trace[1..]);
    }
  }

  lemma ReplacedSlice(h: seq<Message>, keep: nat, note: Message)
    requires note.role.System? && CountNonSystem(h) > keep
    ensures var c, lead := Compacted(h, keep, note), LeadingSystem(h);
            && NonSystem(c) == NonSystem(h)[CountNonSystem(h) - keep..]
            && Systems(c) == h[..lead] + [note] + Systems(h[lead..])
  {
    CompactionKeepsTheRightMessages(h, keep, note);
  }

  /** From `h` to `h'` all but the last `keep` messages that are not system messages gave way
      to the note, which stands behind the leading system messages; if there were not more
      than those, nothing changed. */
  predicate NoteInPlace(h: seq<Message>, h': seq<Message>, keep: nat, note: Message) {
    if CountNonSystem(h) <= keep then h' == h
    else
      && NonSystem(h') == NonSystem(h)[CountNonSystem(h) - keep..]
      && Systems(h') == h[..LeadingSystem(h)] + [note] + Systems(h[LeadingSystem(h)..])
  }

  lemma ReceivedSummary(s: State, keep: nat, summary: Summary)
    requires s.worker == Summarizing(keep)
    ensures var h, h' := s.history, ApplyEntry(s, ReceiveSummary(summary)).history;
            var note := if summary.Written? then SummaryNote(summary.text) else TruncationNote(Removed(h, keep));
            NoteInPlace(h, h', keep, note)
  {
    var h := s.history;
    var note := if summary.Written? then SummaryNote(summary.text) else TruncationNote(Removed(h, keep));
    WrittenNote(s, summary);
    SliceOrNothing(h, keep, note);
    hide *;
  }

  lemma WrittenNote(s: State, summary: Summary)
    requires s.worker.Summarizing?
    ensures var h, keep := s.history, s.worker.keep;
            var note := if summary.Written? then SummaryNote(summary.text) else TruncationNote(Removed(h, keep));
            note.role.System? && ApplyEntry(s, ReceiveSummary(summary)).history == Compacted(h, keep, note)
  {
    hide Removed, Compacted;
  }

  lemma SliceOrNothing(h: seq<Message>, keep: nat, note: Message)
    requires note.role.System?
    ensures NoteInPlace(h, Compacted(h, keep, note), keep, note)
  {
    if CountNonSystem(h) > keep {
      ReplacedSlice(h, keep, note);
    }
    hide NonSystem, Systems, CountNonSystem, LeadingSystem;
  }

  /** What a summary is, from its choice to its end, whatever other threads do while the
      model writes it. The model is asked exactly if there is more to keep than `keep`.
      Then its text comes into the history behind the leading system messages, in place of
      all but the last `keep` of the others there are by then; if it fails, the note of a
      truncation does. */
  lemma SummariesComeOfTheirChoice(s: State, keep: nat, others: seq<Action>, summary: Summary)
    requires s.worker.BeforePrompt?
    requires Possible(ApplyEntry(s, ChooseCompaction(Summarize(keep))), others) && ByOthersOnly(others)
    ensures var s1 := ApplyEntry(s, ChooseCompaction(Summarize(keep)));
            var s2 := After(s1, others);
            && s1.history == s.history
            && (CountNonSystem(s.history) <= keep ==> s2.worker.ReadyToAppend?)
            && (CountNonSystem(s.history) > keep ==>
                  && EntryEnabled(s2, ReceiveSummary(summary))
                  && var h, h' := s2.history, ApplyEntry(s2, ReceiveSummary(summary)).history;
                     var note := if summary.Written? then SummaryNote(summary.text) else TruncationNote(Removed(h, keep));
                     NoteInPlace(h, h', keep, note))
  {
    hide Possible, After, CountNonSystem, NoteInPlace, SummaryNote, TruncationNote, ApplyEntry, Removed, ByOthersOnly;
    var s1 := ApplyEntry(s, ChooseCompaction(Summarize(keep)));
    OthersLeaveTheWorker(s1, others);
    ChosenSummary(s, keep);
    if CountNonSystem(s.history) > keep {
      ReceivedSummary(After(s1, others), keep, summary);
    }
  }

  lemma ChosenSummary(s: State, keep: nat)
    requires s.worker.BeforePrompt?
    ensures var s1 := ApplyEntry(s, ChooseCompaction(Summarize(keep)));
            s1.history == s.history
            && s1.worker == if CountNonSystem(s.history) <= keep then ReadyToAppend else Summarizing(keep)
  {
    hide CountNonSystem;
  }

  /** What the notes say can be read off them: the number of messages a truncation took
      out, and the text of a summary. */
  lemma NotesCanBeReadBack(removed: nat, text: string)
    ensures var note := TruncationNote(removed).content;
            exists before, digits, after :: note == before + digits + after && AllDigits(digits) && FromDecimal(digits) == removed
                                            && before == "[Earlier conversation compacted. " && after == " messages removed.]"
    ensures var note := SummaryNote(text).content; |text| <= |note| && note[|note| - |text|..] == text
  {
    DecimalRoundTrip(removed);
    hide ToDecimal, FromDecimal;
    var before, after := "[Earlier conversation compacted. ", " messages removed.]";
    assert TruncationNote(removed).content == before + ToDecimal(removed) + after;
  }

  // ---------- a compaction on request ----------

  /** A compaction the user asks for leaves the last `keep` messages that are not system
      messages if nothing is going on, and leaves everything otherwise; asked for twice it
      does what it does once. */
  lemma CompactionOnRequest(s: State, keep: nat)
    ensures var s' := ApplyOther(s, CompactManually(keep));
            && (s.active || s.pending != [] ==> s' == s)
            && (!s.active && s.pending == [] ==>
                  && NonSystem(s'.history) == NonSystem(s.history)[Removed(s.history, keep)..]
                  && CountNonSystem(s'.history) <= keep
                  && s' == s.(history := s'.history))
            && ApplyOther(s', CompactManually(keep)) == s'
  {
    hide NonSystem, Systems, CountNonSystem, Survivors, LeadingSystem;
    var h, note := s.history, TruncationNote(Removed(s.history, keep));
    if CountNonSystem(h) > keep {
      CompactionKeepsTheRightMessages(h, keep, note);
    }
    var c := Truncated(h, keep);
    CompactionIsStable(h, keep, note, TruncationNote(Removed(c, keep)));
  }

  // ---------- after a cancellation ----------

  predicate NoCompactionIn(es: seq<Event>) {
    forall e :: e in es ==> !e.HistoryCompacted?
  }

  /** From `r` to `r'` nothing was compacted for the run. */
  predicate CompactedNothing(r: Run, r': Run) {
    r.events <= r'.events && NoCompactionIn(r'.events[|r.events|..])
  }

  /** Run `k` is out of date and past the compaction, or not yet at it. */
  predicate Beside(s: State, k: nat) {
    Outdated(s, k) && (k == |s.past| ==> !s.worker.BeforePrompt? && !s.worker.Summarizing?)
  }

  lemma BesideSays(s: State, a: Action)
    requires Enabled(s, a) && Quiet(a) && HasCaptured(s.worker) && Stale(s)
    requires !s.worker.BeforePrompt? && !s.worker.Summarizing?
    ensures NoCompactionIn(SaidBy(s, a))
    ensures !Apply(s, a).worker.BeforePrompt? && !Apply(s, a).worker.Summarizing?
  {
    if a.AtEntry? {
      BesideEntry(s, a);
    }
    if Early(Apply(s, a).worker) {
      EarlyPhase(s, a);
    }
    hide Apply, Removed;
  }

  lemma BesideEntry(s: State, a: Action)
    requires Enabled(s, a) && Stale(s) && !s.worker.BeforePrompt? && !s.worker.Summarizing? && a.AtEntry?
    ensures !Apply(s, a).worker.BeforePrompt? && !Apply(s, a).worker.Summarizing?
  {}

  lemma NothingCompacted(es: seq<Event>, more: seq<Event>)
    requires NoCompactionIn(more)
    ensures es <= es + more && NoCompactionIn((es + more)[|es|..])
  {
    assert (es + more)[|es|..] == more;
  }

  lemma BesideStep(s: State, a: Action, k: nat)
    requires Generations(s) && Beside(s, k) && Enabled(s, a)
    ensures Beside(Apply(s, a), k) && CompactedNothing(RunAt(s, k), RunAt(Apply(s, a), k))
  {
    OutdatedStep(s, a, k);
    NothingCompacted(RunAt(s, k).events, []);
    assert RunAt(s, k).events + [] == RunAt(s, k).events;
    if Quiet(a) {
      QuietFrame(s, a);
      if k == |s.past| {
        StepSays(s, a);
        BesideSays(s, a);
        NothingCompacted(s.run.events, SaidBy(s, a));
      }
      hide Apply, SaidBy;
    } else if a.ByOthers? {
      OthersMoveForward(s, a.other);
      hide ApplyOther;
    }
  }

  lemma StillNothing(r: Run, r': Run, r'': Run)
    requires CompactedNothing(r, r') && CompactedNothing(r', r'')
    ensures CompactedNothing(r, r'')
  {
    var es, es', es'' := r.events, r'.events, r''.events;
    assert es''[|es|..] == es'[|es|..] + es''[|es'|..];
  }

  lemma {:induction false} BesideCompactsNothing(s: State, trace: seq<Action>, k: nat)
    requires Generations(s) && Beside(s, k) && Possible(s, trace)
    ensures IsRun(After(s, trace), k) && CompactedNothing(RunAt(s, k), RunAt(After(s, trace), k))
    decreases |trace|
  {
    hide Apply, Enabled, Generations, Outdated, CompactedNothing;
    assert IsRun(s, k) by {
      BesideIsRun(s, k);
    }
    if trace == [] {
      NothingSoFar(RunAt(s, k));
    } else {
      var s' := Apply(s, trace[0]);
      BesideStep(s, trace[0], k);
      BesideIsRun(s', k);
      GenerationsKept(s, trace[0]);
      BesideCompactsNothing(s', trace[1..], k);
      StillNothing(RunAt(s, k), RunAt(s', k), RunAt(After(s, trace), k));
    }
  }

  lemma BesideIsRun(s: State, k: nat)
    requires Beside(s, k)
    ensures IsRun(s, k)
  {}

  lemma NothingSoFar(r: Run)
    ensures CompactedNothing(r, r)
  {
    assert r.events[|r.events|..] == [];
  }

  /** Continuations make the history as long as one likes. */
  lemma {:induction false} ToALongHistory(s: State, n: nat) returns (trace: seq<Action>, s': State)
    requires s.active
    ensures Leads(s, trace, s') && CountNonSystem(s'.history) >= n
    ensures s'.worker == s.worker && s'.run == s.run && s'.past == s.past && s'.active
    decreases n
  {
    hide Leads, CountNonSystem;
    if n == 0 {
      NoSteps(s);
      trace, s' := [], s;
    } else {
      var s1: State;
      trace, s1 := ToALongHistory(s, n - 1);
      OneLonger(s1.history, Continuation(s1.nextId, ""));
      trace, s' := OneMore(s, trace, s1, ByOthers(Inject("")));
    }
  }

  lemma OneLonger(h: seq<Message>, m: Message)
    requires !m.role.System?
    ensures CountNonSystem(h + [m]) == CountNonSystem(h) + 1
  {
    CountAppend(h, [m]);
  }

  lemma CompactionIsSaid(s: State, a: EntryAction, keep: nat)
    requires EntryEnabled(s, a) && CountNonSystem(s.history) > keep
    requires a == ChooseCompaction(Truncate(keep)) || (a.ReceiveSummary? && s.worker.keep == keep)
    ensures !CompactedNothing(s.run, ApplyEntry(s, a).run) && ApplyEntry(s, a).past == s.past
    ensures !ApplyEntry(s, a).worker.Idle?
  {
    EntrySays(s, a);
    EntryFrame(s, a);
    hide ApplyEntry, CountNonSystem, QuietStep;
    var n := Removed(s.history, keep);
    var es := s.run.events;
    assert (es + [HistoryCompacted(n)])[|es|..] == [HistoryCompacted(n)];
    assert !NoCompactionIn([HistoryCompacted(n)]) by {
      assert HistoryCompacted(n) in [HistoryCompacted(n)];
    }
    QuietStepKeepsPast(s, ApplyEntry(s, a));
  }

  lemma QuietStepKeepsPast(s: State, s': State)
    requires QuietStep(s, s')
    ensures s'.past == s.past && !s'.worker.Idle?
  {}

  ghost predicate CompactsAgain(s: State, k: nat)
    requires IsRun(s, k)
  {
    exists trace :: Possible(s, trace) && IsRun(After(s, trace), k)
                    && !CompactedNothing(RunAt(s, k), RunAt(After(s, trace), k))
  }

  lemma TheCompactionComes(s: State)
    requires (s.worker.BeforePrompt? || s.worker.Summarizing?) && s.active
    ensures IsRun(s, |s.past|) && CompactsAgain(s, |s.past|)
  {
    var keep := if s.worker.Summarizing? then s.worker.keep else 0;
    var a := if s.worker.Summarizing? then ReceiveSummary(Failed("")) else ChooseCompaction(Truncate(0));
    var trace, s1 := ToALongHistory(s, keep + 1);
    CompactionIsSaid(s1, a, keep);
    hide ApplyEntry, CountNonSystem, CompactedNothing, Possible, After;
    var trace', s' := OneMore(s, trace, s1, AtEntry(a));
    assert Possible(s, trace') && After(s, trace') == s';
  }

  /** A prompt that is superseded when its generation had been read still has the history
      compacted for it, in some continuation, exactly if it had come to the choice of the
      compaction and not beyond the end of it. Before that it leaves without touching the
      history. */
  lemma SupersededPromptsCompactExactly(trace: seq<Action>, a: OtherAction)
    requires Possible(INIT, trace) && After(INIT, trace).active && HasCaptured(After(INIT, trace).worker)
    requires Supersedes(a) && OtherEnabled(After(INIT, trace), a)
    ensures var s := After(INIT, trace);
            && IsRun(ApplyOther(s, a), |s.past|)
            && (CompactsAgain(ApplyOther(s, a), |s.past|) <==> s.worker.BeforePrompt? || s.worker.Summarizing?)
  {
    var s := After(INIT, trace);
    InvariantHoldsInitially();
    InvariantAlways(INIT, trace);
    InvariantKept(s, ByOthers(a));
    hide Possible, After;
    OthersMoveForward(s, a);
    SupersededStepIsOutdated(s, a);
    var s1, k := ApplyOther(s, a), |s.past|;
    hide ApplyOther, CompactedNothing, Isolated, Projected, RoundsOk, AllRunsOk, EventsOk, PastEnded;
    if s.worker.BeforePrompt? || s.worker.Summarizing? {
      TheCompactionComes(s1);
    } else {
      assert Beside(s1, k);
      hide Outdated;
      if later :| Possible(s1, later) && IsRun(After(s1, later), k)
                  && !CompactedNothing(RunAt(s1, k), RunAt(After(s1, later), k)) {
        BesideCompactsNothing(s1, later, k);
        assert false;
      }
    }
  }
}
