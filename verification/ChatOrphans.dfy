/** When compaction separates a tool call from its result. */
module ChatOrphans {
  import opened ChatTypes
  import opened Compaction
  import opened ChatMachine
  import opened ChatInvariants
  import opened ChatRounds
  import opened ChatTheorems

  // ---------- any history ----------

  /** `t` is the result of a call that `a` asks for. */
  predicate Answers(t: Message, a: Message) {
    t.role.Tool? && a.role.Assistant? && exists i :: 0 <= i < |a.calls| && a.calls[i].id == t.answers
  }

  /** Compaction keeps the result `t` and drops a message that asked for it. */
  ghost predicate Orphaned(h: seq<Message>, keep: nat, note: Message, t: Message) {
    t in Compacted(h, keep, note) && exists a :: a in Dropped(h, keep) && Answers(t, a)
  }

  /** In the history without its system messages, a call is before the cut and its
      result after it. */
  ghost predicate SpansTheCut(h: seq<Message>, keep: nat) {
    exists i, j :: 0 <= i < Removed(h, keep) <= j < CountNonSystem(h) && Answers(NonSystem(h)[j], NonSystem(h)[i])
  }

  lemma {:induction false} NonSystemMembers(h: seq<Message>, m: Message)
    ensures m in NonSystem(h) <==> m in h && !m.role.System?
  {
    if h == [] {
    } else {
      NonSystemMembers(h[1..], m);
      assert h == [h[0]] + h[1..];
    }
  }

  lemma CutIsInside(h: seq<Message>, keep: nat)
    ensures Removed(h, keep) <= CountNonSystem(h) == |NonSystem(h)|
  {}

  lemma KeptContents(h: seq<Message>, keep: nat, note: Message)
    requires note.role.System?
    ensures NonSystem(Compacted(h, keep, note)) == NonSystem(h)[Removed(h, keep)..]
  {
    if CountNonSystem(h) > keep {
      CompactionKeepsTheRightMessages(h, keep, note);
    }
  }

  lemma KeptResults(h: seq<Message>, keep: nat, note: Message, t: Message)
    requires note.role.System? && t.role.Tool?
    ensures t in Compacted(h, keep, note) <==> t in NonSystem(h)[Removed(h, keep)..]
  {
    hide Compacted, NonSystem, Removed;
    KeptContents(h, keep, note);
    NonSystemMembers(Compacted(h, keep, note), t);
  }

  lemma SplitIsOrphan(h: seq<Message>, keep: nat, note: Message, i: nat, j: nat)
    requires note.role.System?
    requires i < Removed(h, keep) <= j < CountNonSystem(h) && Answers(NonSystem(h)[j], NonSystem(h)[i])
    ensures Orphaned(h, keep, note, NonSystem(h)[j])
  {
    hide Compacted, NonSystem, Dropped;
    var ns, cut := NonSystem(h), Removed(h, keep);
    KeptResults(h, keep, note, ns[j]);
    assert ns[j] == ns[cut..][j - cut];
    DroppedContents(h, keep);
    assert ns[i] == ns[..cut][i];
    assert ns[i] in Dropped(h, keep);
  }

  lemma OrphanIsSplit(h: seq<Message>, keep: nat, note: Message, t: Message)
    requires note.role.System? && Orphaned(h, keep, note, t)
    ensures SpansTheCut(h, keep)
  {
    hide Compacted, NonSystem, Dropped;
    var ns, cut := NonSystem(h), Removed(h, keep);
    var a :| a in Dropped(h, keep) && Answers(t, a);
    KeptResults(h, keep, note, t);
    DroppedContents(h, keep);
    var p :| 0 <= p < |ns[cut..]| && ns[cut..][p] == t;
    var i :| 0 <= i < |ns[..cut]| && ns[..cut][i] == a;
    assert Answers(ns[cut + p], ns[i]);
  }

  /** The settings template says that compaction never splits a tool call from its
      result. For any history, it leaves a result without its call exactly when the
      call is before the cut and the result after it; whatever lies between them, and
      whatever the first kept message is. */
  lemma CompactionSplitsAcrossTheCut(h: seq<Message>, keep: nat, note: Message)
    requires note.role.System?
    ensures (exists t :: Orphaned(h, keep, note, t)) <==> SpansTheCut(h, keep)
  {
    hide Orphaned, Compacted, Dropped, NonSystem, Removed;
    if SpansTheCut(h, keep) {
      var i, j :| 0 <= i < Removed(h, keep) <= j < CountNonSystem(h) && Answers(NonSystem(h)[j], NonSystem(h)[i]);
      SplitIsOrphan(h, keep, note, i, j);
    }
    if t :| Orphaned(h, keep, note, t) {
      OrphanIsSplit(h, keep, note, t);
    }
  }

  /** A history with one tool round in it, and a continuation between call and result. */
  function SplitRound(prompt: string, call: ToolCall, body: string, result: string): seq<Message> {
    [ActiveUserMessage(1, prompt, 0), AssistantToolRound(2, "", [call], 0),
     Continuation(3, body), ToolResultMessage(4, call, result, false, 0)]
  }

  /** Both ways of being split: the result is the oldest message kept, or a
      continuation is. */
  lemma CompactionOrphansAResult(prompt: string, call: ToolCall, body: string, result: string, keep: nat, note: Message)
    requires 1 <= keep <= 2 && note.role.System?
    ensures var h := SplitRound(prompt, call, body, result);
            && Orphaned(h, keep, note, h[3])
            && NonSystem(Compacted(h, keep, note)) == h[4 - keep..]
  {
    hide Orphaned, Compacted, NonSystem, CountNonSystem, Dropped;
    var h := SplitRound(prompt, call, body, result);
    NonSystemOfNonSystem(h);
    assert |NonSystem(h)| == CountNonSystem(h) == 4;
    assert h[1].calls[0].id == h[3].answers;
    KeptContents(h, keep, note);
    SplitIsOrphan(h, keep, note, 1, 3);
  }

  // ---------- one run's messages ----------

  /** The assistant message at `i` is the one that asked for the result at `j`: only
      results lie between. */
  predicate AsksFor(ms: seq<Message>, i: nat, j: nat) {
    i < j < |ms| && ms[i].role.Assistant? && forall q :: i < q <= j ==> ms[q].role.Tool?
  }

  /** Cutting off the first `cut` messages leaves a result behind whose call is gone. */
  ghost predicate SplitsARound(ms: seq<Message>, cut: nat) {
    exists i, j :: 0 <= i < cut <= j < |ms| && AsksFor(ms, i, j)
  }

  lemma ShapeStep(ms: seq<Message>, p: nat)
    requires p < |ms|
    ensures ShapeOf(ms[..p + 1]) == Advance(ShapeOf(ms[..p]), ms[p])
  {
    assert ms[..p + 1] == ms[..p] + [ms[p]];
    ShapeAppend(ms[..p], ms[p]);
  }

  lemma {:induction false} PrefixesAreAccepted(ms: seq<Message>, p: nat)
    requires p <= |ms| && !ShapeOf(ms).Broken?
    ensures !ShapeOf(ms[..p]).Broken?
    decreases |ms| - p
  {
    if p == |ms| {
      assert ms[..p] == ms;
    } else {
      PrefixesAreAccepted(ms, p + 1);
      ShapeStep(ms, p);
    }
  }

  /** A round is open at a point exactly when a result comes next. */
  lemma OpenBeforeResults(ms: seq<Message>, p: nat)
    requires p < |ms| && !ShapeOf(ms).Broken?
    ensures ms[p].role.Tool? <==> ShapeOf(ms[..p]).Open?
  {
    PrefixesAreAccepted(ms, p + 1);
    ShapeStep(ms, p);
    hide ShapeOf;
  }

  /** The open round at `p` was asked for at `i`, and these calls are still to come. */
  predicate IsHead(ms: seq<Message>, i: nat, p: nat, rest: seq<ToolCall>) {
    && i < p <= |ms| && ms[i].role.Assistant? && (forall q :: i < q < p ==> ms[q].role.Tool?)
    && p - i - 1 <= |ms[i].calls| && rest == ms[i].calls[p - i - 1..]
  }

  lemma HeadMoves(ms: seq<Message>, i: nat, p: nat, rest: seq<ToolCall>)
    requires p < |ms| && rest != [] && ms[p].role.Tool? && IsHead(ms, i, p, rest)
    ensures IsHead(ms, i, p + 1, rest[1..])
  {
    var calls := ms[i].calls;
    assert calls[p - i - 1..][1..] == calls[p - i..];
  }

  lemma {:induction false} OpenRoundHasItsHead(ms: seq<Message>, p: nat) returns (i: nat)
    requires p <= |ms| && ShapeOf(ms[..p]).Open?
    ensures IsHead(ms, i, p, ShapeOf(ms[..p]).rest)
  {
    assert p > 0;
    ShapeStep(ms, p - 1);
    hide ShapeOf, IsHead;
    var before := ShapeOf(ms[..p - 1]);
    if before.Open? {
      i := OpenRoundHasItsHead(ms, p - 1);
      HeadMoves(ms, i, p - 1, before.rest);
    } else {
      i := p - 1;
      HeadStarts(ms, i);
    }
  }

  lemma HeadStarts(ms: seq<Message>, i: nat)
    requires i < |ms| && ms[i].role.Assistant?
    ensures IsHead(ms, i, i + 1, ms[i].calls)
  {
    assert ms[i].calls[0..] == ms[i].calls;
  }

  /** Every result answers the call at its place in the message that asked. */
  lemma ResultsFollowTheirCalls(ms: seq<Message>, j: nat) returns (i: nat)
    requires j < |ms| && ms[j].role.Tool? && !ShapeOf(ms).Broken?
    ensures AsksFor(ms, i, j)
    ensures j - i - 1 < |ms[i].calls| && ms[j].answers == ms[i].calls[j - i - 1].id
  {
    OpenBeforeResults(ms, j);
    i := OpenRoundHasItsHead(ms, j);
    PrefixesAreAccepted(ms, j + 1);
    ShapeStep(ms, j);
    hide ShapeOf;
  }

  /** A cut separates a result from its call exactly when it leaves a round open. */
  lemma CutsSplitOpenRounds(ms: seq<Message>, cut: nat)
    requires cut <= |ms| && !ShapeOf(ms).Broken?
    ensures SplitsARound(ms, cut) <==> cut < |ms| && ShapeOf(ms[..cut]).Open?
  {
    if cut < |ms| {
      OpenBeforeResults(ms, cut);
      if ms[cut].role.Tool? {
        var i := ResultsFollowTheirCalls(ms, cut);
      }
      hide ShapeOf;
    }
  }

  // ---------- histories of the engine ----------

  predicate IsSuffix(x: seq<Message>, y: seq<Message>) {
    |x| <= |y| && x == y[|y| - |x|..]
  }

  lemma {:induction false} OfRunConcat(a: seq<Message>, b: seq<Message>, k: nat)
    ensures OfRun(a + b, k) == OfRun(a, k) + OfRun(b, k)
  {
    if b == [] {
      assert a + b == a;
    } else {
      var init, m := b[..|b| - 1], b[|b| - 1];
      assert a + b == (a + init) + [m] && b == init + [m];
      OfRunConcat(a, init, k);
      OfRunAppend(a + init, m, k);
      OfRunAppend(init, m, k);
    }
  }

  /** System messages are nobody's, so a run's messages are among the others. */
  lemma {:induction false} OfRunOfNonSystem(h: seq<Message>, k: nat)
    requires forall m :: m in h && m.origin == FromRun(k) ==> !m.role.System?
    ensures OfRun(NonSystem(h), k) == OfRun(h, k)
  {
    if h == [] {
    } else {
      var init, m := h[..|h| - 1], h[|h| - 1];
      assert h == init + [m];
      OfRunOfNonSystem(init, k);
      NonSystemAppend(init, [m]);
      OfRunAppend(init, m, k);
      assert [m][1..] == [];
      hide OfRun;
      if !m.role.System? {
        OfRunAppend(NonSystem(init), m, k);
      } else {
        assert NonSystem(init) + [] == NonSystem(init);
      }
    }
  }

  lemma {:induction false} OfRunHolds(h: seq<Message>, m: Message, k: nat)
    requires m in h && m.origin == FromRun(k)
    ensures m in OfRun(h, k)
  {
    if m == h[|h| - 1] {
    } else {
      assert h == h[..|h| - 1] + [h[|h| - 1]];
      OfRunHolds(h[..|h| - 1], m, k);
    }
  }

  /** Of what a run has in a history, compaction keeps the end. */
  lemma CompactionKeepsASuffix(h: seq<Message>, keep: nat, note: Message, k: nat)
    requires note.role.System? && note.origin == FromCompaction
    requires forall m :: m in h && m.origin == FromRun(k) ==> !m.role.System?
    ensures IsSuffix(OfRun(Compacted(h, keep, note), k), OfRun(h, k))
  {
    hide Compacted, OfRun, NonSystem, Removed;
    var c, ns, cut := Compacted(h, keep, note), NonSystem(h), Removed(h, keep);
    KeptContents(h, keep, note);
    CompactedMembers(h, keep, note);
    OfRunOfNonSystem(h, k);
    OfRunOfNonSystem(c, k);
    CutIsInside(h, keep);
    assert ns == ns[..cut] + ns[cut..];
    OfRunConcat(ns[..cut], ns[cut..], k);
    assert OfRun(h, k) == OfRun(ns[..cut], k) + OfRun(c, k);
  }

  lemma SuffixOfSuffix(x: seq<Message>, y: seq<Message>, z: seq<Message>)
    requires IsSuffix(x, y) && IsSuffix(y, z)
    ensures IsSuffix(x, z)
  {}

  lemma {:induction false} RolesOfAcceptedMessages(ms: seq<Message>)
    requires !ShapeOf(ms).Broken?
    ensures forall m :: m in ms ==> !m.role.System?
  {
    forall m | m in ms
      ensures !m.role.System?
    {
      var p :| 0 <= p < |ms| && ms[p] == m;
      PrefixesAreAccepted(ms, p + 1);
      ShapeStep(ms, p);
    }
  }

  /** What the history holds of run `k` is the end of what the run appended. */
  ghost predicate EndOfRun(s: State, k: nat) {
    IsRun(s, k) ==> IsSuffix(OfRun(s.history, k), RunAt(s, k).appended)
  }

  lemma RunMessagesAreNotSystem(s: State, k: nat)
    requires Isolated(s) && AllRunsOk(s) && EndOfRun(s, k)
    ensures forall m :: m in s.history && m.origin == FromRun(k) ==> !m.role.System?
  {
    hide ShapeOf, OfRun;
    forall m | m in s.history && m.origin == FromRun(k)
      ensures !m.role.System?
    {
      assert CurrentSource(s, k);
      OfRunHolds(s.history, m, k);
      assert RunOk(RunAt(s, k), k);
      RolesOfAcceptedMessages(RunAt(s, k).appended);
    }
  }

  /** The worker compacts before it appends the prompt, and at no other time. */
  lemma WorkerCompaction(s: State, a: Action) returns (keep: nat, note: Message)
    requires Enabled(s, a) && Quiet(a) && (s.worker.BeforePrompt? || s.worker.Summarizing?)
    ensures note.role.System? && note.origin == FromCompaction
    ensures Apply(s, a).history == s.history || Apply(s, a).history == Compacted(s.history, keep, note)
  {
    hide Compacted, Removed;
    var e := a.entry;
    keep := if s.worker.Summarizing? then s.worker.keep else if e.plan.Truncate? then e.plan.keep else 0;
    note := TruncationNote(Removed(s.history, keep));
    if s.worker.Summarizing? && e.summary.Written? {
      note := SummaryNote(e.summary.text);
    }
  }

  lemma EndOfRunAfterCompaction(h: seq<Message>, h': seq<Message>, keep: nat, note: Message, k: nat, appended: seq<Message>)
    requires h' == h || h' == Compacted(h, keep, note)
    requires note.role.System? && note.origin == FromCompaction
    requires forall m :: m in h && m.origin == FromRun(k) ==> !m.role.System?
    requires IsSuffix(OfRun(h, k), appended)
    ensures IsSuffix(OfRun(h', k), appended)
  {
    hide Compacted, OfRun;
    if h' != h {
      CompactionKeepsASuffix(h, keep, note, k);
      SuffixOfSuffix(OfRun(h', k), OfRun(h, k), appended);
    }
  }

  lemma EndOfRunAfterAppend(h: seq<Message>, m: Message, k: nat, appended: seq<Message>)
    requires IsSuffix(OfRun(h, k), appended)
    ensures IsSuffix(OfRun(h + [m], k), if m.origin == FromRun(k) then appended + [m] else appended)
  {
    OfRunAppend(h, m, k);
    hide OfRun;
  }

  lemma EndOfRunKeptByQuietStep(s: State, a: Action, k: nat)
    requires Generations(s) && Isolated(s) && AllRunsOk(s) && EndOfRun(s, k)
    requires Enabled(s, a) && Quiet(a)
    ensures EndOfRun(Apply(s, a), k)
  {
    hide Compacted, OfRun, Apply, RequestStep, AllRunsOk, CaptureOk, Isolated;
    var s' := Apply(s, a);
    QuietFrame(s, a);
    if IsRun(s', k) {
      assert IsRun(s, k);
      RunMessagesAreNotSystem(s, k);
      if CompactedHistory(s, s') {
        var keep, note := WorkerCompaction(s, a);
        EndOfRunAfterCompaction(s.history, s'.history, keep, note, k, RunAt(s, k).appended);
      } else if s'.history == s.history && s'.run.appended == s.run.appended {
      } else {
        EndOfRunAfterAppend(s.history, s'.history[|s'.history| - 1], k, RunAt(s, k).appended);
      }
    }
  }

  lemma EndOfRunKeptByOthers(s: State, a: OtherAction, k: nat)
    requires Isolated(s) && AllRunsOk(s) && EndOfRun(s, k) && OtherEnabled(s, a)
    ensures EndOfRun(ApplyOther(s, a), k)
  {
    hide Compacted, OfRun, AllRunsOk, Isolated, Removed;
    OthersMoveForward(s, a);
    if IsRun(s, k) {
      RunMessagesAreNotSystem(s, k);
      var appended := RunAt(s, k).appended;
      if a.Inject? {
        EndOfRunAfterAppend(s.history, Continuation(s.nextId, a.body), k, appended);
      } else if a.CompactManually? {
        var note := TruncationNote(Removed(s.history, a.keep));
        EndOfRunAfterCompaction(s.history, Truncated(s.history, a.keep), a.keep, note, k, appended);
      } else if a.ResetClear? {
        OfRunMembers([], k);
      }
    }
  }

  lemma EndOfRunKept(s: State, a: Action, k: nat)
    requires Invariant(s) && EndOfRun(s, k) && Enabled(s, a)
    ensures EndOfRun(Apply(s, a), k)
  {
    hide Compacted, OfRun;
    if Quiet(a) {
      EndOfRunKeptByQuietStep(s, a, k);
    } else if a.ByOthers? {
      EndOfRunKeptByOthers(s, a.other, k);
    } else if a == AtEntry(Pop) && k == |s.past| {
      NothingOfNoRun(s, k);
    }
  }

  lemma NothingOfNoRun(s: State, k: nat)
    requires Isolated(s) && !IsRun(s, k)
    ensures OfRun(s.history, k) == []
  {
    OfRunMembers(s.history, k);
    forall m | m in s.history
      ensures m.origin != FromRun(k)
    {
      if m.origin.FromRun? {
        assert CurrentSource(s, m.origin.run);
      }
    }
  }

  lemma {:induction false} EndOfRunAlways(s: State, trace: seq<Action>, k: nat)
    requires Invariant(s) && EndOfRun(s, k) && Possible(s, trace)
    ensures EndOfRun(After(s, trace), k)
    decreases |trace|
  {
    hide Invariant, EndOfRun;
    if trace == [] {
    } else {
      InvariantKept(s, trace[0]);
      EndOfRunKept(s, trace[0], k);
      EndOfRunAlways(Apply(s, trace[0]), trace[1..], k);
    }
  }

  ghost predicate AllAtEnd(s: State) {
    forall k: nat :: EndOfRun(s, k)
  }

  lemma AllAtEndKept(s: State, a: Action)
    requires Invariant(s) && AllAtEnd(s) && Enabled(s, a)
    ensures AllAtEnd(Apply(s, a))
  {
    hide Invariant, EndOfRun, Apply, Enabled;
    forall k: nat
      ensures EndOfRun(Apply(s, a), k)
    {
      EndOfRunKept(s, a, k);
    }
  }

  /** In every reachable state, however often the history was compacted before, and
      whatever continuations came between: what a compaction leaves of a run is the end
      of what the run appended. It leaves a result without the call that asked for it
      exactly when the part it cut off leaves a tool round open. */
  lemma CompactionSplitsOpenRounds(trace: seq<Action>, k: nat, keep: nat, note: Message)
    requires Possible(INIT, trace) && IsRun(After(INIT, trace), k)
    requires note.role.System? && note.origin == FromCompaction
    ensures var s := After(INIT, trace);
            var ms, kept := RunAt(s, k).appended, OfRun(Compacted(s.history, keep, note), k);
            && IsSuffix(kept, ms)
            && (SplitsARound(ms, |ms| - |kept|) <==> kept != [] && ShapeOf(ms[..|ms| - |kept|]).Open?)
  {
    hide OfRun, Compacted, SplitsARound;
    var s := After(INIT, trace);
    InvariantHoldsInitially();
    InvariantAlways(INIT, trace);
    EndOfRunAlways(INIT, trace, k);
    RunMessagesAreNotSystem(s, k);
    var ms, kept := RunAt(s, k).appended, OfRun(Compacted(s.history, keep, note), k);
    EndOfRunAfterCompaction(s.history, Compacted(s.history, keep, note), keep, note, k, ms);
    assert RunOk(RunAt(s, k), k);
    CutsSplitOpenRounds(ms, |ms| - |kept|);
  }

  // ---------- it does happen ----------

  lemma ToTheFirstRound(prompt: string) returns (trace: seq<Action>, s: State)
    ensures Leads(INIT, trace, s) && s.worker == RoundStart && !Stale(s) && s.active && !s.stopRequested && !s.closing
    ensures s.past == [] && s.pending == [] && s.generation == 0
    ensures s.history == s.run.appended == [ActiveUserMessage(1, prompt, 0)] && s.run.assistantId == 2 && s.nextId == 3
  {
    hide Leads;
    NoSteps(INIT);
    trace, s := [], INIT;
    trace, s := OneMore(INIT, trace, s, ByOthers(Submit(prompt)));
    trace, s := OneMore(INIT, trace, s, AtEntry(Pop));
    trace, s := OneMore(INIT, trace, s, AtEntry(Announce));
    trace, s := OneMore(INIT, trace, s, AtEntry(Capture));
    trace, s := OneMore(INIT, trace, s, AtEntry(Enter(true)));
    trace, s := OneMore(INIT, trace, s, AtEntry(CheckEntry));
    trace, s := OneMore(INIT, trace, s, AtEntry(ChooseCompaction(NoCompaction)));
    trace, s := OneMore(INIT, trace, s, AtEntry(AppendPrompt));
  }

  lemma ToTheTool(prompt: string, call: ToolCall) returns (trace: seq<Action>, s: State)
    ensures Leads(INIT, trace, s) && s.worker == ToolRunning(Round("", [call], map[], false), 0, 3)
    ensures !Stale(s) && s.active && !s.stopRequested && !s.closing && s.past == [] && s.pending == []
    ensures s.generation == 0 && s.run.assistantId == 2 && s.nextId == 4
    ensures s.history == s.run.appended == [ActiveUserMessage(1, prompt, 0), AssistantToolRound(2, "", [call], 0)]
  {
    hide Leads;
    trace, s := ToTheFirstRound(prompt);
    trace, s := OneMore(INIT, trace, s, InRound(BuildRequest));
    trace, s := OneMore(INIT, trace, s, InRound(Receive(ToolCallRequested([call]))));
    trace, s := OneMore(INIT, trace, s, InRound(EndStream));
    trace, s := OneMore(INIT, trace, s, InRound(AppendRound));
    trace, s := OneMore(INIT, trace, s, InTools(StartTool));
  }

  lemma ToTheResult(prompt: string, call: ToolCall, body: string, result: string)
    returns (trace: seq<Action>, s: State)
    ensures Leads(INIT, trace, s) && s.worker == ToolAppended(Round("", [call], map[], false), 0)
    ensures !Stale(s) && s.active && !s.stopRequested && s.past == [] && s.pending == []
    ensures s.history == [ActiveUserMessage(1, prompt, 0), AssistantToolRound(2, "", [call], 0),
                          Continuation(4, body), ToolResultMessage(3, call, result, false, 0)]
  {
    hide Leads;
    trace, s := ToTheTool(prompt, call);
    trace, s := OneMore(INIT, trace, s, InTools(FinishTool(result, false)));
    trace, s := OneMore(INIT, trace, s, ByOthers(Inject(body)));
    trace, s := OneMore(INIT, trace, s, InTools(AppendResult));
  }

  lemma ToTheSecondRound(prompt: string, call: ToolCall, body: string, result: string)
    returns (trace: seq<Action>, s: State)
    ensures Leads(INIT, trace, s) && s.worker == RoundStart && !Stale(s) && s.active && s.past == [] && s.pending == []
    ensures s.history == [ActiveUserMessage(1, prompt, 0), AssistantToolRound(2, "", [call], 0),
                          Continuation(4, body), ToolResultMessage(3, call, result, false, 0)]
  {
    hide Leads;
    trace, s := ToTheResult(prompt, call, body, result);
    trace, s := OneMore(INIT, trace, s, InTools(CheckStopAfterTool));
    trace, s := OneMore(INIT, trace, s, InTools(StartTool));
    trace, s := OneMore(INIT, trace, s, AtEnd(CheckStopAfterRound));
    trace, s := OneMore(INIT, trace, s, AtEnd(CheckGenerationAfterRound));
  }

  lemma ToTheEnd(prompt: string, call: ToolCall, body: string, result: string)
    returns (trace: seq<Action>, s: State)
    ensures Leads(INIT, trace, s) && !s.active && s.pending == []
    ensures s.history == [ActiveUserMessage(1, prompt, 0), AssistantToolRound(2, "", [call], 0),
                          Continuation(4, body), ToolResultMessage(3, call, result, false, 0)]
  {
    hide Leads;
    trace, s := ToTheSecondRound(prompt, call, body, result);
    trace, s := OneMore(INIT, trace, s, InRound(BuildRequest));
    trace, s := OneMore(INIT, trace, s, InRound(EndStream));
    trace, s := OneMore(INIT, trace, s, AtEnd(AppendFinal));
    trace, s := OneMore(INIT, trace, s, AtEnd(Drain));
  }

  /** A conversation of the engine that ends with a result whose call compaction has
      dropped, behind a continuation. */
  lemma SplitRoundsAreReached(prompt: string, call: ToolCall, body: string, result: string)
    returns (trace: seq<Action>, s: State)
    ensures Possible(INIT, trace) && After(INIT, trace) == s
    ensures s.history == [TruncationNote(2), Continuation(4, body), ToolResultMessage(3, call, result, false, 0)]
  {
    hide Possible, After, Compacted, CountNonSystem, NonSystem;
    trace, s := ToTheEnd(prompt, call, body, result);
    var h := s.history;
    trace, s := OneMore(INIT, trace, s, ByOthers(CompactManually(2)));
    NonSystemOfNonSystem(h);
    assert |NonSystem(h)| == CountNonSystem(h) == 4;
    CompactedWithoutSystems(h, 2, TruncationNote(2));
  }
}
