/** What can come between a tool call and its result in the history. */
module ChatOrder {
  import opened ChatTypes
  import opened Compaction
  import opened ChatMachine
  import opened ChatInvariants
  import opened ChatRounds
  import opened ChatEvents
  import opened ChatTheorems
  import opened ChatOrphans

  // ---------- runs stay together ----------

  /** System messages come before all others. */
  predicate SystemsFirst(h: seq<Message>) {
    forall i, j :: 0 <= i < j < |h| && h[j].role.System? ==> h[i].role.System?
  }

  /** A message that may stand between two messages of run `k`. */
  predicate OfRunOrSubAgent(m: Message, k: nat) {
    m.origin == FromRun(k) || m.origin == FromSubAgent
  }

  /** Between two messages of run `k` there are only messages of the run and continuations. */
  predicate Together(h: seq<Message>, k: nat) {
    forall i, j, l :: 0 <= i < j < l < |h| && h[i].origin == FromRun(k) && h[l].origin == FromRun(k) ==>
      OfRunOrSubAgent(h[j], k)
  }

  /** Behind a message of run `k` there are only messages of the run and continuations. */
  predicate AtTheEnd(h: seq<Message>, k: nat) {
    forall i, j :: 0 <= i < j < |h| && h[i].origin == FromRun(k) ==> OfRunOrSubAgent(h[j], k)
  }

  lemma EndIsTogether(h: seq<Message>, k: nat)
    requires AtTheEnd(h, k)
    ensures Together(h, k)
  {}

  lemma SurvivorsOfNonSystem(h: seq<Message>, keep: nat)
    requires |h| > keep && forall m :: m in h ==> !m.role.System?
    ensures Survivors(h, keep) == h[|h| - keep..]
  {
    hide Survivors, CountNonSystem, NonSystem;
    NonSystemOfNonSystem(h);
    assert CountNonSystem(h) == |NonSystem(h)|;
    SurvivorsContents(h, keep);
    SurvivorsAreMembers(h, keep);
    NonSystemOfNonSystem(Survivors(h, keep));
  }

  lemma TailIsNotSystem(h: seq<Message>)
    requires SystemsFirst(h)
    ensures forall m :: m in h[LeadingSystem(h)..] ==> !m.role.System?
    ensures forall i :: 0 <= i < LeadingSystem(h) ==> h[i].role.System?
  {
    LeadingSystemIsMaximal(h);
    hide LeadingSystem;
    var lead := LeadingSystem(h);
    forall m | m in h[lead..]
      ensures !m.role.System?
    {
      var i :| 0 <= i < |h[lead..]| && h[lead..][i] == m;
      assert h[lead + i] == m;
    }
  }

  lemma EndOfTail(h: seq<Message>, lead: nat, keep: nat)
    requires lead <= |h| && keep <= |h| - lead
    ensures h[lead..][|h[lead..]| - keep..] == h[|h| - keep..]
  {}

  /** With the system messages in front, compaction leaves them, a note and the end. */
  lemma CompactedIsFrontAndEnd(h: seq<Message>, keep: nat, note: Message)
    requires SystemsFirst(h) && CountNonSystem(h) > keep
    ensures keep <= |h| - LeadingSystem(h)
    ensures Compacted(h, keep, note) == h[..LeadingSystem(h)] + [note] + h[|h| - keep..]
    ensures forall i :: 0 <= i < LeadingSystem(h) ==> h[i].role.System?
  {
    hide SystemsFirst, Survivors, CountNonSystem, NonSystem, Systems, LeadingSystem;
    var lead := LeadingSystem(h);
    TailIsNotSystem(h);
    LeadingSystemCount(h);
    NonSystemOfNonSystem(h[lead..]);
    assert CountNonSystem(h[lead..]) == |NonSystem(h[lead..])|;
    SurvivorsOfNonSystem(h[lead..], keep);
    EndOfTail(h, lead, keep);
  }

  /** Front of system messages, and the end of a history. */
  predicate FrontAndEnd(h: seq<Message>, h': seq<Message>, front: nat, keep: nat) {
    && front <= |h'| && keep <= |h| && h'[front..] == h[|h| - keep..]
    && forall i :: 0 <= i < front ==> h'[i].role.System? && !h'[i].origin.FromRun?
  }

  lemma EndStaysTogether(h: seq<Message>, h': seq<Message>, front: nat, keep: nat, k: nat)
    requires FrontAndEnd(h, h', front, keep)
    ensures Together(h, k) ==> Together(h', k)
    ensures AtTheEnd(h, k) ==> AtTheEnd(h', k)
    ensures SystemsFirst(h) ==> SystemsFirst(h')
  {
    var d := |h| - keep - front;
    assert forall i :: front <= i < |h'| ==> h'[i] == h'[front..][i - front] == h[i + d];
  }

  /** Messages of runs are never system messages. */
  ghost predicate RunsAreNotSystem(h: seq<Message>) {
    forall m :: m in h && m.origin.FromRun? ==> !m.role.System?
  }

  lemma CompactionKeepsOrder(h: seq<Message>, keep: nat, note: Message, k: nat)
    requires SystemsFirst(h) && RunsAreNotSystem(h) && note.role.System? && note.origin == FromCompaction
    ensures var h' := Compacted(h, keep, note);
            SystemsFirst(h') && (Together(h, k) ==> Together(h', k)) && (AtTheEnd(h, k) ==> AtTheEnd(h', k))
  {
    hide Survivors, CountNonSystem, LeadingSystem, SystemsFirst, Together, AtTheEnd;
    if CountNonSystem(h) > keep {
      CompactedIsFrontAndEnd(h, keep, note);
      var lead := LeadingSystem(h);
      var h' := Compacted(h, keep, note);
      hide Compacted;
      assert h'[lead + 1..] == h[|h| - keep..];
      forall i | 0 <= i < lead + 1
        ensures h'[i].role.System? && !h'[i].origin.FromRun?
      {
        assert i < lead ==> h'[i] == h[i];
      }
      EndStaysTogether(h, h', lead + 1, keep, k);
    }
  }

  lemma AppendKeepsOrder(h: seq<Message>, m: Message, k: nat)
    requires SystemsFirst(h) && !m.role.System?
    ensures SystemsFirst(h + [m])
    ensures AtTheEnd(h, k) && OfRunOrSubAgent(m, k) ==> AtTheEnd(h + [m], k)
    ensures Together(h, k) && m.origin != FromRun(k) ==> Together(h + [m], k)
  {}

  /** Runs that are over are together; the one under way is at the end besides. */
  ghost predicate InOrder(s: State, k: nat) {
    && SystemsFirst(s.history)
    && (k < |s.past| ==> Together(s.history, k))
    && (k == |s.past| ==> AtTheEnd(s.history, k))
  }

  lemma NoSystemMessagesOfRuns(s: State)
    requires Isolated(s) && AllRunsOk(s) && AllAtEnd(s)
    ensures RunsAreNotSystem(s.history)
  {
    hide Isolated, AllRunsOk, EndOfRun;
    forall m | m in s.history && m.origin.FromRun?
      ensures !m.role.System?
    {
      RunMessagesAreNotSystem(s, m.origin.run);
    }
  }

  lemma QuietKeepsOrder(s: State, a: Action, k: nat)
    requires Invariant(s) && RunsAreNotSystem(s.history) && InOrder(s, k) && Enabled(s, a) && Quiet(a)
    ensures InOrder(Apply(s, a), k)
  {
    hide Compacted, Apply, RequestStep, AllRunsOk, CaptureOk, Isolated, SystemsFirst, Together, AtTheEnd, RunsAreNotSystem,
         EventsOk, PastEnded, RoundsOk, Projected;
    var s' := Apply(s, a);
    QuietFrame(s, a);
    if CompactedHistory(s, s') {
      var keep, note := WorkerCompaction(s, a);
      CompactionKeepsOrder(s.history, keep, note, k);
    } else if s'.history != s.history {
      var m := s'.history[|s'.history| - 1];
      AppendedIsNotSystem(s, a);
      AppendKeepsOrder(s.history, m, k);
    }
  }

  lemma AppendedIsNotSystem(s: State, a: Action)
    requires Invariant(s) && Enabled(s, a) && Quiet(a)
    requires var h := Apply(s, a).history; h != [] && Appended(s, Apply(s, a), h[|h| - 1])
    ensures var h := Apply(s, a).history; !h[|h| - 1].role.System?
  {
    hide Apply, Generations, Isolated, Projected, RoundsOk, EventsOk, PastEnded, ShapeOf, Enabled;
    var s' := Apply(s, a);
    QuietFrame(s, a);
    InvariantKept(s, a);
    assert RunOk(s'.run, |s'.past|);
    RolesOfAcceptedMessages(s'.run.appended);
  }

  lemma OthersKeepOrder(s: State, a: OtherAction, k: nat)
    requires RunsAreNotSystem(s.history) && InOrder(s, k) && OtherEnabled(s, a)
    ensures InOrder(ApplyOther(s, a), k)
  {
    hide Compacted, SystemsFirst, Together, AtTheEnd, RunsAreNotSystem, Removed;
    OthersMoveForward(s, a);
    if a.Inject? {
      AppendKeepsOrder(s.history, Continuation(s.nextId, a.body), k);
    } else if a.CompactManually? {
      CompactionKeepsOrder(s.history, a.keep, TruncationNote(Removed(s.history, a.keep)), k);
    } else if a.ResetClear? {
      NothingIsInOrder(k);
    }
  }

  lemma NothingIsInOrder(k: nat)
    ensures SystemsFirst([]) && Together([], k) && AtTheEnd([], k)
  {}

  lemma DrainKeepsOrder(s: State, k: nat)
    requires Isolated(s) && InOrder(s, k) && EndEnabled(s, Drain)
    ensures InOrder(ApplyEnd(s, Drain), k)
  {
    hide SystemsFirst, Isolated;
    if k == |s.past| {
      EndIsTogether(s.history, k);
    } else if k == |s.past| + 1 {
      NothingOfNoRun(s, k);
      OfRunMembers(s.history, k);
    }
  }

  lemma OrderKept(s: State, a: Action, k: nat)
    requires Invariant(s) && AllAtEnd(s) && InOrder(s, k) && Enabled(s, a)
    ensures InOrder(Apply(s, a), k)
  {
    hide AllAtEnd, SystemsFirst, Together, AtTheEnd, Generations, Isolated, Projected, RoundsOk, AllRunsOk, EventsOk, PastEnded;
    NoSystemMessagesOfRuns(s);
    if Quiet(a) {
      QuietKeepsOrder(s, a, k);
    } else if a.ByOthers? {
      OthersKeepOrder(s, a.other, k);
    } else if a == AtEnd(Drain) {
      DrainKeepsOrder(s, k);
    }
  }

  lemma {:induction false} OrderAlways(s: State, trace: seq<Action>, k: nat)
    requires Invariant(s) && AllAtEnd(s) && InOrder(s, k) && Possible(s, trace)
    ensures InOrder(After(s, trace), k)
    decreases |trace|
  {
    hide Invariant, AllAtEnd, InOrder, Enabled, Apply;
    if trace == [] {
    } else {
      InvariantKept(s, trace[0]);
      AllAtEndKept(s, trace[0]);
      OrderKept(s, trace[0], k);
      OrderAlways(Apply(s, trace[0]), trace[1..], k);
    }
  }

  /** In every reachable history, whatever stands between two messages of a run is a
      message of that run or a sub-agent's continuation. */
  lemma OnlyContinuationsComeBetween(trace: seq<Action>, k: nat, i: nat, j: nat, l: nat)
    requires Possible(INIT, trace)
    requires i < j < l < |After(INIT, trace).history|
    requires After(INIT, trace).history[i].origin == FromRun(k) && After(INIT, trace).history[l].origin == FromRun(k)
    ensures var m := After(INIT, trace).history[j];
            m.origin == FromRun(k) || m.origin == FromSubAgent
  {
    InvariantHoldsInitially();
    OrderAlways(INIT, trace, k);
    EndIsTogetherIn(After(INIT, trace), trace, k);
    hide Possible, After;
  }

  lemma EndIsTogetherIn(s: State, trace: seq<Action>, k: nat)
    requires Possible(INIT, trace) && After(INIT, trace) == s && InOrder(s, k)
    ensures Together(s.history, k)
  {
    hide Possible, After;
    if k == |s.past| {
      EndIsTogether(s.history, k);
    } else if k > |s.past| {
      InvariantHoldsInitially();
      InvariantAlways(INIT, trace);
      NothingOfNoRun(s, k);
      OfRunMembers(s.history, k);
    }
  }

  // ---------- a continuation between a call and its result ----------

  /** The round under way goes on to its next result: no reset or cancellation has made
      the run stale, and no stop is in the way. */
  predicate RoundGoesOn(s: State) {
    && !Stale(s)
    && match s.worker
       case ToolLoop(round, i) => i < |round.tools|
       case ToolRunning(_, _, _) => true
       case ToolFinished(_, _, _, _, _) => true
       case ToolAppended(round, i) => i + 1 < |round.tools| && !s.stopRequested
       case _ => false
  }

  /** The next message that run `k` appends after `s` is a tool result. */
  predicate ResultIsNext(s: State, s': State, k: nat)
    requires IsRun(s, k)
  {
    && IsRun(s', k)
    && var before, after := RunAt(s, k).appended, RunAt(s', k).appended;
    before < after && after[..|before|] == before && after[|before|].role.Tool?
  }

  ghost predicate CanAppendResult(s: State, k: nat)
    requires IsRun(s, k)
  {
    exists trace :: Possible(s, trace) && ResultIsNext(s, After(s, trace), k)
  }

  /** The result, and nothing else, comes behind what the history holds, and it answers
      the next call of the round. */
  ghost predicate ResultComesBehind(s: State, s': State) {
    exists t: Message ::
      && s'.past == s.past && !s'.worker.Idle?
      && s'.history == s.history + [t] && s'.run.appended == s.run.appended + [t]
      && NextAnswer(ShapeOf(s.run.appended), t)
  }

  predicate NextAnswer(shape: Shape, t: Message) {
    t.role.Tool? && shape.Open? && shape.rest != [] && t.answers == shape.rest[0].id
  }

  ghost predicate CanAppendBehind(s: State) {
    exists trace :: Possible(s, trace) && ResultComesBehind(s, After(s, trace))
  }

  /** The run is over, or on its way there. */
  predicate RunEnding(s: State, k: nat) {
    || k < |s.past|
    || (k == |s.past| && HasCaptured(s.worker)
        && (Stale(s) || s.worker.Returned? || (s.stopRequested && (s.worker.ToolAppended? || s.worker.ToolsReturned?))))
  }

  lemma EndingStays(s: State, a: Action, k: nat)
    requires Generations(s) && RunEnding(s, k) && Enabled(s, a)
    ensures RunEnding(Apply(s, a), k)
    ensures RunAt(Apply(s, a), k).appended == RunAt(s, k).appended
  {
    if Quiet(a) {
      QuietFrame(s, a);
      if k == |s.past| {
        QuietEnding(s, a);
      }
      hide Apply, QuietStep;
    } else if a.ByOthers? {
      OthersMoveForward(s, a.other);
      hide ApplyOther;
    }
  }

  lemma QuietEnding(s: State, a: Action)
    requires Generations(s) && RunEnding(s, |s.past|) && Enabled(s, a) && Quiet(a)
    ensures Apply(s, a).past == s.past && RunEnding(Apply(s, a), |s.past|)
    ensures Apply(s, a).run.appended == s.run.appended
  {
    QuietFrame(s, a);
    if Stale(s) {
      hide Apply;
    } else {
      StoppedEnding(s, a);
    }
  }

  /** From a requested stop behind a result there is one way out. */
  lemma StoppedEnding(s: State, a: Action)
    requires RunEnding(s, |s.past|) && !Stale(s) && Enabled(s, a) && Quiet(a)
    ensures Apply(s, a).past == s.past && RunEnding(Apply(s, a), |s.past|)
    ensures Apply(s, a).run.appended == s.run.appended
  {
    assert a == InTools(CheckStopAfterTool) || a == AtEnd(CheckStopAfterRound);
    hide ApplyEntry, ApplyRound, Sink;
  }

  lemma {:induction false} EndingRunsAppendNothing(s: State, trace: seq<Action>, k: nat)
    requires Generations(s) && RunEnding(s, k) && Possible(s, trace)
    ensures IsRun(After(s, trace), k) && RunAt(After(s, trace), k).appended == RunAt(s, k).appended
    decreases |trace|
  {
    EndingIsRun(s, k);
    hide RunEnding, Generations, Enabled, Apply, IsRun;
    if trace == [] {
    } else {
      EndingStays(s, trace[0], k);
      GenerationsKept(s, trace[0]);
      EndingRunsAppendNothing(Apply(s, trace[0]), trace[1..], k);
    }
  }

  lemma EndingIsRun(s: State, k: nat)
    requires RunEnding(s, k)
    ensures IsRun(s, k)
  {}

  /** An open round goes on or its run is ending. */
  lemma OpenRoundsGoOnOrEnd(s: State)
    requires RoundsOk(s) && !s.worker.Idle? && ShapeOf(s.run.appended).Open?
    ensures RoundGoesOn(s) || RunEnding(s, |s.past|)
  {
    assert ShapeOf([]) == Empty;
    hide ShapeOf;
  }

  lemma ResultsNeedAnOpenRound(s: State, trace: seq<Action>)
    requires Invariant(s) && !s.worker.Idle? && Possible(s, trace) && ResultIsNext(s, After(s, trace), |s.past|)
    ensures RoundGoesOn(s)
  {
    var k, s' := |s.past|, After(s, trace);
    InvariantAlways(s, trace);
    hide Possible, After, ShapeOf, RoundGoesOn, RunEnding;
    var before, after := s.run.appended, RunAt(s', k).appended;
    assert RunOk(RunAt(s', k), k);
    OpenBeforeResults(after, |before|);
    OpenRoundsGoOnOrEnd(s);
    if RunEnding(s, k) {
      EndingRunsAppendNothing(s, trace, k);
    }
  }

  // ---------- the result comes ----------

  /** What the steps up to the result leave alone. */
  predicate SameSoFar(s: State, s': State) {
    && s'.history == s.history && s'.past == s.past && s'.generation == s.generation
    && s'.run.generation == s.run.generation && s'.run.appended == s.run.appended
  }

  lemma ToTheRunningTool(s: State) returns (trace: seq<Action>, s': State)
    requires RoundsOk(s) && RoundGoesOn(s) && !s.worker.ToolFinished?
    ensures Leads(s, trace, s') && SameSoFar(s, s') && s'.worker.ToolRunning? && RoundsOk(s')
  {
    hide Leads, ShapeOf;
    NoSteps(s);
    trace, s' := [], s;
    if s'.worker.ToolAppended? {
      trace, s' := OneMore(s, trace, s', InTools(CheckStopAfterTool));
    }
    if s'.worker.ToolLoop? {
      trace, s' := OneMore(s, trace, s', InTools(StartTool));
    }
  }

  lemma ToTheFinishedTool(s: State) returns (trace: seq<Action>, s': State)
    requires RoundsOk(s) && RoundGoesOn(s)
    ensures Leads(s, trace, s') && SameSoFar(s, s') && s'.worker.ToolFinished? && RoundsOk(s')
  {
    hide Leads, ShapeOf;
    NoSteps(s);
    trace, s' := [], s;
    if !s.worker.ToolFinished? {
      trace, s' := ToTheRunningTool(s);
      trace, s' := OneMore(s, trace, s', InTools(FinishTool("", false)));
    }
  }

  lemma TheResultComes(s: State)
    requires RoundsOk(s) && RoundGoesOn(s)
    ensures CanAppendBehind(s)
  {
    hide Leads, ShapeOf, Possible, After;
    var trace, s1 := ToTheFinishedTool(s);
    var w := s1.worker;
    var t := ToolResultMessage(w.card, w.round.tools[w.next], w.content, w.isError, RunNumber(s1));
    assert w.round.tools[w.next..][0] == w.round.tools[w.next];
    var trace', s2 := OneMore(s, trace, s1, InTools(AppendResult));
    assert s2.history == s.history + [t] && s2.run.appended == s.run.appended + [t];
    assert NextAnswer(ShapeOf(s.run.appended), t);
    assert ResultComesBehind(s, s2);
    assert Leads(s, trace', s2);
    ComesByTrace(s, trace', s2);
  }

  lemma ComesByTrace(s: State, trace: seq<Action>, s': State)
    requires Leads(s, trace, s') && ResultComesBehind(s, s')
    ensures CanAppendBehind(s)
  {}

  lemma BehindIsNext(s: State, s': State)
    requires ResultComesBehind(s, s') && !s.worker.Idle?
    ensures ResultIsNext(s, s', |s.past|)
  {
    hide ShapeOf;
  }

  /** A continuation injected into a busy engine goes to the end of the history. It ends up
      between a tool call and a result of its round, in some continuation of the run,
      exactly when the round goes on; and then the result can be the very next message. */
  lemma ContinuationsSplitToolRounds(trace: seq<Action>, body: string)
    requires Possible(INIT, trace) && After(INIT, trace).active
    ensures var s := After(INIT, trace);
            var s1 := ApplyOther(s, Inject(body));
            && s1.history == s.history + [Continuation(s.nextId, body)] && IsRun(s1, |s.past|)
            && (CanAppendResult(s1, |s.past|) <==> RoundGoesOn(s))
            && (CanAppendBehind(s1) <==> RoundGoesOn(s))
  {
    var s := After(INIT, trace);
    InvariantHoldsInitially();
    InvariantAlways(INIT, trace);
    InvariantKept(s, ByOthers(Inject(body)));
    hide Possible, After;
    RoundsAfterInject(s, body);
  }

  lemma RoundsAfterInject(s: State, body: string)
    requires Invariant(s) && s.active && Invariant(ApplyOther(s, Inject(body)))
    ensures var s1 := ApplyOther(s, Inject(body));
            && s1.history == s.history + [Continuation(s.nextId, body)] && IsRun(s1, |s.past|)
            && (CanAppendResult(s1, |s.past|) <==> RoundGoesOn(s))
            && (CanAppendBehind(s1) <==> RoundGoesOn(s))
  {
    var s1 := ApplyOther(s, Inject(body));
    assert !s.worker.Idle?;
    assert RoundGoesOn(s1) <==> RoundGoesOn(s);
    hide ResultComesBehind, ResultIsNext, RoundGoesOn, Isolated, Projected, AllRunsOk, EventsOk, PastEnded;
    if t :| Possible(s1, t) && ResultIsNext(s1, After(s1, t), |s.past|) {
      ResultsNeedAnOpenRound(s1, t);
    }
    if t :| Possible(s1, t) && ResultComesBehind(s1, After(s1, t)) {
      BehindIsNext(s1, After(s1, t));
      ResultsNeedAnOpenRound(s1, t);
    }
    if RoundGoesOn(s1) {
      TheResultComes(s1);
      var t :| Possible(s1, t) && ResultComesBehind(s1, After(s1, t));
      BehindIsNext(s1, After(s1, t));
    }
  }
}
