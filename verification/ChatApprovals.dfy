/** The engine's tool rounds and the approval protocol, run together: each round is one of
    the protocol's runners, and the steps they share are taken at once. */
module ChatApprovals {
  import opened ChatTypes
  import opened Compaction
  import opened Numerals
  import opened ToolApproval
  import C = ChatMachine
  import I = ChatInvariants
  import A = ApprovalMachine
  import T = ApprovalTheorems
  import S = ApprovalStops

  function ToolOf(call: ToolCall): A.Tool {
    A.Tool(call.id, call.name, call.arguments)
  }

  function ToolsOf(calls: seq<ToolCall>): seq<A.Tool> {
    seq(|calls|, i requires 0 <= i < |calls| => ToolOf(calls[i]))
  }

  /** `runner` is the protocol's number for the latest round of the engine. */
  datatype State = State(chat: C.State, approvals: A.State, runner: nat)

  datatype Step =
    | Chat(action: C.Action)                 // of the engine alone
    | Stop(other: C.OtherAction)             // may reach the stop token of the round
    | BeginRound
    | StartCall(prep: A.Prep)
    | Protocol(step: A.Action)               // of the protocol alone
    | LeaveAtGate
    | EndCall(content: string, isError: bool)
    | Append
    | NextCall

  predicate InTools(w: C.Worker) {
    w.ToolLoop? || w.ToolRunning? || w.ToolFinished? || w.ToolAppended?
  }

  predicate RequestsStop(a: C.OtherAction) {
    a.StopActive? || a.ResetClearQueue?
  }

  /** The engine takes this step without the protocol. */
  predicate Alone(a: C.Action) {
    match a
    case ByOthers(o) => !RequestsStop(o)
    case InRound(r) => !r.AppendRound?
    case InTools(_) => false
    case _ => true
  }

  /** The step belongs to the call under way: it is not its preparation nor its end, and it
      does not leave at the gate. */
  predicate OfCall(s: A.State, r: nat, a: A.RunnerAction) {
    !a.Prepare? && !a.Finish? && !(a.CheckStop? && r < |s.runners| && s.runners[r].stop)
  }

  /** Call `c` of runner `r` has been executed. */
  ghost predicate WasExecuted(journal: seq<A.Event>, r: nat, c: nat) {
    exists p :: 0 <= p < |journal| && journal[p].Executed? && journal[p].runner == r && journal[p].call == c
  }

  ghost predicate Enabled(j: State, a: Step) {
    match a
    case Chat(action) => Alone(action) && C.Enabled(j.chat, action)
    case Stop(other) => RequestsStop(other) && C.OtherEnabled(j.chat, other)
    case BeginRound => C.RoundEnabled(j.chat, C.AppendRound)
    case StartCall(prep) =>
      && C.ToolEnabled(j.chat, C.StartTool)
      && (j.chat.worker.next < |j.chat.worker.round.tools| ==>
            j.runner < |j.approvals.runners| && A.StepEnabled(j.approvals, j.runner, A.Prepare(prep)))
    case Protocol(step) =>
      && A.Enabled(j.approvals, step) && step != A.ByOthers(A.RequestStop(j.runner))
      && (step.ByRunner? && step.runner == j.runner ==>
            j.chat.worker.ToolRunning? && OfCall(j.approvals, j.runner, step.step))
    case LeaveAtGate =>
      && C.ToolEnabled(j.chat, C.AbortAtGate)
      && j.runner < |j.approvals.runners| && A.StepEnabled(j.approvals, j.runner, A.CheckStop)
      && j.approvals.runners[j.runner].stop
    case EndCall(content, isError) =>
      && C.ToolEnabled(j.chat, C.FinishTool(content, isError))
      && j.runner < |j.approvals.runners| && j.approvals.runners[j.runner].pc.Finishing?
      && (isError || WasExecuted(j.approvals.journal, j.runner, j.chat.worker.next))
    case Append =>
      && C.ToolEnabled(j.chat, C.AppendResult)
      && (C.Stale(j.chat) ==>
            j.runner < |j.approvals.runners| && A.StepEnabled(j.approvals, j.runner, A.Finish(true)))
    case NextCall =>
      && C.ToolEnabled(j.chat, C.CheckStopAfterTool)
      && j.runner < |j.approvals.runners| && A.StepEnabled(j.approvals, j.runner, A.Finish(false))
  }

  /** A new runner for the round, with the stop token as it is. */
  function Spawned(s: A.State, tools: seq<A.Tool>, stop: bool): A.State {
    var s1 := A.ApplyOther(s, A.Spawn(tools));
    if stop then A.ApplyOther(s1, A.RequestStop(|s.runners|)) else s1
  }

  ghost function Apply(j: State, a: Step): State
    requires Enabled(j, a)
  {
    match a
    case Chat(action) => j.(chat := C.Apply(j.chat, action))
    case Stop(other) =>
      var chat := C.ApplyOther(j.chat, other);
      if InTools(j.chat.worker) && chat.stopRequested && j.runner < |j.approvals.runners| then
        j.(chat := chat, approvals := A.ApplyOther(j.approvals, A.RequestStop(j.runner)))
      else j.(chat := chat)
    case BeginRound =>
      var chat := C.ApplyRound(j.chat, C.AppendRound);
      if C.Stale(j.chat) then j.(chat := chat)
      else
        State(chat, Spawned(j.approvals, ToolsOf(j.chat.worker.round.tools), j.chat.stopRequested), |j.approvals.runners|)
    case StartCall(prep) =>
      var chat := C.ApplyTool(j.chat, C.StartTool);
      if j.chat.worker.next < |j.chat.worker.round.tools| then
        j.(chat := chat, approvals := A.ApplyStep(j.approvals, j.runner, A.Prepare(prep)))
      else j.(chat := chat)
    case Protocol(step) => j.(approvals := A.Apply(j.approvals, step))
    case LeaveAtGate =>
      j.(chat := C.ApplyTool(j.chat, C.AbortAtGate), approvals := A.ApplyStep(j.approvals, j.runner, A.CheckStop))
    case EndCall(content, isError) => j.(chat := C.ApplyTool(j.chat, C.FinishTool(content, isError)))
    case Append =>
      var chat := C.ApplyTool(j.chat, C.AppendResult);
      if C.Stale(j.chat) then j.(chat := chat, approvals := A.ApplyStep(j.approvals, j.runner, A.Finish(true)))
      else j.(chat := chat)
    case NextCall =>
      j.(chat := C.ApplyTool(j.chat, C.CheckStopAfterTool),
         approvals := A.ApplyStep(j.approvals, j.runner, A.Finish(false)))
  }

  ghost predicate Possible(j: State, steps: seq<Step>)
    decreases |steps|
  {
    steps == [] || (Enabled(j, steps[0]) && Possible(Apply(j, steps[0]), steps[1..]))
  }

  ghost function After(j: State, steps: seq<Step>): State
    requires Possible(j, steps)
    decreases |steps|
  {
    if steps == [] then j else After(Apply(j, steps[0]), steps[1..])
  }

  function Start(planTools: set<string>): State {
    State(C.INIT, A.Init(planTools), 0)
  }

  // ---------- the round and its runner ----------

  /** The runner is at call `i` of the round, with the engine's stop token. */
  predicate OnCall(j: State, round: C.Round, i: nat) {
    && j.runner < |j.approvals.runners|
    && var x := j.approvals.runners[j.runner];
    x.tools == ToolsOf(round.tools) && x.call == i && x.stop == j.chat.stopRequested
  }

  ghost predicate Linked(j: State) {
    match j.chat.worker
    case ToolLoop(round, i) => OnCall(j, round, i) && j.approvals.runners[j.runner].pc.AtLoop?
    case ToolRunning(round, i, _) =>
      OnCall(j, round, i) && !j.approvals.runners[j.runner].pc.AtLoop? && !j.approvals.runners[j.runner].pc.Done?
    case ToolFinished(round, i, _, _, isError) =>
      && OnCall(j, round, i) && j.approvals.runners[j.runner].pc.Finishing?
      && (isError || WasExecuted(j.approvals.journal, j.runner, i))
    case ToolAppended(round, i) => OnCall(j, round, i) && j.approvals.runners[j.runner].pc.Finishing?
    case _ => true
  }

  /** Executions are of the tools the runner was given. */
  ghost predicate ToolsMatch(s: A.State) {
    forall p :: 0 <= p < |s.journal| && s.journal[p].Executed? ==>
      var e := s.journal[p];
      e.runner < |s.runners| && e.call < |s.runners[e.runner].tools| && e.tool == s.runners[e.runner].tools[e.call]
  }

  lemma OthersKeepTools(s: A.State, a: A.OtherAction)
    requires ToolsMatch(s)
    ensures var s' := A.ApplyOther(s, a);
            && ToolsMatch(s') && s.journal <= s'.journal && |s.runners| <= |s'.runners|
            && forall r :: 0 <= r < |s.runners| ==> s'.runners[r].tools == s.runners[r].tools
  {
    hide Resolve, CancelAll;
  }

  lemma RunnersKeepTools(s: A.State, r: nat, a: A.RunnerAction)
    requires ToolsMatch(s) && r < |s.runners| && A.StepEnabled(s, r, a)
    ensures var s' := A.ApplyStep(s, r, a);
            && ToolsMatch(s') && s.journal <= s'.journal && |s'.runners| == |s.runners|
            && s'.runners[r].tools == s.runners[r].tools
  {
    hide A.ModeDenies, IdOf, ResolutionOf, WaitOver;
  }

  lemma StepKeepsTools(s: A.State, a: A.Action)
    requires ToolsMatch(s) && A.Enabled(s, a)
    ensures ToolsMatch(A.Apply(s, a)) && s.journal <= A.Apply(s, a).journal
  {
    hide A.ApplyOther, A.ApplyStep, A.StepEnabled, ToolsMatch;
    match a
    case ByOthers(other) => OthersKeepTools(s, other);
    case ByRunner(r, step) => RunnersKeepTools(s, r, step);
  }

  lemma ExecutedStays(journal: seq<A.Event>, journal': seq<A.Event>, r: nat, c: nat)
    requires WasExecuted(journal, r, c) && journal <= journal'
    ensures WasExecuted(journal', r, c)
  {
    var p :| 0 <= p < |journal| && journal[p].Executed? && journal[p].runner == r && journal[p].call == c;
    assert journal'[p] == journal[p];
  }

  // ---------- the link is kept ----------

  lemma AloneByEntry(s: C.State, a: C.EntryAction)
    requires C.EntryEnabled(s, a)
    ensures !InTools(C.ApplyEntry(s, a).worker)
  {
    hide Compacted, Removed, Truncated;
  }

  lemma AloneByRound(s: C.State, a: C.RoundAction)
    requires C.RoundEnabled(s, a) && !a.AppendRound?
    ensures !InTools(C.ApplyRound(s, a).worker)
  {
    hide C.Sink;
    if a.Receive? {
      I.SinkFrame(s, s.worker.round, a.event);
    }
  }

  lemma AloneByEnd(s: C.State, a: C.EndAction)
    requires C.EndEnabled(s, a)
    ensures !InTools(C.ApplyEnd(s, a).worker)
  {}

  lemma AloneByOthers(s: C.State, a: C.OtherAction)
    requires C.OtherEnabled(s, a) && !RequestsStop(a)
    ensures C.ApplyOther(s, a).worker == s.worker && C.ApplyOther(s, a).stopRequested == s.stopRequested
  {
    hide Truncated;
  }

  lemma ChatKeepsLink(j: State, a: C.Action)
    requires Linked(j) && Enabled(j, Chat(a))
    ensures Linked(Apply(j, Chat(a)))
  {
    hide C.ApplyOther, C.ApplyEntry, C.ApplyRound, C.ApplyTool, C.ApplyEnd;
    match a
    case ByOthers(o) => AloneByOthers(j.chat, o);
    case AtEntry(e) => AloneByEntry(j.chat, e);
    case InRound(r) => AloneByRound(j.chat, r);
    case AtEnd(e) => AloneByEnd(j.chat, e);
  }

  lemma StopKeepsLink(j: State, a: C.OtherAction)
    requires Linked(j) && Enabled(j, Stop(a))
    ensures Linked(Apply(j, Stop(a)))
  {
    hide A.ApplyOther, WasExecuted, ToolsOf;
    if j.runner < |j.approvals.runners| {
      StopSteps(j.approvals, j.runner);
      var s' := A.ApplyOther(j.approvals, A.RequestStop(j.runner));
      if WasExecuted(j.approvals.journal, j.runner, j.approvals.runners[j.runner].call) {
        ExecutedStays(j.approvals.journal, s'.journal, j.runner, j.approvals.runners[j.runner].call);
      }
    }
  }

  lemma StopSteps(s: A.State, r: nat)
    requires r < |s.runners|
    ensures var s' := A.ApplyOther(s, A.RequestStop(r));
            s'.runners == s.runners[r := s.runners[r].(stop := true)] && s.journal <= s'.journal
  {}

  lemma BeginKeepsLink(j: State)
    requires Linked(j) && Enabled(j, BeginRound)
    ensures Linked(Apply(j, BeginRound))
  {}

  lemma StartKeepsLink(j: State, prep: A.Prep)
    requires Linked(j) && Enabled(j, StartCall(prep))
    ensures Linked(Apply(j, StartCall(prep)))
  {
    hide A.ApplyStep, A.StepEnabled, ToolsOf, WasExecuted;
    if j.chat.worker.next < |j.chat.worker.round.tools| {
      PrepareSteps(j.approvals, j.runner, prep);
    }
  }

  lemma PrepareSteps(s: A.State, r: nat, prep: A.Prep)
    requires r < |s.runners| && A.StepEnabled(s, r, A.Prepare(prep))
    ensures var s' := A.ApplyStep(s, r, A.Prepare(prep));
            var x, x' := s.runners[r], s'.runners[r];
            && |s'.runners| == |s.runners| && x'.tools == x.tools && x'.call == x.call && x'.stop == x.stop
            && !x'.pc.AtLoop? && !x'.pc.Done?
  {
    hide A.ModeDenies;
  }

  /** A step of the call under way leaves its runner on it. */
  lemma OwnSteps(s: A.State, r: nat, a: A.RunnerAction)
    requires r < |s.runners| && A.StepEnabled(s, r, a) && OfCall(s, r, a)
    ensures var x, x' := s.runners[r], A.ApplyStep(s, r, a).runners[r];
            && x'.tools == x.tools && x'.call == x.call && x'.stop == x.stop
            && !x'.pc.AtLoop? && !x'.pc.Done?
            && |A.ApplyStep(s, r, a).runners| == |s.runners|
  {
    hide A.ModeDenies, IdOf, ResolutionOf, WaitOver;
  }

  lemma OtherSteps(s: A.State, a: A.OtherAction, r: nat)
    requires r < |s.runners| && a != A.RequestStop(r)
    ensures var s' := A.ApplyOther(s, a);
            r < |s'.runners| && s'.runners[r] == s.runners[r] && s.journal <= s'.journal
  {
    hide Resolve, CancelAll;
  }

  lemma ProtocolKeepsLink(j: State, a: A.Action)
    requires Linked(j) && Enabled(j, Protocol(a))
    ensures Linked(Apply(j, Protocol(a)))
  {
    hide A.ApplyOther, A.ApplyStep, A.StepEnabled, OfCall, ToolsOf, WasExecuted;
    var r := j.runner;
    if InTools(j.chat.worker) {
      match a {
        case ByOthers(other) => OtherSteps(j.approvals, other, r);
        case ByRunner(q, step) =>
          if q == r {
            OwnSteps(j.approvals, r, step);
          } else {
            S.RunnersDoNotMeet(j.approvals, step, q, r);
          }
      }
      if j.chat.worker.ToolFinished? && !j.chat.worker.isError {
        ExecutedStays(j.approvals.journal, A.Apply(j.approvals, a).journal, r, j.chat.worker.next);
      }
    }
  }

  lemma NextKeepsLink(j: State)
    requires Linked(j) && Enabled(j, NextCall)
    ensures Linked(Apply(j, NextCall))
  {
    hide ToolsOf, WasExecuted;
  }

  lemma EndKeepsLink(j: State, a: Step)
    requires Linked(j) && Enabled(j, a) && (a.LeaveAtGate? || a.EndCall? || a.Append?)
    ensures Linked(Apply(j, a))
  {
    hide ToolsOf, WasExecuted;
  }

  lemma LinkKept(j: State, a: Step)
    requires Linked(j) && Enabled(j, a)
    ensures Linked(Apply(j, a))
  {
    hide Linked, Enabled, Apply;
    match a
    case Chat(action) => ChatKeepsLink(j, action);
    case Stop(other) => StopKeepsLink(j, other);
    case BeginRound => BeginKeepsLink(j);
    case StartCall(prep) => StartKeepsLink(j, prep);
    case Protocol(step) => ProtocolKeepsLink(j, step);
    case NextCall => NextKeepsLink(j);
    case _ => EndKeepsLink(j, a);
  }

  // ---------- both projections ----------

  ghost predicate ChatReached(s: C.State) {
    exists trace :: C.Leads(C.INIT, trace, s)
  }

  ghost predicate ProtocolReached(planTools: set<string>, s: A.State) {
    exists trace :: S.Leads(A.Init(planTools), trace, s)
  }

  lemma ChatMoves(s: C.State, a: C.Action)
    requires ChatReached(s) && C.Enabled(s, a)
    ensures ChatReached(C.Apply(s, a))
  {
    hide C.Leads, C.Enabled, C.Apply;
    var trace :| C.Leads(C.INIT, trace, s);
    var _, _ := C.OneMore(C.INIT, trace, s, a);
  }

  lemma ProtocolMoves(planTools: set<string>, s: A.State, a: A.Action)
    requires ProtocolReached(planTools, s) && ToolsMatch(s) && A.Enabled(s, a)
    ensures ProtocolReached(planTools, A.Apply(s, a)) && ToolsMatch(A.Apply(s, a)) && s.journal <= A.Apply(s, a).journal
  {
    hide S.Leads, A.Enabled, A.Apply, ToolsMatch;
    var trace :| S.Leads(A.Init(planTools), trace, s);
    var _, _ := S.OneMore(A.Init(planTools), trace, s, a);
    StepKeepsTools(s, a);
  }

  /** What a joint step is to the engine, if it is one. */
  function ChatStep(a: Step): Option<C.Action> {
    match a
    case Chat(action) => Some(action)
    case Stop(other) => Some(C.ByOthers(other))
    case BeginRound => Some(C.InRound(C.AppendRound))
    case StartCall(_) => Some(C.InTools(C.StartTool))
    case Protocol(_) => None
    case LeaveAtGate => Some(C.InTools(C.AbortAtGate))
    case EndCall(content, isError) => Some(C.InTools(C.FinishTool(content, isError)))
    case Append => Some(C.InTools(C.AppendResult))
    case NextCall => Some(C.InTools(C.CheckStopAfterTool))
  }

  lemma ChatPart(j: State, a: Step)
    requires Enabled(j, a)
    ensures ChatStep(a).Some? ==> C.Enabled(j.chat, ChatStep(a).value) && Apply(j, a).chat == C.Apply(j.chat, ChatStep(a).value)
    ensures ChatStep(a).None? ==> Apply(j, a).chat == j.chat
  {
    hide C.ApplyOther, C.ApplyEntry, C.ApplyRound, C.ApplyTool, C.ApplyEnd, A.Apply, A.ApplyStep, A.ApplyOther, ToolsOf;
  }

  lemma ChatStaysReached(j: State, a: Step)
    requires Enabled(j, a) && ChatReached(j.chat)
    ensures ChatReached(Apply(j, a).chat)
  {
    ChatPart(j, a);
    hide Enabled, Apply, ChatReached, C.Apply, C.Enabled;
    if ChatStep(a).Some? {
      ChatMoves(j.chat, ChatStep(a).value);
    }
  }

  /** What a joint step is to the protocol, but for the start of a round. */
  ghost function ProtocolStep(j: State, a: Step): Option<A.Action>
    requires Enabled(j, a) && !a.BeginRound?
  {
    match a
    case Stop(other) =>
      if InTools(j.chat.worker) && C.ApplyOther(j.chat, other).stopRequested && j.runner < |j.approvals.runners| then
        Some(A.ByOthers(A.RequestStop(j.runner)))
      else None
    case StartCall(prep) =>
      if j.chat.worker.next < |j.chat.worker.round.tools| then Some(A.ByRunner(j.runner, A.Prepare(prep))) else None
    case Protocol(step) => Some(step)
    case LeaveAtGate => Some(A.ByRunner(j.runner, A.CheckStop))
    case Append => if C.Stale(j.chat) then Some(A.ByRunner(j.runner, A.Finish(true))) else None
    case NextCall => Some(A.ByRunner(j.runner, A.Finish(false)))
    case _ => None
  }

  lemma ProtocolPart(j: State, a: Step)
    requires Enabled(j, a) && !a.BeginRound?
    ensures var step := ProtocolStep(j, a);
            && (step.Some? ==> A.Enabled(j.approvals, step.value) && Apply(j, a).approvals == A.Apply(j.approvals, step.value))
            && (step.None? ==> Apply(j, a).approvals == j.approvals)
  {
    hide C.ApplyOther, C.ApplyEntry, C.ApplyRound, C.ApplyTool, C.ApplyEnd, A.ApplyStep, A.ApplyOther, ToolsOf, OfCall;
  }

  lemma ProtocolStaysReached(planTools: set<string>, j: State, a: Step)
    requires Enabled(j, a) && ProtocolReached(planTools, j.approvals) && ToolsMatch(j.approvals)
    ensures ProtocolReached(planTools, Apply(j, a).approvals) && ToolsMatch(Apply(j, a).approvals)
    ensures j.approvals.journal <= Apply(j, a).approvals.journal
  {
    hide ProtocolReached, ToolsMatch, A.ApplyOther, A.ApplyStep, A.StepEnabled, OfCall, ToolsOf, C.ApplyOther, C.ApplyRound, C.ApplyTool;
    if a.BeginRound? {
      if !C.Stale(j.chat) {
        SpawnStaysReached(planTools, j.approvals, ToolsOf(j.chat.worker.round.tools), j.chat.stopRequested);
      }
    } else {
      ProtocolPart(j, a);
      hide Enabled, Apply;
      if ProtocolStep(j, a).Some? {
        ProtocolMoves(planTools, j.approvals, ProtocolStep(j, a).value);
      }
    }
  }

  lemma SpawnStaysReached(planTools: set<string>, s: A.State, tools: seq<A.Tool>, stop: bool)
    requires ProtocolReached(planTools, s) && ToolsMatch(s)
    ensures ProtocolReached(planTools, Spawned(s, tools, stop)) && ToolsMatch(Spawned(s, tools, stop))
    ensures s.journal <= Spawned(s, tools, stop).journal
  {
    hide ProtocolReached, ToolsMatch, A.ApplyOther;
    ProtocolMoves(planTools, s, A.ByOthers(A.Spawn(tools)));
    if stop {
      ProtocolMoves(planTools, A.ApplyOther(s, A.Spawn(tools)), A.ByOthers(A.RequestStop(|s.runners|)));
    }
  }

  // ---------- results come from executions ----------

  /** The result was produced by the execution at `p`. */
  predicate Backs(journal: seq<A.Event>, p: nat, m: Message) {
    p < |journal| && journal[p].Executed? && journal[p].tool.callId == m.answers && journal[p].tool.name == m.toolName
  }

  ghost predicate Backed(journal: seq<A.Event>, m: Message) {
    exists p :: Backs(journal, p, m)
  }

  predicate GoodResult(m: Message) {
    m.role.Tool? && m.status.Complete?
  }

  ghost predicate ResultsBacked(j: State) {
    forall k: nat, m :: C.IsRun(j.chat, k) && m in C.RunAt(j.chat, k).appended && GoodResult(m) ==>
      Backed(j.approvals.journal, m)
  }

  lemma BackedStays(journal: seq<A.Event>, journal': seq<A.Event>, m: Message)
    requires Backed(journal, m) && journal <= journal'
    ensures Backed(journal', m)
  {
    var p :| Backs(journal, p, m);
    assert Backs(journal', p, m);
  }

  /** Results in the records are old, or this one. */
  ghost predicate NewResults(s: C.State, s': C.State, added: set<Message>) {
    forall k: nat, m :: C.IsRun(s', k) && m in C.RunAt(s', k).appended && GoodResult(m) ==>
      m in added || (C.IsRun(s, k) && m in C.RunAt(s, k).appended)
  }

  lemma RecordGrows(s: C.State, s': C.State, more: seq<Message>)
    requires s'.past == s.past && !s.worker.Idle? && !s'.worker.Idle? && s'.run.appended == s.run.appended + more
    ensures NewResults(s, s', set m | m in more && GoodResult(m))
  {}

  lemma NoResultsByEntry(s: C.State, a: C.EntryAction)
    requires C.EntryEnabled(s, a)
    ensures NewResults(s, C.ApplyEntry(s, a), {})
  {
    hide Compacted, Removed, Truncated, C.CompactNow;
    if a.Pop? || a.Capture? {
    } else if a.AppendPrompt? {
      hide NewResults;
      AppendPromptGrows(s);
    } else {
      hide NewResults;
      I.EarlyStepsAppendNothing(s, a);
      I.EntryFrame(s, a);
      hide C.ApplyEntry;
      var s' := C.ApplyEntry(s, a);
      assert s.run.appended + [] == s.run.appended;
      RecordGrows(s, s', []);
      assert (set m | m in [] && GoodResult(m)) == {};
    }
  }

  lemma AppendPromptGrows(s: C.State)
    requires C.EntryEnabled(s, C.AppendPrompt)
    ensures NewResults(s, C.ApplyEntry(s, C.AppendPrompt), {})
  {
    hide NewResults;
    var s' := C.ApplyEntry(s, C.AppendPrompt);
    var m := ActiveUserMessage(s.run.prompt.id, s.run.prompt.content, C.RunNumber(s));
    var more := if C.Stale(s) then [] else [m];
    assert s.run.appended + [] == s.run.appended;
    assert s'.run.appended == s.run.appended + more;
    RecordGrows(s, s', more);
    assert (set m | m in more && GoodResult(m)) == {};
  }

  lemma NoResultsByRound(s: C.State, a: C.RoundAction)
    requires C.RoundEnabled(s, a)
    ensures NewResults(s, C.ApplyRound(s, a), {})
  {
    hide NewResults, C.Sink;
    I.CancelFrame(s);
    if a.Receive? {
      I.SinkFrame(s, s.worker.round, a.event);
    }
    hide C.CancelRun;
    var s' := C.ApplyRound(s, a);
    var more := if a.AppendRound? && !C.Stale(s)
                then [AssistantToolRound(s.run.assistantId, s.worker.round.text, s.worker.round.tools, C.RunNumber(s))] else [];
    assert s.run.appended + [] == s.run.appended;
    assert s'.run.appended == s.run.appended + more && s'.past == s.past && !s'.worker.Idle?;
    RecordGrows(s, s', more);
    assert (set m | m in more && GoodResult(m)) == {};
  }

  lemma NoResultsByTool(s: C.State, a: C.ToolAction)
    requires C.ToolEnabled(s, a) && !a.AppendResult?
    ensures NewResults(s, C.ApplyTool(s, a), {})
  {
    hide NewResults;
    var s' := C.ApplyTool(s, a);
    assert s.run.appended + [] == s.run.appended;
    assert s'.run.appended == s.run.appended && s'.past == s.past;
    RecordGrows(s, s', []);
    assert (set m | m in [] && GoodResult(m)) == {};
  }

  lemma NoResultsByEnd(s: C.State, a: C.EndAction)
    requires C.EndEnabled(s, a)
    ensures NewResults(s, C.ApplyEnd(s, a), {})
  {
    if !a.Drain? {
      hide NewResults;
      I.CancelFrame(s);
      hide C.CancelRun;
      var s' := C.ApplyEnd(s, a);
      var more := if a.AppendFinal? && s.worker.round.text != "" && !C.Stale(s)
                  then [FinalAssistantMessage(s.run.assistantId, s.worker.round.text, C.RunNumber(s))] else [];
      assert s.run.appended + [] == s.run.appended;
      assert s'.run.appended == s.run.appended + more && s'.past == s.past && !s'.worker.Idle?;
      RecordGrows(s, s', more);
      assert (set m | m in more && GoodResult(m)) == {};
    }
  }

  lemma NoResultsByOthers(s: C.State, a: C.OtherAction)
    requires C.OtherEnabled(s, a)
    ensures NewResults(s, C.ApplyOther(s, a), {})
  {
    I.OthersMoveForward(s, a);
    hide C.ApplyOther;
  }

  lemma NoResults(s: C.State, a: C.Action)
    requires C.Enabled(s, a) && a != C.InTools(C.AppendResult)
    ensures NewResults(s, C.Apply(s, a), {})
  {
    hide NewResults, C.ApplyOther, C.ApplyEntry, C.ApplyRound, C.ApplyTool, C.ApplyEnd;
    match a
    case ByOthers(o) => NoResultsByOthers(s, o);
    case AtEntry(e) => NoResultsByEntry(s, e);
    case InRound(r) => NoResultsByRound(s, r);
    case InTools(t) => NoResultsByTool(s, t);
    case AtEnd(e) => NoResultsByEnd(s, e);
  }

  /** The result that is appended now. */
  function ResultNow(s: C.State): Message
    requires C.ToolEnabled(s, C.AppendResult)
  {
    var w := s.worker;
    ToolResultMessage(w.card, w.round.tools[w.next], w.content, w.isError, C.RunNumber(s))
  }

  lemma OneResult(s: C.State)
    requires C.ToolEnabled(s, C.AppendResult)
    ensures NewResults(s, C.ApplyTool(s, C.AppendResult), {ResultNow(s)})
  {
    hide NewResults;
    var s' := C.ApplyTool(s, C.AppendResult);
    var more := if C.Stale(s) then [] else [ResultNow(s)];
    assert s.run.appended + [] == s.run.appended;
    assert s'.run.appended == s.run.appended + more;
    RecordGrows(s, s', more);
    assert (set m | m in more && GoodResult(m)) <= {ResultNow(s)};
    FewerNew(s, s', set m | m in more && GoodResult(m), {ResultNow(s)});
  }

  lemma FewerNew(s: C.State, s': C.State, few: set<Message>, many: set<Message>)
    requires NewResults(s, s', few) && few <= many
    ensures NewResults(s, s', many)
  {}

  lemma NewResultIsBacked(j: State)
    requires Linked(j) && ToolsMatch(j.approvals) && C.ToolEnabled(j.chat, C.AppendResult)
    ensures GoodResult(ResultNow(j.chat)) ==> Backed(j.approvals.journal, ResultNow(j.chat))
  {
    var w, journal := j.chat.worker, j.approvals.journal;
    if GoodResult(ResultNow(j.chat)) {
      assert WasExecuted(journal, j.runner, w.next);
      var p :| 0 <= p < |journal| && journal[p].Executed? && journal[p].runner == j.runner && journal[p].call == w.next;
      assert journal[p].tool == ToolsOf(w.round.tools)[w.next];
      assert Backs(journal, p, ResultNow(j.chat));
    }
  }

  lemma BackingKept(planTools: set<string>, j: State, a: Step)
    requires Linked(j) && ToolsMatch(j.approvals) && ProtocolReached(planTools, j.approvals) && ResultsBacked(j) && Enabled(j, a)
    ensures ResultsBacked(Apply(j, a))
  {
    ProtocolStaysReached(planTools, j, a);
    ChatPart(j, a);
    var added: set<Message> := {};
    if a.Append? {
      added := {ResultNow(j.chat)};
      OneResult(j.chat);
      NewResultIsBacked(j);
    } else if ChatStep(a).Some? {
      NoResults(j.chat, ChatStep(a).value);
    }
    hide Enabled, Apply, Linked, ToolsMatch, ProtocolReached, GoodResult, Backed, C.Apply, C.Enabled;
    BackingGrows(j, Apply(j, a), added);
  }

  lemma BackingGrows(j: State, j': State, added: set<Message>)
    requires ResultsBacked(j) && NewResults(j.chat, j'.chat, added) && j.approvals.journal <= j'.approvals.journal
    requires forall m :: m in added && GoodResult(m) ==> Backed(j.approvals.journal, m)
    ensures ResultsBacked(j')
  {
    hide Backed, GoodResult;
    forall k: nat, m | C.IsRun(j'.chat, k) && m in C.RunAt(j'.chat, k).appended && GoodResult(m)
      ensures Backed(j'.approvals.journal, m)
    {
      BackedStays(j.approvals.journal, j'.approvals.journal, m);
    }
  }

  // ---------- over all joint runs ----------

  ghost predicate Sound(planTools: set<string>, j: State) {
    && Linked(j) && ToolsMatch(j.approvals) && ResultsBacked(j)
    && ChatReached(j.chat) && ProtocolReached(planTools, j.approvals)
  }

  lemma StartIsSound(planTools: set<string>)
    ensures Sound(planTools, Start(planTools))
  {
    C.NoSteps(C.INIT);
    S.NoSteps(A.Init(planTools));
  }

  lemma SoundKept(planTools: set<string>, j: State, a: Step)
    requires Sound(planTools, j) && Enabled(j, a)
    ensures Sound(planTools, Apply(j, a))
  {
    hide Linked, ToolsMatch, ResultsBacked, ChatReached, ProtocolReached, Enabled, Apply;
    LinkKept(j, a);
    BackingKept(planTools, j, a);
    ChatStaysReached(j, a);
    ProtocolStaysReached(planTools, j, a);
  }

  lemma {:induction false} AlwaysSound(planTools: set<string>, j: State, steps: seq<Step>)
    requires Sound(planTools, j) && Possible(j, steps)
    ensures Sound(planTools, After(j, steps))
    decreases |steps|
  {
    hide Sound, Enabled, Apply;
    if steps == [] {
    } else {
      SoundKept(planTools, j, steps[0]);
      AlwaysSound(planTools, Apply(j, steps[0]), steps[1..]);
    }
  }

  /** What the engine does in a joint run is a run of the engine, and what the protocol
      does one of the protocol; so what is proved of either holds here. */
  lemma JointRunsAreRunsOfBoth(planTools: set<string>, steps: seq<Step>)
    requires Possible(Start(planTools), steps)
    ensures ChatReached(After(Start(planTools), steps).chat)
    ensures ProtocolReached(planTools, After(Start(planTools), steps).approvals)
  {
    hide Possible, After;
    StartIsSound(planTools);
    AlwaysSound(planTools, Start(planTools), steps);
  }

  /** The execution at `p` needed no approval, or had its own. */
  ghost predicate Licensed(journal: seq<A.Event>, p: nat)
    requires p < |journal| && journal[p].Executed?
  {
    journal[p].prep.requiresApproval && journal[p].tool.name != A.ASK_USER ==>
      exists id, i, k, m :: T.ApprovedAs(journal, p, id, i, k, m)
  }

  lemma ExecutionsAreLicensed(planTools: set<string>, s: A.State, p: nat)
    requires ProtocolReached(planTools, s) && p < |s.journal| && s.journal[p].Executed?
    ensures Licensed(s.journal, p)
  {
    var trace :| S.Leads(A.Init(planTools), trace, s);
    hide A.Possible, A.After, T.ApprovedAs;
    if s.journal[p].prep.requiresApproval && s.journal[p].tool.name != A.ASK_USER {
      T.NoUnapprovedExecution(planTools, trace, p);
    }
  }

  /** Over all joint runs: every good tool result that a run of the engine ever appended
      was produced by an execution of the call it answers, and that execution needed no
      approval or had its own. */
  lemma GoodResultsWereApproved(planTools: set<string>, steps: seq<Step>, k: nat, m: Message)
    requires Possible(Start(planTools), steps) && C.IsRun(After(Start(planTools), steps).chat, k)
    requires m in C.RunAt(After(Start(planTools), steps).chat, k).appended && GoodResult(m)
    ensures var journal := After(Start(planTools), steps).approvals.journal;
            exists p :: Backs(journal, p, m) && Licensed(journal, p)
  {
    var j := After(Start(planTools), steps);
    hide Possible, After, Linked, ToolsMatch, ChatReached, ProtocolReached, Licensed, GoodResult;
    StartIsSound(planTools);
    AlwaysSound(planTools, Start(planTools), steps);
    assert Backed(j.approvals.journal, m);
    var p :| Backs(j.approvals.journal, p, m);
    ExecutionsAreLicensed(planTools, j.approvals, p);
  }

  // ---------- it does happen ----------

  ghost predicate Leads(start: State, steps: seq<Step>, j: State) {
    Possible(start, steps) && After(start, steps) == j
  }

  lemma NoSteps(j: State)
    ensures Leads(j, [], j)
  {}

  lemma {:induction false} StepsConcat(j: State, t: seq<Step>, u: seq<Step>)
    requires Possible(j, t) && Possible(After(j, t), u)
    ensures Possible(j, t + u) && After(j, t + u) == After(After(j, t), u)
    decreases |t|
  {
    hide Enabled, Apply;
    if t == [] {
      assert t + u == u;
    } else {
      assert (t + u)[1..] == t[1..] + u;
      StepsConcat(Apply(j, t[0]), t[1..], u);
    }
  }

  lemma OneMore(start: State, steps: seq<Step>, j: State, a: Step) returns (steps': seq<Step>, j': State)
    requires Leads(start, steps, j) && Enabled(j, a)
    ensures j' == Apply(j, a) && steps' == steps + [a] && Leads(start, steps', j')
  {
    hide Enabled, Apply;
    steps', j' := steps + [a], Apply(j, a);
    assert Possible(j, [a]) && After(j, [a]) == j' by {
      assert [a][1..] == [];
      assert Possible(j', []) && After(j', []) == j';
    }
    StepsConcat(start, steps, [a]);
  }

  lemma ToTheRound(planTools: set<string>, prompt: string, call: ToolCall) returns (steps: seq<Step>, j: State)
    ensures Leads(Start(planTools), steps, j) && j.approvals == A.Init(planTools)
    ensures j.chat.worker == C.RoundDone(C.Round("", [call], map[], false)) && !C.Stale(j.chat) && !j.chat.stopRequested
    ensures j.chat.past == [] && |j.chat.run.appended| == 1
  {
    hide Leads, A.Apply, A.Init;
    NoSteps(Start(planTools));
    steps, j := [], Start(planTools);
    steps, j := OneMore(Start(planTools), steps, j, Chat(C.ByOthers(C.Submit(prompt))));
    steps, j := OneMore(Start(planTools), steps, j, Chat(C.AtEntry(C.Pop)));
    steps, j := OneMore(Start(planTools), steps, j, Chat(C.AtEntry(C.Announce)));
    steps, j := OneMore(Start(planTools), steps, j, Chat(C.AtEntry(C.Capture)));
    steps, j := OneMore(Start(planTools), steps, j, Chat(C.AtEntry(C.Enter(true))));
    steps, j := OneMore(Start(planTools), steps, j, Chat(C.AtEntry(C.CheckEntry)));
    steps, j := OneMore(Start(planTools), steps, j, Chat(C.AtEntry(C.ChooseCompaction(C.NoCompaction))));
    steps, j := OneMore(Start(planTools), steps, j, Chat(C.AtEntry(C.AppendPrompt)));
    steps, j := OneMore(Start(planTools), steps, j, Chat(C.InRound(C.BuildRequest)));
    steps, j := OneMore(Start(planTools), steps, j, Chat(C.InRound(C.Receive(C.ToolCallRequested([call])))));
    steps, j := OneMore(Start(planTools), steps, j, Chat(C.InRound(C.EndStream)));
  }

  /** The engine is at its only call. */
  predicate AtTheCall(j: State, call: ToolCall) {
    && j.runner == 0
    && j.chat.worker.ToolRunning? && j.chat.worker.round.tools == [call] && j.chat.worker.next == 0
    && !C.Stale(j.chat) && !j.chat.stopRequested && j.chat.past == [] && |j.chat.run.appended| == 2
  }

  lemma ToTheGate(planTools: set<string>, prompt: string, call: ToolCall) returns (steps: seq<Step>, j: State)
    ensures Leads(Start(planTools), steps, j) && AtTheCall(j, call)
    ensures j.approvals == A.Init(planTools).(runners := [A.Runner([ToolOf(call)], 0, A.Prep(false, true), A.AtGate, false)])
  {
    hide Leads;
    steps, j := ToTheRound(planTools, prompt, call);
    assert ToolsOf([call]) == [ToolOf(call)];
    steps, j := OneMore(Start(planTools), steps, j, BeginRound);
    steps, j := OneMore(Start(planTools), steps, j, StartCall(A.Prep(false, true)));
  }

  /** A step of the call under way, in the protocol alone. */
  lemma CallStep(start: State, steps: seq<Step>, j: State, a: A.RunnerAction, call: ToolCall)
    returns (steps': seq<Step>, j': State)
    requires Leads(start, steps, j) && AtTheCall(j, call)
    requires |j.approvals.runners| > 0 && A.StepEnabled(j.approvals, 0, a) && OfCall(j.approvals, 0, a)
    ensures Leads(start, steps', j') && AtTheCall(j', call) && j'.approvals == A.ApplyStep(j.approvals, 0, a)
  {
    hide Leads, A.ApplyStep, A.StepEnabled, OfCall;
    steps', j' := OneMore(start, steps, j, Protocol(A.ByRunner(0, a)));
  }

  lemma ToTheRequest(planTools: set<string>, prompt: string, call: ToolCall) returns (steps: seq<Step>, j: State)
    ensures Leads(Start(planTools), steps, j) && AtTheCall(j, call)
    ensures j.approvals.gate == Some(0) && j.approvals.mode.Build?
    ensures j.approvals.runners == [A.Runner([ToolOf(call)], 0, A.Prep(false, true), A.Asked(IdOf(1), 0), false)]
    ensures j.approvals.pending == map[IdOf(1) := PendingApproval(call.id, call.name, call.arguments, None, None)]
  {
    hide Leads, IdOf, AtTheCall;
    steps, j := ToTheGate(planTools, prompt, call);
    steps, j := CallStep(Start(planTools), steps, j, A.LockGate, call);
    steps, j := CallStep(Start(planTools), steps, j, A.CheckStop, call);
    steps, j := CallStep(Start(planTools), steps, j, A.FetchId, call);
    steps, j := CallStep(Start(planTools), steps, j, A.InsertRequest, call);
  }

  lemma ToTheVerdict(planTools: set<string>, prompt: string, call: ToolCall) returns (steps: seq<Step>, j: State)
    ensures Leads(Start(planTools), steps, j) && AtTheCall(j, call)
    ensures j.approvals.gate == Some(0) && j.approvals.mode.Build?
    ensures j.approvals.runners == [A.Runner([ToolOf(call)], 0, A.Prep(false, true), A.Asked(IdOf(1), 0), false)]
    ensures j.approvals.pending == map[IdOf(1) := PendingApproval(call.id, call.name, call.arguments, Some(true), None)]
  {
    hide Leads, IdOf;
    steps, j := ToTheRequest(planTools, prompt, call);
    steps, j := OneMore(Start(planTools), steps, j, Protocol(A.ByOthers(A.ResolveTool(IdOf(1), true))));
  }

  lemma ToTheExecution(planTools: set<string>, prompt: string, call: ToolCall) returns (steps: seq<Step>, j: State)
    requires call.name != A.ASK_USER
    ensures Leads(Start(planTools), steps, j) && AtTheCall(j, call)
    ensures |j.approvals.runners| == 1 && j.approvals.runners[0].pc.Finishing?
    ensures WasExecuted(j.approvals.journal, 0, 0)
  {
    hide Leads, IdOf, AtTheCall;
    steps, j := ToTheVerdict(planTools, prompt, call);
    steps, j := CallStep(Start(planTools), steps, j, A.ReturnFromWait, call);
    steps, j := CallStep(Start(planTools), steps, j, A.ReleaseGate, call);
    steps, j := CallStep(Start(planTools), steps, j, A.Judge, call);
    var before := j.approvals.journal;
    steps, j := CallStep(Start(planTools), steps, j, A.Execute, call);
    assert j.approvals.journal[|before|].Executed?;
  }

  /** A joint run in which a call is asked for, approved, executed, and its result appended. */
  lemma GoodResultsAreReached(planTools: set<string>, prompt: string, call: ToolCall, result: string)
    returns (steps: seq<Step>, j: State)
    requires call.name != A.ASK_USER
    ensures Possible(Start(planTools), steps) && After(Start(planTools), steps) == j
    ensures C.IsRun(j.chat, 0) && |C.RunAt(j.chat, 0).appended| == 3
    ensures var m := C.RunAt(j.chat, 0).appended[2]; GoodResult(m) && m.answers == call.id && m.content == result
  {
    hide Possible, After, WasExecuted;
    steps, j := ToTheExecution(planTools, prompt, call);
    steps, j := OneMore(Start(planTools), steps, j, EndCall(result, false));
    steps, j := OneMore(Start(planTools), steps, j, Append);
  }
}
