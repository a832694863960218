/** The chat engine as a step system: one worker that runs prompts, and other
    threads that submit, cancel, reset, compact and inject. Each action below is one
    critical section, one access to the generation counter or the stop token, or
    work only the worker can see. */
module ChatMachine {
  import opened ChatTypes
  import opened Compaction

  datatype Prompt = Prompt(id: nat, content: string)

  /** What a model provider may hand to the sink while it streams. `Passthrough`
      stands for the events the sink forwards unchanged. */
  datatype ProviderEvent =
    | ToolCallRequested(calls: seq<ToolCall>)
    | TextDelta(text: string)
    | ArgumentDelta(callId: string)
    | StreamError(text: string)
    | StreamFinished
    | Passthrough

  /** Events a prompt run emits. */
  datatype Event =
    | PromptActive(id: nat)
    | PromptComplete(id: nat)
    | Started(id: nat)
    | Text(id: nat, text: string)
    | Arguments(id: nat, callId: string, card: nat)
    | RunError(id: nat, text: string)
    | Forwarded
    | HistoryCompacted(removed: nat)
    | ToolStarted(card: nat, callId: string)
    | ToolDone(card: nat, callId: string, isError: bool)
    | RunCancelled(id: nat)
    | AssistantDone(id: nat)
    | Finished(id: nat)

  /** A request to the model: the history it was built from, and how many messages
      the run had appended by then. */
  datatype Request = Request(history: seq<Message>, appended: nat)

  /** Everything one prompt run did, kept for the statements below. `generation` and
      `epoch` are those at the moment the worker read the generation counter; the
      epoch counts how often a reset has cleared the history. */
  datatype Run = Run(
    prompt: Prompt,
    captured: bool,
    generation: nat,
    epoch: nat,
    assistantId: nat,
    appended: seq<Message>,
    events: seq<Event>,
    requests: seq<Request>)

  /** Results of the round being streamed. */
  datatype Round = Round(text: string, tools: seq<ToolCall>, cards: map<string, nat>, failed: bool)

  const EMPTY_ROUND := Round("", [], map[], false)

  /** Where the worker is. */
  datatype Worker =
    | Idle
    | Popped
    | Announced
    | Captured
    | Entered
    | BeforePrompt
    | Summarizing(keep: nat)
    | ReadyToAppend
    | RoundStart
    | Streaming(round: Round)
    | RoundDone(round: Round)            // the model asked for tools
    | ModelDone(round: Round)            // the model did not
    | ToolLoop(round: Round, next: nat)
    | ToolRunning(round: Round, next: nat, card: nat)
    | ToolFinished(round: Round, next: nat, card: nat, content: string, isError: bool)
    | ToolAppended(round: Round, next: nat)
    | ToolsReturned
    | ToolsReturnedNoStop
    | Returned

  datatype ResetPhase = Bumped | QueueCleared | Waited

  datatype State = State(
    generation: nat,
    epoch: nat,
    pending: seq<Prompt>,
    active: bool,
    stopRequested: bool,
    closing: bool,
    history: seq<Message>,
    nextId: nat,
    resets: map<nat, ResetPhase>,        // resets in progress, by thread
    worker: Worker,
    run: Run,                            // the current run, or the last one when idle
    past: seq<Run>)                      // runs that are over, oldest first

  const NO_RUN := Run(Prompt(0, ""), false, 0, 0, 0, [], [], [])

  const INIT := State(0, 0, [], false, false, false, [], 1, map[], Idle, NO_RUN, [])

  datatype CompactionPlan = NoCompaction | Truncate(keep: nat) | Summarize(keep: nat)

  /** Steps of the threads that are not the worker. */
  datatype OtherAction =
    | Submit(content: string)
    | Cancel                              // a cancellation: this, then StopActive
    | Inject(body: string)
    | CompactManually(keep: nat)
    | StopActive                          // the destructor: this, then StopWorker
    | StopWorker
    | ResetBump(thread: nat)
    | ResetClearQueue(thread: nat)
    | ResetWait(thread: nat, timedOut: bool)
    | ResetClear(thread: nat)

  /** The worker, from taking a prompt up to appending it to the history. */
  datatype EntryAction =
    | Pop
    | Announce
    | Capture
    | Enter(providerFound: bool)
    | CheckEntry
    | ChooseCompaction(plan: CompactionPlan)
    | ReceiveSummary(summary: Summary)
    | AppendPrompt

  /** The worker, in one model round. */
  datatype RoundAction = BuildRequest | Receive(event: ProviderEvent) | EndStream | AppendRound

  /** The worker, running the tools of a round in the order they were asked for. */
  datatype ToolAction =
    | StartTool
    | AbortAtGate
    | FinishTool(content: string, isError: bool)
    | AppendResult
    | CheckStopAfterTool

  datatype EndAction = CheckStopAfterRound | CheckGenerationAfterRound | AppendFinal | Drain

  datatype Action =
    | ByOthers(other: OtherAction)
    | AtEntry(entry: EntryAction)
    | InRound(round: RoundAction)
    | InTools(tool: ToolAction)
    | AtEnd(end: EndAction)

  predicate OtherEnabled(s: State, a: OtherAction) {
    match a
    case ResetBump(t) => t !in s.resets
    case ResetClearQueue(t) => t in s.resets && s.resets[t] == Bumped
    case ResetWait(t, timedOut) => t in s.resets && s.resets[t] == QueueCleared && (timedOut || !s.active)
    case ResetClear(t) => t in s.resets && s.resets[t] == Waited
    case _ => true
  }

  predicate EntryEnabled(s: State, a: EntryAction) {
    match a
    case Pop => s.worker.Idle? && s.pending != [] && !s.closing
    case Announce => s.worker.Popped?
    case Capture => s.worker.Announced?
    case Enter(_) => s.worker.Captured?
    case CheckEntry => s.worker.Entered?
    case ChooseCompaction(_) => s.worker.BeforePrompt?
    case ReceiveSummary(_) => s.worker.Summarizing?
    case AppendPrompt => s.worker.ReadyToAppend?
  }

  predicate RoundEnabled(s: State, a: RoundAction) {
    match a
    case BuildRequest => s.worker.RoundStart?
    case Receive(_) => s.worker.Streaming?
    case EndStream => s.worker.Streaming?
    case AppendRound => s.worker.RoundDone?
  }

  predicate ToolEnabled(s: State, a: ToolAction) {
    match a
    case StartTool => s.worker.ToolLoop?
    case AbortAtGate => s.worker.ToolRunning? && s.stopRequested
    case FinishTool(_, _) => s.worker.ToolRunning? && s.worker.next < |s.worker.round.tools|
    case AppendResult => s.worker.ToolFinished? && s.worker.next < |s.worker.round.tools|
    case CheckStopAfterTool => s.worker.ToolAppended?
  }

  predicate EndEnabled(s: State, a: EndAction) {
    match a
    case CheckStopAfterRound => s.worker.ToolsReturned?
    case CheckGenerationAfterRound => s.worker.ToolsReturnedNoStop?
    case AppendFinal => s.worker.ModelDone?
    case Drain => s.worker.Returned?
  }

  predicate Enabled(s: State, a: Action) {
    match a
    case ByOthers(o) => OtherEnabled(s, o)
    case AtEntry(e) => EntryEnabled(s, e)
    case InRound(r) => RoundEnabled(s, r)
    case InTools(t) => ToolEnabled(s, t)
    case AtEnd(e) => EndEnabled(s, e)
  }

  /** `ShouldAbortLocked`. */
  predicate Stale(s: State) {
    s.generation != s.run.generation
  }

  /** The number the current run's messages carry. */
  function RunNumber(s: State): nat {
    |s.past|
  }

  function Emit(s: State, events: seq<Event>): State {
    s.(run := s.run.(events := s.run.events + events))
  }

  function AppendToHistory(s: State, m: Message): State {
    s.(history := s.history + [m], run := s.run.(appended := s.run.appended + [m]))
  }

  /** Returning from `ProcessPrompt` through `EmitCancellation`. */
  function CancelRun(s: State): State {
    Emit(s, [RunCancelled(s.run.assistantId), Finished(s.run.assistantId)]).(worker := Returned)
  }

  function CompactNow(s: State, compacted: seq<Message>, removed: nat): State {
    Emit(s, if removed > 0 then [HistoryCompacted(removed)] else []).(history := compacted, worker := ReadyToAppend)
  }

  /** What the sink does with one event. */
  function Sink(s: State, round: Round, e: ProviderEvent): State {
    if Stale(s) then s
    else
      match e
      case ToolCallRequested(calls) => s.(worker := Streaming(round.(tools := calls)))
      case TextDelta(text) =>
        if text == "" then s
        else Emit(s, [Text(s.run.assistantId, text)]).(worker := Streaming(round.(text := round.text + text)))
      case ArgumentDelta(callId) =>
        if callId in round.cards then
          Emit(s, [Arguments(s.run.assistantId, callId, round.cards[callId])])
        else
          Emit(s, [Arguments(s.run.assistantId, callId, s.nextId)])
          .(worker := Streaming(round.(cards := round.cards[callId := s.nextId])), nextId := s.nextId + 1)
      case StreamError(text) =>
        Emit(s, [RunError(s.run.assistantId, text)]).(worker := Streaming(round.(failed := true)))
      case StreamFinished => s
      case Passthrough => Emit(s, [Forwarded])
  }

  function ApplyOther(s: State, a: OtherAction): State
    requires OtherEnabled(s, a)
  {
    match a
    case Submit(content) => s.(pending := s.pending + [Prompt(s.nextId, content)], nextId := s.nextId + 1)
    case Cancel => if s.active then s.(generation := s.generation + 1) else s
    case Inject(body) =>
      if !s.active && s.pending == [] then
        s.(pending := [Prompt(s.nextId, body)], nextId := s.nextId + 1)
      else
        s.(history := s.history + [Continuation(s.nextId, body)], nextId := s.nextId + 1)
    case CompactManually(keep) =>
      if s.active || s.pending != [] then s else s.(history := Truncated(s.history, keep))
    case StopActive => s.(stopRequested := s.stopRequested || s.active)
    case StopWorker => s.(closing := true)
    case ResetBump(t) => s.(generation := s.generation + 1, resets := s.resets[t := Bumped])
    case ResetClearQueue(t) =>
      s.(pending := [], stopRequested := s.stopRequested || s.active, resets := s.resets[t := QueueCleared])
    case ResetWait(t, _) => s.(resets := s.resets[t := Waited])
    case ResetClear(t) =>
      s.(generation := s.generation + 1, epoch := s.epoch + 1, history := [], resets := s.resets - {t})
  }

  function ApplyEntry(s: State, a: EntryAction): State
    requires EntryEnabled(s, a)
  {
    match a
    case Pop =>
      s.(pending := s.pending[1..], active := true, stopRequested := false, worker := Popped,
         run := NO_RUN.(prompt := s.pending[0]))
    case Announce => Emit(s, [PromptActive(s.run.prompt.id)]).(worker := Announced)
    case Capture =>
      s.(run := s.run.(captured := true, generation := s.generation, epoch := s.epoch), worker := Captured)
    case Enter(providerFound) =>
      var s1 := s.(run := s.run.(assistantId := s.nextId), nextId := s.nextId + 1);
      if providerFound then s1.(worker := Entered)
      else
        Emit(s1, [PromptComplete(s1.run.prompt.id), RunError(s.nextId, "No provider registered."), Finished(s.nextId)])
        .(worker := Returned)
    case CheckEntry => s.(worker := if Stale(s) then Returned else BeforePrompt)
    case ChooseCompaction(plan) =>
      (match plan
       case NoCompaction => s.(worker := ReadyToAppend)
       case Truncate(keep) => CompactNow(s, Truncated(s.history, keep), Removed(s.history, keep))
       case Summarize(keep) =>
         s.(worker := if Removed(s.history, keep) == 0 then ReadyToAppend else Summarizing(keep)))
    case ReceiveSummary(summary) =>
      var keep := s.worker.keep;
      (match summary
       case Written(text) => CompactNow(s, Compacted(s.history, keep, SummaryNote(text)), Removed(s.history, keep))
       case Failed(_) => CompactNow(s, Truncated(s.history, keep), Removed(s.history, keep)))
    case AppendPrompt =>
      if Stale(s) then s.(worker := Returned)
      else
        Emit(AppendToHistory(s, ActiveUserMessage(s.run.prompt.id, s.run.prompt.content, RunNumber(s))),
             [PromptComplete(s.run.prompt.id), Started(s.run.assistantId)]).(worker := RoundStart)
  }

  function ApplyRound(s: State, a: RoundAction): State
    requires RoundEnabled(s, a)
  {
    match a
    case BuildRequest =>
      if Stale(s) then CancelRun(s)
      else
        s.(run := s.run.(requests := s.run.requests + [Request(s.history, |s.run.appended|)]),
           worker := Streaming(EMPTY_ROUND))
    case Receive(e) => Sink(s, s.worker.round, e)
    case EndStream =>
      var round := s.worker.round;
      if Stale(s) then CancelRun(s)
      else if round.failed then Emit(s, [Finished(s.run.assistantId)]).(worker := Returned)
      else if round.tools == [] then s.(worker := ModelDone(round))
      else s.(worker := RoundDone(round))
    case AppendRound =>
      var round := s.worker.round;
      if Stale(s) then CancelRun(s)
      else
        AppendToHistory(s, AssistantToolRound(s.run.assistantId, round.text, round.tools, RunNumber(s)))
        .(worker := ToolLoop(round, 0))
  }

  function ApplyTool(s: State, a: ToolAction): State
    requires ToolEnabled(s, a)
  {
    match a
    case StartTool =>
      var round, i := s.worker.round, s.worker.next;
      if i >= |round.tools| then s.(worker := ToolsReturned)
      else
        var call := round.tools[i];
        if call.id in round.cards then
          Emit(s, [ToolStarted(round.cards[call.id], call.id)]).(worker := ToolRunning(round, i, round.cards[call.id]))
        else
          Emit(s, [ToolStarted(s.nextId, call.id)])
          .(worker := ToolRunning(round, i, s.nextId), nextId := s.nextId + 1)
    case AbortAtGate => s.(worker := ToolsReturned)
    case FinishTool(content, isError) =>
      var round, i, card := s.worker.round, s.worker.next, s.worker.card;
      Emit(s, [ToolDone(card, round.tools[i].id, isError)]).(worker := ToolFinished(round, i, card, content, isError))
    case AppendResult =>
      var round, i := s.worker.round, s.worker.next;
      if Stale(s) then s.(worker := ToolsReturned)
      else
        AppendToHistory(s, ToolResultMessage(s.worker.card, round.tools[i], s.worker.content, s.worker.isError, RunNumber(s)))
        .(worker := ToolAppended(round, i))
    case CheckStopAfterTool =>
      s.(worker := if s.stopRequested then ToolsReturned else ToolLoop(s.worker.round, s.worker.next + 1))
  }

  function ApplyEnd(s: State, a: EndAction): State
    requires EndEnabled(s, a)
  {
    match a
    case CheckStopAfterRound => if s.stopRequested then CancelRun(s) else s.(worker := ToolsReturnedNoStop)
    case CheckGenerationAfterRound => if Stale(s) then CancelRun(s) else s.(worker := RoundStart)
    case AppendFinal =>
      var text := s.worker.round.text;
      if text != "" && Stale(s) then CancelRun(s)
      else
        var s1 := if text == "" then s
                  else AppendToHistory(s, FinalAssistantMessage(s.run.assistantId, text, RunNumber(s)));
        Emit(s1, [AssistantDone(s.run.assistantId), Finished(s.run.assistantId)]).(worker := Returned)
    case Drain => s.(active := false, stopRequested := false, worker := Idle, past := s.past + [s.run])
  }

  function Apply(s: State, a: Action): State
    requires Enabled(s, a)
  {
    match a
    case ByOthers(o) => ApplyOther(s, o)
    case AtEntry(e) => ApplyEntry(s, e)
    case InRound(r) => ApplyRound(s, r)
    case InTools(t) => ApplyTool(s, t)
    case AtEnd(e) => ApplyEnd(s, e)
  }

  /** A run of the whole system from `s`. */
  predicate Possible(s: State, trace: seq<Action>)
    decreases |trace|
  {
    trace == [] || (Enabled(s, trace[0]) && Possible(Apply(s, trace[0]), trace[1..]))
  }

  function After(s: State, trace: seq<Action>): State
    requires Possible(s, trace)
    decreases |trace|
  {
    if trace == [] then s else After(Apply(s, trace[0]), trace[1..])
  }

  /** The worker is inside `ProcessPrompt` past the point where it took its generation. */
  predicate HasCaptured(w: Worker) {
    !w.Idle? && !w.Popped? && !w.Announced?
  }

  /** Run number `k` exists, and this is its record. */
  predicate IsRun(s: State, k: nat) {
    k < |s.past| || (k == |s.past| && !s.worker.Idle?)
  }

  function RunAt(s: State, k: nat): Run
    requires IsRun(s, k)
  {
    if k < |s.past| then s.past[k] else s.run
  }

  lemma {:induction false} PossibleConcat(s: State, t: seq<Action>, u: seq<Action>)
    requires Possible(s, t) && Possible(After(s, t), u)
    ensures Possible(s, t + u)
    ensures After(s, t + u) == After(After(s, t), u)
    decreases |t|
  {
    if t == [] {
      assert t + u == u;
    } else {
      assert (t + u)[1..] == t[1..] + u;
      PossibleConcat(Apply(s, t[0]), t[1..], u);
    }
  }

  /** The trace leads from `start` to `s`. */
  ghost predicate Leads(start: State, trace: seq<Action>, s: State) {
    Possible(start, trace) && After(start, trace) == s
  }

  lemma NoSteps(s: State)
    ensures Leads(s, [], s)
  {}

  lemma OneMore(start: State, trace: seq<Action>, s: State, a: Action) returns (trace': seq<Action>, s': State)
    requires Leads(start, trace, s) && Enabled(s, a)
    ensures s' == Apply(s, a) && trace' == trace + [a] && Leads(start, trace', s')
  {
    hide Apply, Enabled;
    trace', s' := trace + [a], Apply(s, a);
    assert Possible(s, [a]) && After(s, [a]) == s' by {
      assert [a][1..] == [];
    }
    PossibleConcat(start, trace, [a]);
  }
}
