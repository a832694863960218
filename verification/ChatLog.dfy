/** What each step of the worker adds to the event log of its run. */
module ChatLog {
  import opened ChatTypes
  import opened Compaction
  import opened ChatMachine
  import opened ChatInvariants

  function Cancellation(s: State): seq<Event> {
    [RunCancelled(s.run.assistantId), Finished(s.run.assistantId)]
  }

  function Shrinking(removed: nat): seq<Event> {
    if removed > 0 then [HistoryCompacted(removed)] else []
  }

  function SaidAtEntry(s: State, a: EntryAction): seq<Event>
    requires EntryEnabled(s, a)
  {
    match a
    case Announce => [PromptActive(s.run.prompt.id)]
    case Enter(found) =>
      if found then []
      else [PromptComplete(s.run.prompt.id), RunError(s.nextId, "No provider registered."), Finished(s.nextId)]
    case ChooseCompaction(plan) => if plan.Truncate? then Shrinking(Removed(s.history, plan.keep)) else []
    case ReceiveSummary(_) => Shrinking(Removed(s.history, s.worker.keep))
    case AppendPrompt => if Stale(s) then [] else [PromptComplete(s.run.prompt.id), Started(s.run.assistantId)]
    case _ => []
  }

  function SaidBySink(s: State, round: Round, e: ProviderEvent): seq<Event> {
    if Stale(s) then []
    else
      match e
      case TextDelta(text) => if text == "" then [] else [Text(s.run.assistantId, text)]
      case ArgumentDelta(callId) =>
        [Arguments(s.run.assistantId, callId, if callId in round.cards then round.cards[callId] else s.nextId)]
      case StreamError(text) => [RunError(s.run.assistantId, text)]
      case Passthrough => [Forwarded]
      case _ => []
  }

  function SaidInRound(s: State, a: RoundAction): seq<Event>
    requires RoundEnabled(s, a)
  {
    match a
    case Receive(e) => SaidBySink(s, s.worker.round, e)
    case EndStream =>
      if Stale(s) then Cancellation(s) else if s.worker.round.failed then [Finished(s.run.assistantId)] else []
    case _ => if Stale(s) then Cancellation(s) else []
  }

  /** The card the call at `i` is run under. */
  function CardOf(s: State, round: Round, i: nat): nat
    requires i < |round.tools|
  {
    if round.tools[i].id in round.cards then round.cards[round.tools[i].id] else s.nextId
  }

  function SaidInTools(s: State, a: ToolAction): seq<Event>
    requires ToolEnabled(s, a)
  {
    match a
    case StartTool =>
      var round, i := s.worker.round, s.worker.next;
      if i < |round.tools| then [ToolStarted(CardOf(s, round, i), round.tools[i].id)] else []
    case FinishTool(_, isError) => [ToolDone(s.worker.card, s.worker.round.tools[s.worker.next].id, isError)]
    case _ => []
  }

  function SaidAtEnd(s: State, a: EndAction): seq<Event>
    requires EndEnabled(s, a)
  {
    match a
    case CheckStopAfterRound => if s.stopRequested then Cancellation(s) else []
    case CheckGenerationAfterRound => if Stale(s) then Cancellation(s) else []
    case AppendFinal =>
      if s.worker.round.text != "" && Stale(s) then Cancellation(s)
      else [AssistantDone(s.run.assistantId), Finished(s.run.assistantId)]
    case Drain => []
  }

  function SaidBy(s: State, a: Action): seq<Event>
    requires Enabled(s, a)
  {
    match a
    case ByOthers(_) => []
    case AtEntry(e) => SaidAtEntry(s, e)
    case InRound(r) => SaidInRound(s, r)
    case InTools(t) => SaidInTools(s, t)
    case AtEnd(e) => SaidAtEnd(s, e)
  }

  predicate Adds(s: State, s': State, events: seq<Event>) {
    s'.run.events == s.run.events + events
  }

  lemma CompactingSays(s: State, h: seq<Message>, removed: nat)
    ensures Adds(s, CompactNow(s, h, removed), Shrinking(removed))
  {}

  lemma EntrySays(s: State, a: EntryAction)
    requires EntryEnabled(s, a) && !a.Pop?
    ensures Adds(s, ApplyEntry(s, a), SaidAtEntry(s, a))
  {
    hide Compacted, Removed, Truncated, CompactNow, Shrinking;
    if a.ChooseCompaction? && a.plan.Truncate? {
      CompactingSays(s, Truncated(s.history, a.plan.keep), Removed(s.history, a.plan.keep));
    } else if a.ReceiveSummary? {
      var keep := s.worker.keep;
      CompactingSays(s, Truncated(s.history, keep), Removed(s.history, keep));
      if a.summary.Written? {
        CompactingSays(s, Compacted(s.history, keep, SummaryNote(a.summary.text)), Removed(s.history, keep));
      }
    }
  }

  lemma SinkSays(s: State, round: Round, e: ProviderEvent)
    ensures Adds(s, Sink(s, round, e), SaidBySink(s, round, e))
  {}

  lemma RoundSays(s: State, a: RoundAction)
    requires RoundEnabled(s, a)
    ensures Adds(s, ApplyRound(s, a), SaidInRound(s, a))
  {
    hide Sink, SaidBySink;
    if a.Receive? {
      SinkSays(s, s.worker.round, a.event);
    }
  }

  lemma ToolSays(s: State, a: ToolAction)
    requires ToolEnabled(s, a)
    ensures Adds(s, ApplyTool(s, a), SaidInTools(s, a))
  {}

  lemma EndSays(s: State, a: EndAction)
    requires EndEnabled(s, a)
    ensures Adds(s, ApplyEnd(s, a), SaidAtEnd(s, a))
  {}

  lemma StepSays(s: State, a: Action)
    requires Enabled(s, a) && a != AtEntry(Pop)
    ensures Adds(s, Apply(s, a), SaidBy(s, a))
  {
    hide ApplyOther, ApplyEntry, ApplyRound, ApplyTool, ApplyEnd, SaidAtEntry, SaidInRound, SaidInTools, SaidAtEnd;
    match a
    case ByOthers(o) => OthersMoveForward(s, o);
    case AtEntry(e) => EntrySays(s, e);
    case InRound(r) => RoundSays(s, r);
    case InTools(t) => ToolSays(s, t);
    case AtEnd(e) => EndSays(s, e);
  }
}
