/** Events and text: nothing streamed is lost or stored twice. */
module ChatEvents {
  import opened ChatTypes
  import opened Compaction
  import opened ChatMachine
  import opened ChatInvariants

  /** Text of the assistant messages, in order. */
  function StoredText(ms: seq<Message>): string {
    if ms == [] then []
    else StoredText(ms[..|ms| - 1]) + (if ms[|ms| - 1].role.Assistant? then ms[|ms| - 1].content else "")
  }

  /** Text of the deltas emitted, in order. */
  function StreamedText(es: seq<Event>): string {
    if es == [] then []
    else StreamedText(es[..|es| - 1]) + (if es[|es| - 1].Text? then es[|es| - 1].text else "")
  }

  predicate HasStarted(es: seq<Event>) {
    exists i :: 0 <= i < |es| && es[i].Started?
  }

  predicate SaidDone(es: seq<Event>) {
    exists i :: 0 <= i < |es| && es[i].AssistantDone?
  }

  predicate NoFinished(es: seq<Event>) {
    forall i :: 0 <= i < |es| ==> !es[i].Finished?
  }

  /** Exactly one Finished, and it is last. */
  predicate FinishedLast(es: seq<Event>) {
    es != [] && es[|es| - 1].Finished? && NoFinished(es[..|es| - 1])
  }

  lemma StoredAppend(ms: seq<Message>, m: Message)
    ensures StoredText(ms + [m]) == StoredText(ms) + (if m.role.Assistant? then m.content else "")
  {
    assert (ms + [m])[..|ms|] == ms;
  }

  lemma EventAppend(es: seq<Event>, e: Event)
    ensures StreamedText(es + [e]) == StreamedText(es) + (if e.Text? then e.text else "")
    ensures HasStarted(es + [e]) <==> HasStarted(es) || e.Started?
    ensures SaidDone(es + [e]) <==> SaidDone(es) || e.AssistantDone?
    ensures NoFinished(es + [e]) <==> NoFinished(es) && !e.Finished?
    ensures NoFinished(es) && e.Finished? ==> FinishedLast(es + [e])
  {
    var r := es + [e];
    assert r[..|es|] == es;
    assert r[|es|] == e;
    assert forall i :: 0 <= i < |es| ==> r[i] == es[i];
  }

  /** Emitting one event that is not text, a start, a done or a finish. */
  lemma PlainEvent(es: seq<Event>, e: Event)
    requires !e.Text? && !e.Started? && !e.AssistantDone? && !e.Finished?
    ensures StreamedText(es + [e]) == StreamedText(es)
    ensures HasStarted(es + [e]) == HasStarted(es)
    ensures SaidDone(es + [e]) == SaidDone(es)
    ensures NoFinished(es + [e]) == NoFinished(es)
  {
    EventAppend(es, e);
  }

  /** Text of the round that is not in the history yet. */
  function InFlight(w: Worker): string {
    match w
    case Streaming(round) => round.text
    case RoundDone(round) => round.text
    case ModelDone(round) => round.text
    case _ => ""
  }

  predicate BeforeStart(r: Run) {
    NoFinished(r.events) && !HasStarted(r.events) && !SaidDone(r.events)
    && StreamedText(r.events) == "" && StoredText(r.appended) == ""
  }

  predicate Running(r: Run, inFlight: string) {
    NoFinished(r.events) && !SaidDone(r.events)
    && StreamedText(r.events) == StoredText(r.appended) + inFlight
  }

  /** A run that is over. */
  predicate Ended(r: Run) {
    && (HasStarted(r.events) ==> FinishedLast(r.events))
    && (SaidDone(r.events) ==> StreamedText(r.events) == StoredText(r.appended))
    && StoredText(r.appended) <= StreamedText(r.events)
  }

  predicate EventsOk(s: State) {
    match s.worker
    case Idle => true
    case Returned => Ended(s.run)
    case Popped => BeforeStart(s.run)
    case Announced => BeforeStart(s.run)
    case _ => if Early(s.worker) then BeforeStart(s.run) else Running(s.run, InFlight(s.worker))
  }

  lemma FinishEnds(r: Run, inFlight: string, e: Event)
    requires Running(r, inFlight) && e.Finished?
    ensures Ended(r.(events := r.events + [e]))
  {
    EventAppend(r.events, e);
  }

  lemma CancelEnds(s: State, inFlight: string)
    requires Running(s.run, inFlight)
    ensures Ended(CancelRun(s).run) && CancelRun(s).worker == Returned
  {
    var cancelled := s.run.(events := s.run.events + [RunCancelled(s.run.assistantId)]);
    PlainEvent(s.run.events, RunCancelled(s.run.assistantId));
    FinishEnds(cancelled, inFlight, Finished(s.run.assistantId));
    assert CancelRun(s).run.events == cancelled.events + [Finished(s.run.assistantId)];
  }

  lemma NoProviderEnds(s: State)
    requires EntryEnabled(s, Enter(false)) && BeforeStart(s.run)
    ensures EventsOk(ApplyEntry(s, Enter(false)))
  {
    var es, id := s.run.events, s.nextId;
    var s' := ApplyEntry(s, Enter(false));
    var e0, e1, e2 := PromptComplete(s.run.prompt.id), RunError(id, "No provider registered."), Finished(id);
    PlainEvent(es, e0);
    PlainEvent(es + [e0], e1);
    EventAppend(es + [e0] + [e1], e2);
    assert s'.run.events == es + [e0] + [e1] + [e2];
  }

  lemma StartedRunIsRunning(r: Run, m: Message, e0: Event, e1: Event)
    requires BeforeStart(r) && !m.role.Assistant? && e0.PromptComplete? && e1.Started?
    ensures Running(r.(events := r.events + [e0, e1], appended := r.appended + [m]), "")
  {
    PlainEvent(r.events, e0);
    EventAppend(r.events + [e0], e1);
    StoredAppend(r.appended, m);
    assert r.events + [e0, e1] == r.events + [e0] + [e1];
  }

  lemma PromptStarts(s: State)
    requires EntryEnabled(s, AppendPrompt) && BeforeStart(s.run)
    ensures EventsOk(ApplyEntry(s, AppendPrompt))
  {
    if Stale(s) {
      assert Ended(s.run);
    } else {
      StartedRunIsRunning(s.run, ActiveUserMessage(s.run.prompt.id, s.run.prompt.content, RunNumber(s)),
                          PromptComplete(s.run.prompt.id), Started(s.run.assistantId));
      hide Running, BeforeStart, Ended;
    }
  }

  lemma CompactingIsQuiet(s: State, h: seq<Message>, removed: nat)
    requires BeforeStart(s.run)
    ensures EventsOk(CompactNow(s, h, removed))
  {
    hide StreamedText, StoredText, NoFinished, SaidDone, HasStarted;
    PlainEvent(s.run.events, HistoryCompacted(removed));
    assert s.run.events + [] == s.run.events;
  }

  lemma NothingEmittedYet(prompt: Prompt)
    ensures BeforeStart(NO_RUN.(prompt := prompt))
  {}

  lemma NothingStartedEnds(r: Run)
    requires BeforeStart(r)
    ensures Ended(r)
  {}

  lemma EventsKeptByEntry(s: State, a: EntryAction)
    requires EventsOk(s) && EntryEnabled(s, a)
    ensures EventsOk(ApplyEntry(s, a))
  {
    hide StreamedText, StoredText, NoFinished, SaidDone, HasStarted, Ended, Running, Compacted, Removed, Truncated;
    match a
    case Pop => NothingEmittedYet(s.pending[0]);
    case Announce => PlainEvent(s.run.events, PromptActive(s.run.prompt.id));
    case Enter(found) =>
      if !found {
        NoProviderEnds(s);
      }
    case ChooseCompaction(plan) =>
      hide CompactNow;
      if plan.Truncate? {
        CompactingIsQuiet(s, Truncated(s.history, plan.keep), Removed(s.history, plan.keep));
      }
    case ReceiveSummary(summary) =>
      hide CompactNow;
      CompactingIsQuiet(s, Truncated(s.history, s.worker.keep), Removed(s.history, s.worker.keep));
      if summary.Written? {
        CompactingIsQuiet(s, Compacted(s.history, s.worker.keep, SummaryNote(summary.text)), Removed(s.history, s.worker.keep));
      }
    case CheckEntry => NothingStartedEnds(s.run);
    case AppendPrompt => PromptStarts(s);
    case _ =>
  }

  /** A text delta reaches the round and the event log together. */
  lemma SinkKeepsText(s: State, e: ProviderEvent)
    requires s.worker.Streaming? && Running(s.run, s.worker.round.text)
    ensures EventsOk(Sink(s, s.worker.round, e))
  {
    hide StreamedText, StoredText, NoFinished, SaidDone, HasStarted;
    var es := s.run.events;
    match e
    case TextDelta(text) =>
      EventAppend(es, Text(s.run.assistantId, text));
      assert StoredText(s.run.appended) + (s.worker.round.text + text) == StoredText(s.run.appended) + s.worker.round.text + text;
    case ArgumentDelta(callId) =>
      PlainEvent(es, Arguments(s.run.assistantId, callId, s.nextId));
      if callId in s.worker.round.cards {
        PlainEvent(es, Arguments(s.run.assistantId, callId, s.worker.round.cards[callId]));
      }
    case StreamError(text) => PlainEvent(es, RunError(s.run.assistantId, text));
    case Passthrough => PlainEvent(es, Forwarded);
    case _ =>
  }

  lemma EventsKeptByRound(s: State, a: RoundAction)
    requires EventsOk(s) && RoundEnabled(s, a)
    ensures EventsOk(ApplyRound(s, a))
  {
    hide StreamedText, StoredText, NoFinished, SaidDone, HasStarted, Ended, Sink, CancelRun;
    match a
    case Receive(e) => SinkKeepsText(s, e);
    case BuildRequest => CancelEnds(s, "");
    case EndStream =>
      CancelEnds(s, s.worker.round.text);
      FinishEnds(s.run, s.worker.round.text, Finished(s.run.assistantId));
    case AppendRound =>
      var round := s.worker.round;
      CancelEnds(s, round.text);
      StoredAppend(s.run.appended, AssistantToolRound(s.run.assistantId, round.text, round.tools, RunNumber(s)));
  }

  lemma EventsKeptByStart(s: State)
    requires EventsOk(s) && ToolEnabled(s, StartTool)
    ensures EventsOk(ApplyTool(s, StartTool))
  {
    hide StreamedText, StoredText, NoFinished, SaidDone, HasStarted;
    var round, i := s.worker.round, s.worker.next;
    if i < |round.tools| {
      var id := round.tools[i].id;
      PlainEvent(s.run.events, ToolStarted(s.nextId, id));
      if id in round.cards {
        PlainEvent(s.run.events, ToolStarted(round.cards[id], id));
      }
    }
  }

  lemma EventsKeptByResult(s: State)
    requires EventsOk(s) && ToolEnabled(s, AppendResult)
    ensures EventsOk(ApplyTool(s, AppendResult))
  {
    hide StreamedText, StoredText, NoFinished, SaidDone, HasStarted;
    var w := s.worker;
    StoredAppend(s.run.appended, ToolResultMessage(w.card, w.round.tools[w.next], w.content, w.isError, RunNumber(s)));
  }

  lemma EventsKeptByTool(s: State, a: ToolAction)
    requires EventsOk(s) && ToolEnabled(s, a)
    ensures EventsOk(ApplyTool(s, a))
  {
    hide StreamedText, StoredText, NoFinished, SaidDone, HasStarted;
    match a
    case StartTool => EventsKeptByStart(s);
    case FinishTool(content, isError) =>
      PlainEvent(s.run.events, ToolDone(s.worker.card, s.worker.round.tools[s.worker.next].id, isError));
    case AppendResult => EventsKeptByResult(s);
    case _ =>
  }

  /** The closing message carries the last round's text and nothing else. */
  lemma FinalMessageEnds(s: State)
    requires EndEnabled(s, AppendFinal) && Running(s.run, s.worker.round.text)
    requires s.worker.round.text == "" || !Stale(s)
    ensures EventsOk(ApplyEnd(s, AppendFinal))
  {
    var text, id := s.worker.round.text, s.run.assistantId;
    var m := FinalAssistantMessage(id, text, RunNumber(s));
    FinishedRunIsEnded(s.run, text, m, id);
    hide Running, Ended;
    assert s.run.events + [AssistantDone(id), Finished(id)] == s.run.events + ([AssistantDone(id), Finished(id)]);
  }

  lemma FinishedRunIsEnded(r: Run, text: string, m: Message, id: nat)
    requires Running(r, text) && m.role.Assistant? && m.content == text
    ensures Ended(r.(events := r.events + [AssistantDone(id), Finished(id)], appended := r.appended + [m]))
    ensures text == "" ==> Ended(r.(events := r.events + [AssistantDone(id), Finished(id)]))
  {
    var es, e0, e1 := r.events, AssistantDone(id), Finished(id);
    EventAppend(es, e0);
    EventAppend(es + [e0], e1);
    StoredAppend(r.appended, m);
    assert es + [e0, e1] == es + [e0] + [e1];
  }

  lemma EventsKeptByEnd(s: State, a: EndAction)
    requires EventsOk(s) && EndEnabled(s, a)
    ensures EventsOk(ApplyEnd(s, a))
  {
    hide StreamedText, StoredText, NoFinished, SaidDone, HasStarted, Ended, CancelRun;
    match a
    case AppendFinal =>
      if s.worker.round.text != "" && Stale(s) {
        CancelEnds(s, s.worker.round.text);
      } else {
        FinalMessageEnds(s);
      }
    case CheckStopAfterRound => CancelEnds(s, "");
    case CheckGenerationAfterRound => CancelEnds(s, "");
    case Drain =>
  }

  lemma EventsKeptByOthers(s: State, a: OtherAction)
    requires EventsOk(s) && OtherEnabled(s, a)
    ensures EventsOk(ApplyOther(s, a))
  {
    OthersMoveForward(s, a);
    hide ApplyOther;
  }

  lemma EventsKept(s: State, a: Action)
    requires EventsOk(s) && Enabled(s, a)
    ensures EventsOk(Apply(s, a))
  {
    hide ApplyOther, ApplyEntry, ApplyRound, ApplyTool, ApplyEnd, EventsOk;
    match a
    case ByOthers(o) => EventsKeptByOthers(s, o);
    case AtEntry(e) => EventsKeptByEntry(s, e);
    case InRound(r) => EventsKeptByRound(s, r);
    case InTools(t) => EventsKeptByTool(s, t);
    case AtEnd(e) => EventsKeptByEnd(s, e);
  }

  ghost predicate PastEnded(s: State) {
    forall k :: 0 <= k < |s.past| ==> Ended(s.past[k])
  }

  lemma PastEndedKept(s: State, a: Action)
    requires EventsOk(s) && PastEnded(s) && Enabled(s, a)
    ensures PastEnded(Apply(s, a))
  {
    if Quiet(a) {
      QuietFrame(s, a);
      hide Apply;
    } else if a.ByOthers? {
      OthersMoveForward(s, a.other);
      hide ApplyOther;
    }
    hide Ended;
  }
}
