/** What a run tells its listeners, read as a protocol. */
module ChatLifecycle {
  import opened ChatTypes
  import opened Compaction
  import opened ChatMachine
  import opened ChatInvariants
  import opened ChatRounds
  import opened ChatEvents
  import opened ChatTheorems
  import opened ChatLog

  /** How far a listener has come. `cards` are the cards under which the calls of the round
      streamed their arguments. */
  datatype Phase =
    | Unsaid
    | Begun                                    // the prompt is being worked on
    | Shrunk                                   // and the history was compacted for it
    | PromptDone
    | Refused                                  // there is no provider
    | Talking(cards: map<string, nat>, failed: bool)
    | Using(cards: map<string, nat>, card: nat, callId: string)
    | Used(cards: map<string, nat>)
    | CalledOff
    | Said
    | AllSaid
    | Wrong

  /** A phase, and the last id a card was given. */
  datatype Listener = Listener(phase: Phase, top: nat)

  /** Anything the model says behind a tool opens a new round. */
  function Hearing(phase: Phase): Phase {
    if phase.Used? then Talking(map[], false) else phase
  }

  /** The same card as before, or a new one. */
  function Carded(l: Listener, callId: string, card: nat): Listener {
    var phase := Hearing(l.phase);
    if !phase.Talking? then Listener(Wrong, l.top)
    else if callId in phase.cards then Listener(if card == phase.cards[callId] then phase else Wrong, l.top)
    else if card > l.top then Listener(Talking(phase.cards[callId := card], phase.failed), card)
    else Listener(Wrong, l.top)
  }

  /** A tool is started under the card of its arguments, or under a new one. */
  function Starting(l: Listener, card: nat, callId: string): Listener {
    if !(l.phase.Used? || (l.phase.Talking? && !l.phase.failed)) then Listener(Wrong, l.top)
    else if callId in l.phase.cards && card == l.phase.cards[callId] then
      Listener(Using(l.phase.cards, card, callId), l.top)
    else if (l.phase.Used? || callId !in l.phase.cards) && card > l.top then
      Listener(Using(l.phase.cards, card, callId), card)
    else Listener(Wrong, l.top)
  }

  function Closes(phase: Phase): Phase {
    if phase.Refused? || phase.CalledOff? || phase.Said? || (phase.Talking? && phase.failed) then AllSaid else Wrong
  }

  /** The protocol, for the prompt `prompt` and the answer `answer`. */
  function Follow(l: Listener, prompt: nat, answer: nat, e: Event): Listener {
    var phase := l.phase;
    match e
    case PromptActive(id) => l.(phase := if phase.Unsaid? && id == prompt then Begun else Wrong)
    case HistoryCompacted(n) => l.(phase := if phase.Begun? && n > 0 then Shrunk else Wrong)
    case PromptComplete(id) => l.(phase := if (phase.Begun? || phase.Shrunk?) && id == prompt then PromptDone else Wrong)
    case Started(id) => l.(phase := if phase.PromptDone? && id == answer then Talking(map[], false) else Wrong)
    case RunError(id, _) =>
      l.(phase := if id != answer then Wrong
                  else if phase.PromptDone? then Refused
                  else if Hearing(phase).Talking? then Talking(Hearing(phase).cards, true)
                  else Wrong)
    case Text(id, text) => l.(phase := if id == answer && text != "" && Hearing(phase).Talking? then Hearing(phase) else Wrong)
    case Forwarded => l.(phase := if Hearing(phase).Talking? then Hearing(phase) else Wrong)
    case Arguments(id, callId, card) => if id == answer then Carded(l, callId, card) else l.(phase := Wrong)
    case ToolStarted(card, callId) => Starting(l, card, callId)
    case ToolDone(card, callId, _) =>
      l.(phase := if phase.Using? && phase.card == card && phase.callId == callId then Used(phase.cards) else Wrong)
    case RunCancelled(id) =>
      l.(phase := if id == answer && (phase.Talking? || phase.Using? || phase.Used?) then CalledOff else Wrong)
    case AssistantDone(id) =>
      l.(phase := if id == answer && Hearing(phase).Talking? && !Hearing(phase).failed then Said else Wrong)
    case Finished(id) => l.(phase := if id == answer then Closes(phase) else Wrong)
  }

  function Read(es: seq<Event>, prompt: nat, answer: nat): Listener {
    if es == [] then Listener(Unsaid, answer)
    else Follow(Read(es[..|es| - 1], prompt, answer), prompt, answer, es[|es| - 1])
  }

  lemma ReadOne(es: seq<Event>, prompt: nat, answer: nat, e: Event)
    ensures Read(es + [e], prompt, answer) == Follow(Read(es, prompt, answer), prompt, answer, e)
  {
    assert (es + [e])[..|es|] == es;
  }

  lemma ReadTwo(es: seq<Event>, prompt: nat, answer: nat, e0: Event, e1: Event)
    ensures Read(es + [e0, e1], prompt, answer)
         == Follow(Follow(Read(es, prompt, answer), prompt, answer, e0), prompt, answer, e1)
  {
    assert es + [e0, e1] == es + [e0] + [e1];
    ReadOne(es, prompt, answer, e0);
    ReadOne(es + [e0], prompt, answer, e1);
  }

  function Heard(s: State): Listener {
    Read(s.run.events, s.run.prompt.id, s.run.assistantId)
  }

  // ---------- listener and worker agree ----------

  /** Nothing was streamed under a card in this round, or under these. */
  predicate SameCards(cards: map<string, nat>, round: Round) {
    round.cards == map[] || cards == round.cards
  }

  /** The listener is in the round the worker is in. */
  predicate InThisRound(phase: Phase, round: Round) {
    phase == Talking(round.cards, round.failed) || (phase.Used? && round.cards == map[] && !round.failed)
  }

  predicate Ending(phase: Phase) {
    phase.Begun? || phase.Shrunk? || phase.AllSaid?
  }

  predicate AgreesIn(w: Worker, phase: Phase, stopRequested: bool) {
    match w
    case RoundStart => phase == Talking(map[], false) || phase.Used?
    case Streaming(round) => InThisRound(phase, round)
    case RoundDone(round) => !round.failed && round.tools != [] && InThisRound(phase, round)
    case ModelDone(round) => !round.failed && InThisRound(phase, round)
    case ToolLoop(round, i) =>
      && !round.failed && round.tools != []
      && if i == 0 then InThisRound(phase, round) else phase.Used? && SameCards(phase.cards, round)
    case ToolRunning(round, i, card) =>
      && !round.failed && i < |round.tools| && phase.Using? && SameCards(phase.cards, round)
      && phase.card == card && phase.callId == round.tools[i].id
    case ToolFinished(round, _, _, _, _) => !round.failed && round.tools != [] && phase.Used? && SameCards(phase.cards, round)
    case ToolAppended(round, _) => !round.failed && round.tools != [] && phase.Used? && SameCards(phase.cards, round)
    case ToolsReturned => phase.Used? || (phase.Using? && stopRequested)
    case ToolsReturnedNoStop => phase.Used?
    case Returned => Ending(phase)
    case Entered => phase.Begun?
    case BeforePrompt => phase.Begun?
    case Summarizing(_) => phase.Begun?
    case ReadyToAppend => phase.Begun? || phase.Shrunk?
    case _ => true
  }

  predicate LogOk(s: State) {
    match s.worker
    case Idle => true
    case Popped => s.run.events == []
    case Announced => s.run.events == [PromptActive(s.run.prompt.id)]
    case Captured => s.run.events == [PromptActive(s.run.prompt.id)]
    case _ => Heard(s).top < s.nextId && AgreesIn(s.worker, Heard(s).phase, s.stopRequested)
  }

  lemma NothingHeard(s: State, s': State)
    requires s'.run.events == s.run.events + []
    requires s'.run.prompt == s.run.prompt && s'.run.assistantId == s.run.assistantId
    ensures s'.run.events == s.run.events && Heard(s') == Heard(s)
  {
    assert s.run.events + [] == s.run.events;
  }

  lemma OneHeard(s: State, s': State, e: Event)
    requires s'.run.events == s.run.events + [e]
    requires s'.run.prompt == s.run.prompt && s'.run.assistantId == s.run.assistantId
    ensures Heard(s') == Follow(Heard(s), s.run.prompt.id, s.run.assistantId, e)
  {
    ReadOne(s.run.events, s.run.prompt.id, s.run.assistantId, e);
  }

  lemma TwoHeard(s: State, s': State, e0: Event, e1: Event)
    requires s'.run.events == s.run.events + [e0, e1]
    requires s'.run.prompt == s.run.prompt && s'.run.assistantId == s.run.assistantId
    ensures Heard(s') == Follow(Follow(Heard(s), s.run.prompt.id, s.run.assistantId, e0),
                                s.run.prompt.id, s.run.assistantId, e1)
  {
    ReadTwo(s.run.events, s.run.prompt.id, s.run.assistantId, e0, e1);
  }

  lemma CancellationHeard(s: State)
    requires Heard(s).top < s.nextId
    requires Heard(s).phase.Talking? || Heard(s).phase.Using? || Heard(s).phase.Used?
    ensures LogOk(CancelRun(s))
  {
    TwoHeard(s, CancelRun(s), RunCancelled(s.run.assistantId), Finished(s.run.assistantId));
    hide Heard;
  }

  // ---------- the steps ----------

  /** One event, and where it leaves the listener. */
  lemma LogKeptByOne(s: State, s': State, e: Event)
    requires s'.run.events == s.run.events + [e]
    requires s'.run.prompt == s.run.prompt && s'.run.assistantId == s.run.assistantId
    requires Early(s'.worker) ==> !s'.worker.Captured?
    requires !s'.worker.Idle? && HasCaptured(s'.worker)
    requires var l := Follow(Heard(s), s.run.prompt.id, s.run.assistantId, e);
             l.top < s'.nextId && AgreesIn(s'.worker, l.phase, s'.stopRequested)
    ensures LogOk(s')
  {
    OneHeard(s, s', e);
    hide Heard, Follow, AgreesIn;
  }

  /** A step that says nothing. */
  lemma LogKeptByNone(s: State, s': State)
    requires s'.run.events == s.run.events + []
    requires s'.run.prompt == s.run.prompt && s'.run.assistantId == s.run.assistantId
    requires Early(s'.worker) ==> !s'.worker.Captured?
    requires !s'.worker.Idle? && HasCaptured(s'.worker)
    requires Heard(s).top < s'.nextId && AgreesIn(s'.worker, Heard(s).phase, s'.stopRequested)
    ensures LogOk(s')
  {
    NothingHeard(s, s');
    hide Heard, AgreesIn;
  }

  lemma ToolStartKeepsLog(s: State)
    requires LogOk(s) && s.worker.ToolLoop? && s.worker.next < |s.worker.round.tools|
    ensures LogOk(ApplyTool(s, StartTool))
  {
    ToolSays(s, StartTool);
    var round, i := s.worker.round, s.worker.next;
    hide Heard;
    LogKeptByOne(s, ApplyTool(s, StartTool), ToolStarted(CardOf(s, round, i), round.tools[i].id));
  }

  lemma ToolEndKeepsLog(s: State, content: string, isError: bool)
    requires LogOk(s) && ToolEnabled(s, FinishTool(content, isError))
    ensures LogOk(ApplyTool(s, FinishTool(content, isError)))
  {
    ToolSays(s, FinishTool(content, isError));
    hide Heard;
    LogKeptByOne(s, ApplyTool(s, FinishTool(content, isError)),
                 ToolDone(s.worker.card, s.worker.round.tools[s.worker.next].id, isError));
  }

  lemma SilentToolsKeepLog(s: State, a: ToolAction)
    requires LogOk(s) && ToolEnabled(s, a) && SaidInTools(s, a) == []
    ensures LogOk(ApplyTool(s, a))
  {
    ToolSays(s, a);
    hide Heard;
    var s' := ApplyTool(s, a);
    LogKeptByNone(s, s');
  }

  lemma LogKeptInTools(s: State, a: ToolAction)
    requires LogOk(s) && ToolEnabled(s, a)
    ensures LogOk(ApplyTool(s, a))
  {
    if SaidInTools(s, a) == [] {
      SilentToolsKeepLog(s, a);
    } else if a.StartTool? {
      ToolStartKeepsLog(s);
    } else {
      ToolEndKeepsLog(s, a.content, a.isError);
    }
    hide LogOk, ApplyTool;
  }

  lemma RequestKeepsLog(s: State)
    requires LogOk(s) && RoundEnabled(s, BuildRequest)
    ensures LogOk(ApplyRound(s, BuildRequest))
  {
    RoundSays(s, BuildRequest);
    hide Heard;
    if Stale(s) {
      CancellationHeard(s);
      hide CancelRun;
    } else {
      LogKeptByNone(s, ApplyRound(s, BuildRequest));
    }
  }

  lemma AppendedRoundKeepsLog(s: State)
    requires LogOk(s) && RoundEnabled(s, AppendRound)
    ensures LogOk(ApplyRound(s, AppendRound))
  {
    RoundSays(s, AppendRound);
    hide Heard;
    if Stale(s) {
      CancellationHeard(s);
      hide CancelRun;
    } else {
      LogKeptByNone(s, ApplyRound(s, AppendRound));
    }
  }

  lemma StreamEndKeepsLog(s: State)
    requires LogOk(s) && RoundEnabled(s, EndStream)
    ensures LogOk(ApplyRound(s, EndStream))
  {
    RoundSays(s, EndStream);
    hide Heard;
    if Stale(s) {
      CancellationHeard(s);
      hide CancelRun;
    } else if s.worker.round.failed {
      FailureKeepsLog(s);
      hide LogOk, ApplyRound;
    } else {
      LogKeptByNone(s, ApplyRound(s, EndStream));
    }
  }

  lemma FailureKeepsLog(s: State)
    requires LogOk(s) && s.worker.Streaming? && !Stale(s) && s.worker.round.failed
    ensures LogOk(ApplyRound(s, EndStream))
  {
    RoundSays(s, EndStream);
    hide Heard;
    LogKeptByOne(s, ApplyRound(s, EndStream), Finished(s.run.assistantId));
  }

  lemma SinkKeepsLog(s: State, e: ProviderEvent)
    requires LogOk(s) && s.worker.Streaming?
    ensures LogOk(Sink(s, s.worker.round, e))
  {
    var s' := Sink(s, s.worker.round, e);
    var said := SaidBySink(s, s.worker.round, e);
    SinkSays(s, s.worker.round, e);
    SinkFrame(s, s.worker.round, e);
    hide Heard;
    if said == [] {
      LogKeptByNone(s, s');
    } else {
      LogKeptByOne(s, s', said[0]);
    }
  }

  lemma LogKeptInRound(s: State, a: RoundAction)
    requires LogOk(s) && RoundEnabled(s, a)
    ensures LogOk(ApplyRound(s, a))
  {
    match a
    case Receive(e) => SinkKeepsLog(s, e); hide LogOk, Sink;
    case BuildRequest => RequestKeepsLog(s); hide *;
    case EndStream => StreamEndKeepsLog(s); hide *;
    case AppendRound => AppendedRoundKeepsLog(s); hide *;
  }

  lemma LogKeptAtEnd(s: State, a: EndAction)
    requires LogOk(s) && EndEnabled(s, a) && !a.Drain?
    ensures LogOk(ApplyEnd(s, a))
  {
    EndSays(s, a);
    hide Heard;
    if SaidAtEnd(s, a) == Cancellation(s) {
      CancellationHeard(s);
      hide CancelRun;
    } else if a.AppendFinal? {
      DoneKeepsLog(s);
      hide ApplyEnd, LogOk;
    } else {
      LogKeptByNone(s, ApplyEnd(s, a));
    }
  }

  lemma DoneKeepsLog(s: State)
    requires LogOk(s) && EndEnabled(s, AppendFinal) && SaidAtEnd(s, AppendFinal) != Cancellation(s)
    ensures LogOk(ApplyEnd(s, AppendFinal))
  {
    EndSays(s, AppendFinal);
    TwoHeard(s, ApplyEnd(s, AppendFinal), AssistantDone(s.run.assistantId), Finished(s.run.assistantId));
    DoneIsTheEnd(Heard(s), s.run.prompt.id, s.run.assistantId);
    hide Heard, Follow;
  }

  lemma DoneIsTheEnd(l: Listener, prompt: nat, answer: nat)
    requires Hearing(l.phase).Talking? && !Hearing(l.phase).failed
    ensures Follow(Follow(l, prompt, answer, AssistantDone(answer)), prompt, answer, Finished(answer)) == l.(phase := AllSaid)
  {}

  lemma CompactingKeepsLog(s: State, h: seq<Message>, removed: nat)
    requires LogOk(s) && (s.worker.BeforePrompt? || s.worker.Summarizing?)
    ensures LogOk(CompactNow(s, h, removed))
  {
    CompactingSays(s, h, removed);
    CompactNowWorker(s, h, removed);
    hide Heard, CompactNow;
    if removed > 0 {
      LogKeptByOne(s, CompactNow(s, h, removed), HistoryCompacted(removed));
    } else {
      LogKeptByNone(s, CompactNow(s, h, removed));
    }
  }

  lemma LogKeptByCompaction(s: State, a: EntryAction)
    requires LogOk(s) && EntryEnabled(s, a) && (a.ChooseCompaction? || a.ReceiveSummary?)
    ensures LogOk(ApplyEntry(s, a))
  {
    hide Heard, Compacted, Removed, Truncated, CompactNow;
    if a.ReceiveSummary? {
      var keep := s.worker.keep;
      CompactingKeepsLog(s, Truncated(s.history, keep), Removed(s.history, keep));
      if a.summary.Written? {
        CompactingKeepsLog(s, Compacted(s.history, keep, SummaryNote(a.summary.text)), Removed(s.history, keep));
      }
      hide LogOk;
    } else if a.plan.Truncate? {
      CompactingKeepsLog(s, Truncated(s.history, a.plan.keep), Removed(s.history, a.plan.keep));
      hide LogOk;
    } else {
      EntrySays(s, a);
      LogKeptByNone(s, ApplyEntry(s, a));
    }
  }

  lemma PromptIsHeard(prompt: nat, answer: nat)
    ensures Read([PromptActive(prompt)], prompt, answer) == Listener(Begun, answer)
  {
    assert [PromptActive(prompt)][..0] == [];
    assert Read([], prompt, answer) == Listener(Unsaid, answer);
  }

  lemma RefusalIsHeard(prompt: nat, answer: nat, text: string)
    ensures Read([PromptActive(prompt)] + [PromptComplete(prompt), RunError(answer, text), Finished(answer)], prompt, answer)
         == Listener(AllSaid, answer)
  {
    var es := [PromptActive(prompt)];
    PromptIsHeard(prompt, answer);
    ReadTwo(es, prompt, answer, PromptComplete(prompt), RunError(answer, text));
    ReadOne(es + [PromptComplete(prompt), RunError(answer, text)], prompt, answer, Finished(answer));
    assert es + [PromptComplete(prompt), RunError(answer, text), Finished(answer)]
        == es + [PromptComplete(prompt), RunError(answer, text)] + [Finished(answer)];
  }

  lemma EnteringKeepsLog(s: State, found: bool)
    requires LogOk(s) && EntryEnabled(s, Enter(found))
    ensures LogOk(ApplyEntry(s, Enter(found)))
  {
    EntrySays(s, Enter(found));
    PromptIsHeard(s.run.prompt.id, s.nextId);
    RefusalIsHeard(s.run.prompt.id, s.nextId, "No provider registered.");
    hide Read;
    assert s.run.events + [] == s.run.events;
  }

  lemma StartKeepsLog(s: State)
    requires LogOk(s) && EntryEnabled(s, AppendPrompt)
    ensures LogOk(ApplyEntry(s, AppendPrompt))
  {
    EntrySays(s, AppendPrompt);
    if Stale(s) {
      LogKeptByNone(s, ApplyEntry(s, AppendPrompt));
    } else {
      TwoHeard(s, ApplyEntry(s, AppendPrompt), PromptComplete(s.run.prompt.id), Started(s.run.assistantId));
    }
    hide Heard;
  }

  lemma LogKeptAtEntry(s: State, a: EntryAction)
    requires LogOk(s) && EntryEnabled(s, a)
    ensures LogOk(ApplyEntry(s, a))
  {
    hide Heard, Compacted, Removed, Truncated, CompactNow, AgreesIn;
    match a
    case Enter(found) => EnteringKeepsLog(s, found);
    case ChooseCompaction(_) => LogKeptByCompaction(s, a);
    case ReceiveSummary(_) => LogKeptByCompaction(s, a);
    case AppendPrompt => StartKeepsLog(s);
    case CheckEntry => CheckKeepsLog(s);
    case _ =>
  }

  lemma CheckKeepsLog(s: State)
    requires LogOk(s) && EntryEnabled(s, CheckEntry)
    ensures LogOk(ApplyEntry(s, CheckEntry))
  {
    EntrySays(s, CheckEntry);
    hide Heard;
    LogKeptByNone(s, ApplyEntry(s, CheckEntry));
  }

  lemma LogKeptByOthers(s: State, a: OtherAction)
    requires LogOk(s) && OtherEnabled(s, a)
    ensures LogOk(ApplyOther(s, a))
  {
    OthersMoveForward(s, a);
    OthersCountOn(s, a);
    hide ApplyOther, Heard;
    assert Heard(ApplyOther(s, a)) == Heard(s) by {
      hide Read;
    }
  }

  lemma OthersCountOn(s: State, a: OtherAction)
    requires OtherEnabled(s, a)
    ensures ApplyOther(s, a).nextId >= s.nextId
  {
    hide Truncated;
  }

  lemma LogKept(s: State, a: Action)
    requires LogOk(s) && Enabled(s, a)
    ensures LogOk(Apply(s, a))
  {
    hide ApplyOther, ApplyEntry, ApplyRound, ApplyTool, LogOk;
    match a
    case ByOthers(o) => LogKeptByOthers(s, o);
    case AtEntry(e) => LogKeptAtEntry(s, e);
    case InRound(r) => LogKeptInRound(s, r);
    case InTools(t) => LogKeptInTools(s, t);
    case AtEnd(e) =>
      if e.Drain? {
        NothingIsUnderWay(ApplyEnd(s, e));
      } else {
        LogKeptAtEnd(s, e);
      }
  }

  lemma NothingIsUnderWay(s: State)
    requires s.worker.Idle?
    ensures LogOk(s)
  {}

  /** A run that is over has said all, or nothing beyond that it had begun. */
  ghost predicate PastThrough(s: State) {
    forall k :: 0 <= k < |s.past| ==> Through(s.past[k])
  }

  predicate Through(r: Run) {
    Ending(Read(r.events, r.prompt.id, r.assistantId).phase)
  }

  lemma PastThroughKept(s: State, a: Action)
    requires LogOk(s) && PastThrough(s) && Enabled(s, a)
    ensures PastThrough(Apply(s, a))
  {
    hide Read;
    if Quiet(a) {
      QuietFrame(s, a);
      hide Apply;
    } else if a.ByOthers? {
      OthersMoveForward(s, a.other);
      hide ApplyOther;
    }
  }

  lemma {:induction false} LogsAlways(s: State, trace: seq<Action>)
    requires LogOk(s) && PastThrough(s) && Possible(s, trace)
    ensures LogOk(After(s, trace)) && PastThrough(After(s, trace))
    decreases |trace|
  {
    hide LogOk, PastThrough, Enabled, Apply;
    if trace == [] {
    } else {
      LogKept(s, trace[0]);
      PastThroughKept(s, trace[0]);
      LogsAlways(Apply(s, trace[0]), trace[1..]);
    }
  }

  /** Every run tells its listeners a story they can follow: the prompt is begun; the
      history may be compacted, once and by something; then either there is no provider,
      or the prompt is done with and the answer starts; the answer is text, arguments of
      calls, errors, and tools that are started and finished one by one, under the card
      their arguments were streamed under or a new one; and it ends finished, after an
      error, a cancellation or the word that it is done, with nothing behind that. A run
      that is over has come to that end, or had not started to answer. */
  lemma LogsCanBeFollowed(trace: seq<Action>, k: nat)
    requires Possible(INIT, trace) && IsRun(After(INIT, trace), k)
    ensures var s := After(INIT, trace);
            var r := RunAt(s, k);
            var phase := Read(r.events, r.prompt.id, r.assistantId).phase;
            && !phase.Wrong?
            && (k < |s.past| ==> phase.Begun? || phase.Shrunk? || phase.AllSaid?)
  {
    LogsAlways(INIT, trace);
    var s := After(INIT, trace);
    hide Possible, After;
    if k < |s.past| {
      assert Through(s.past[k]);
    } else {
      PromptIsHeard(s.run.prompt.id, s.run.assistantId);
      assert Read([], s.run.prompt.id, s.run.assistantId).phase.Unsaid?;
    }
    hide Read;
  }
}
