/** The chat engine in the form it runs: fields that critical sections update, and a
    worker that goes through its prompts with other threads getting in at every step.
    Each section is one step of the step system, so everything the worker does, under
    any interleaving, is one of its runs. */
module ChatEngine {
  import opened ChatTypes
  import opened Compaction
  import opened ChatMachine
  import opened ChatInvariants
  import opened ChatEvents
  import opened ChatTheorems
  import opened ChatRequests
  import opened ChatCancel
  import ChatLifecycle
  import ChatQueue
  import ChatRecord

  /** What the outside will do: the other threads at each point where they get in,
      the model round by round, and the tools. */
  datatype ToolOutcome = ToolOutcome(content: string, isError: bool, stoppedAtGate: bool)

  datatype World = World(
    others: seq<seq<OtherAction>>,
    providerFound: seq<bool>,
    compactions: seq<CompactionPlan>,
    summaries: seq<Summary>,
    rounds: seq<seq<ProviderEvent>>,
    tools: seq<ToolOutcome>)

  datatype Stop = Aborted | StreamFailed | ModelFinished | CallTools

  ghost predicate Took(s: State, a: Action, s': State) {
    Enabled(s, a) && s' == Apply(s, a)
  }

  /** What an event other than an argument fragment makes of the round. */
  function NextRound(round: Round, e: ProviderEvent): Round
    requires !e.ArgumentDelta?
  {
    match e
    case ToolCallRequested(calls) => round.(tools := calls)
    case TextDelta(text) => if text == "" then round else round.(text := round.text + text)
    case StreamError(_) => round.(failed := true)
    case _ => round
  }

  function Said(assistantId: nat, e: ProviderEvent): seq<Event> {
    match e
    case TextDelta(text) => if text == "" then [] else [Text(assistantId, text)]
    case StreamError(text) => [RunError(assistantId, text)]
    case Passthrough => [Forwarded]
    case _ => []
  }

  lemma SinkSays(s: State, round: Round, e: ProviderEvent)
    requires s.worker == Streaming(round) && !Stale(s) && !e.ArgumentDelta?
    ensures Sink(s, round, e)
         == s.(worker := Streaming(NextRound(round, e)), run := s.run.(events := s.run.events + Said(s.run.assistantId, e)))
  {
    assert s.run.events + [] == s.run.events;
  }

  /** What an argument fragment makes of the round, and its card. */
  function WithCard(round: Round, callId: string, id: nat): (next: Round)
    ensures callId in next.cards
  {
    if callId in round.cards then round else round.(cards := round.cards[callId := id])
  }

  lemma SinkArgues(s: State, round: Round, callId: string)
    requires s.worker == Streaming(round) && !Stale(s)
    ensures var next := WithCard(round, callId, s.nextId);
            Sink(s, round, ArgumentDelta(callId))
              == s.(worker := Streaming(next), nextId := if callId in round.cards then s.nextId else s.nextId + 1,
                    run := s.run.(events := s.run.events + [Arguments(s.run.assistantId, callId, next.cards[callId])]))
  {}

  /** The note a summary leaves behind, or its failure. */
  function NoteFor(h: seq<Message>, keep: nat, summary: Summary): Message {
    match summary
    case Written(text) => SummaryNote(text)
    case Failed(_) => TruncationNote(Removed(h, keep))
  }

  lemma SummaryIs(s: State, summary: Summary)
    requires s.worker.Summarizing?
    ensures var keep := s.worker.keep;
            var removed := Removed(s.history, keep);
            && Enabled(s, AtEntry(ReceiveSummary(summary)))
            && Apply(s, AtEntry(ReceiveSummary(summary)))
              == s.(history := Compacted(s.history, keep, NoteFor(s.history, keep, summary)), worker := ReadyToAppend,
                    run := s.run.(events := s.run.events + if removed > 0 then [HistoryCompacted(removed)] else []))
  {
    hide Compacted, Removed;
  }

  lemma EnterIs(s: State, providerFound: bool)
    requires s.worker.Captured?
    ensures var id := s.nextId;
            var said := [PromptComplete(s.run.prompt.id), RunError(id, "No provider registered."), Finished(id)];
            ApplyEntry(s, Enter(providerFound))
              == s.(nextId := id + 1, worker := if providerFound then Entered else Returned,
                    run := s.run.(assistantId := id, events := s.run.events + if providerFound then [] else said))
  {
    assert s.run.events + [] == s.run.events;
  }

  lemma RemovedIs(h: seq<Message>, keep: nat, note: Message)
    ensures Removed(h, keep) == 0 ==> Compacted(h, keep, note) == h
    ensures Removed(h, keep) > 0 ==> CountNonSystem(h) > keep && Removed(h, keep) == CountNonSystem(h) - keep
  {}

  /** The listeners could follow what a run told them, and its record agrees with it. */
  ghost predicate Told(r: Run) {
    && ChatLifecycle.Ending(ChatLifecycle.Read(r.events, r.prompt.id, r.assistantId).phase)
    && ChatRecord.Numbered(r)
  }

  /** What the other threads leave alone. */
  predicate OnlyOthers(s: State, s': State) {
    s'.worker == s.worker && s'.run == s.run && s'.past == s.past && s'.active == s.active
  }

  class ChatService {
    var generation: nat
    var epoch: nat                       // how often a reset has cleared the history
    var pending: seq<Prompt>
    var active: bool
    var stopRequested: bool
    var closing: bool
    var nextId: nat
    var resets: map<nat, ResetPhase>
    const history: ChatHistory
    var run: Run                         // what the current prompt appended and emitted
    var past: seq<Run>
    var world: World
    ghost var worker: Worker             // where the worker is
    ghost var trace: seq<Action>         // every step taken so far

    ghost function View(): State
      reads this, history
    {
      State(generation, epoch, pending, active, stopRequested, closing, history.messages, nextId, resets, worker, run, past)
    }

    /** The state is the one the steps so far lead to. */
    ghost predicate Valid()
      reads this, history
    {
      Possible(INIT, trace) && After(INIT, trace) == View()
    }

    constructor (world: World)
      ensures Valid() && trace == [] && this.world == world && fresh(history)
    {
      generation, epoch, pending, nextId, resets := 0, 0, [], 1, map[];
      active, stopRequested, closing := false, false, false;
      history := new ChatHistory();
      run, past, worker, trace := NO_RUN, [], Idle, [];
      this.world := world;
    }

    ghost method Log(s: State, a: Action)
      requires Possible(INIT, trace) && After(INIT, trace) == s && Took(s, a, View())
      modifies `trace
      ensures Valid() && trace == old(trace) + [a]
    {
      hide Possible, After, Enabled, Apply;
      var trace', _ := OneMore(INIT, trace, s, a);
      trace := trace';
    }

    // ---------- the other threads ----------

    method SubmitUserMessage(content: string) returns (id: nat)
      requires Valid()
      modifies `pending, `nextId, `trace
      ensures Valid() && Took(old(View()), ByOthers(Submit(content)), View())
      ensures trace == old(trace) + [ByOthers(Submit(content))]
      ensures id == old(nextId) && pending == old(pending) + [Prompt(id, content)]
    {
      hide Possible, After, ApplyEntry, ApplyRound, ApplyTool, ApplyEnd;
      ghost var s := View();
      id := nextId;
      nextId := nextId + 1;
      pending := pending + [Prompt(id, content)];
      Log(s, ByOthers(Submit(content)));
    }

    // `CancelActiveResponse` in its two steps: the generation, then the stop token, which
    // the worker reads without the lock. The second is `StopActivePrompt`.

    method CancelBumpGeneration()
      requires Valid()
      modifies `generation, `trace
      ensures Valid() && Took(old(View()), ByOthers(Cancel), View())
      ensures trace == old(trace) + [ByOthers(Cancel)]
      ensures active && HasCaptured(worker) ==> Outdated(View(), |past|)
    {
      InvariantHoldsInitially();
      InvariantAlways(INIT, trace);
      hide Possible, After, ApplyEntry, ApplyRound, ApplyTool, ApplyEnd, Isolated, Projected, EventsOk, PastEnded;
      ghost var s := View();
      if active {
        generation := generation + 1;
      }
      Log(s, ByOthers(Cancel));
    }

    /** An idle engine gets the continuation as a prompt, a busy one in its history. */
    method InjectSubAgentContinuation(body: string)
      requires Valid()
      modifies `pending, `nextId, `trace, history
      ensures Valid() && Took(old(View()), ByOthers(Inject(body)), View())
      ensures trace == old(trace) + [ByOthers(Inject(body))]
    {
      hide Possible, After, ApplyEntry, ApplyRound, ApplyTool, ApplyEnd;
      ghost var s := View();
      var id := nextId;
      nextId := nextId + 1;
      var wasIdle := !active && pending == [];
      if wasIdle {
        pending := pending + [Prompt(id, body)];
      } else {
        history.messages := history.messages + [Continuation(id, body)];
      }
      Log(s, ByOthers(Inject(body)));
    }

    method CompactConversation(keepLast: nat)
      requires Valid()
      modifies `trace, history
      ensures Valid() && Took(old(View()), ByOthers(CompactManually(keepLast)), View())
      ensures trace == old(trace) + [ByOthers(CompactManually(keepLast))]
    {
      hide Possible, After, Truncated, ApplyEntry, ApplyRound, ApplyTool, ApplyEnd;
      ghost var s := View();
      if !active && pending == [] {
        history.CompactHistory(keepLast);
      }
      Log(s, ByOthers(CompactManually(keepLast)));
    }

    // The destructor in its two sections; the first also ends a cancellation.

    method StopActivePrompt()
      requires Valid()
      modifies `stopRequested, `trace
      ensures Valid() && Took(old(View()), ByOthers(StopActive), View())
      ensures trace == old(trace) + [ByOthers(StopActive)]
    {
      hide Possible, After, ApplyEntry, ApplyRound, ApplyTool, ApplyEnd;
      ghost var s := View();
      if active {
        stopRequested := true;
      }
      Log(s, ByOthers(StopActive));
    }

    method StopWorkerThread()
      requires Valid()
      modifies `closing, `trace
      ensures Valid() && Took(old(View()), ByOthers(StopWorker), View())
      ensures trace == old(trace) + [ByOthers(StopWorker)]
    {
      hide Possible, After, ApplyEntry, ApplyRound, ApplyTool, ApplyEnd;
      ghost var s := View();
      closing := true;
      Log(s, ByOthers(StopWorker));
    }

    // `ResetConversation` in its four sections; the wait may time out.

    method ResetBumpGeneration(thread: nat)
      requires Valid() && thread !in resets
      modifies `generation, `resets, `trace
      ensures Valid() && Took(old(View()), ByOthers(ResetBump(thread)), View())
      ensures trace == old(trace) + [ByOthers(ResetBump(thread))]
    {
      hide Possible, After, ApplyEntry, ApplyRound, ApplyTool, ApplyEnd;
      ghost var s := View();
      generation := generation + 1;
      resets := resets[thread := Bumped];
      Log(s, ByOthers(ResetBump(thread)));
    }

    method ResetDropQueue(thread: nat)
      requires Valid() && thread in resets && resets[thread] == Bumped
      modifies `pending, `stopRequested, `resets, `trace
      ensures Valid() && Took(old(View()), ByOthers(ResetClearQueue(thread)), View())
      ensures trace == old(trace) + [ByOthers(ResetClearQueue(thread))]
    {
      hide Possible, After, ApplyEntry, ApplyRound, ApplyTool, ApplyEnd;
      ghost var s := View();
      pending := [];
      if active {
        stopRequested := true;
      }
      resets := resets[thread := QueueCleared];
      Log(s, ByOthers(ResetClearQueue(thread)));
    }

    method ResetDrain(thread: nat, timedOut: bool)
      requires Valid() && thread in resets && resets[thread] == QueueCleared && (timedOut || !active)
      modifies `resets, `trace
      ensures Valid() && Took(old(View()), ByOthers(ResetWait(thread, timedOut)), View())
      ensures trace == old(trace) + [ByOthers(ResetWait(thread, timedOut))]
    {
      hide Possible, After, ApplyEntry, ApplyRound, ApplyTool, ApplyEnd;
      ghost var s := View();
      resets := resets[thread := Waited];
      Log(s, ByOthers(ResetWait(thread, timedOut)));
    }

    method ResetClearHistory(thread: nat)
      requires Valid() && thread in resets && resets[thread] == Waited
      modifies `generation, `epoch, `resets, `trace, history
      ensures Valid() && Took(old(View()), ByOthers(ResetClear(thread)), View())
      ensures trace == old(trace) + [ByOthers(ResetClear(thread))]
    {
      hide Possible, After, ApplyEntry, ApplyRound, ApplyTool, ApplyEnd;
      ghost var s := View();
      generation := generation + 1;
      epoch := epoch + 1;
      history.messages := [];
      resets := resets - {thread};
      Log(s, ByOthers(ResetClear(thread)));
    }

    /** One step of another thread; a reset section out of turn is skipped. */
    method OtherStep(a: OtherAction)
      requires Valid()
      modifies `generation, `epoch, `pending, `stopRequested, `closing, `nextId, `resets, `trace, history
      ensures Valid() && old(trace) <= trace && OnlyOthers(old(View()), View())
      ensures OtherEnabled(old(View()), a) ==> Took(old(View()), ByOthers(a), View())
      ensures !OtherEnabled(old(View()), a) ==> View() == old(View())
    {
      hide Possible, After, Truncated;
      ghost var s := View();
      if OtherEnabled(s, a) {
        OthersMoveForward(s, a);
      }
      hide Apply;
      match a
      case Submit(content) => var _ := SubmitUserMessage(content);
      case Cancel => CancelBumpGeneration();
      case Inject(body) => InjectSubAgentContinuation(body);
      case CompactManually(keepLast) => CompactConversation(keepLast);
      case StopActive => StopActivePrompt();
      case StopWorker => StopWorkerThread();
      case ResetBump(thread) =>
        if thread !in resets {
          ResetBumpGeneration(thread);
        }
      case ResetClearQueue(thread) =>
        if thread in resets && resets[thread] == Bumped {
          ResetDropQueue(thread);
        }
      case ResetWait(thread, timedOut) =>
        if thread in resets && resets[thread] == QueueCleared && (timedOut || !active) {
          ResetDrain(thread, timedOut);
        }
      case ResetClear(thread) =>
        if thread in resets && resets[thread] == Waited {
          ResetClearHistory(thread);
        }
    }

    /** The worker is between two steps: the other threads get in. */
    method Yield()
      requires Valid()
      modifies this, history
      ensures Valid() && old(trace) <= trace
      ensures worker == old(worker) && run == old(run) && past == old(past) && active == old(active)
      ensures world == old(world).(others := world.others)
    {
      hide Possible, After, Took;
      if world.others == [] {
        return;
      }
      var steps := world.others[0];
      world := world.(others := world.others[1..]);
      for i := 0 to |steps|
        invariant Valid() && old(trace) <= trace && OnlyOthers(old(View()), View())
        invariant world == old(world).(others := old(world).others[1..])
      {
        OtherStep(steps[i]);
      }
    }

    // ---------- the worker: sections of `WorkerLoop` and `ProcessPrompt` ----------

    method PopPrompt() returns (prompt: Prompt)
      requires Valid() && worker.Idle? && pending != [] && !closing
      modifies `pending, `active, `stopRequested, `run, `worker, `trace
      ensures Valid() && Took(old(View()), AtEntry(Pop), View()) && trace == old(trace) + [AtEntry(Pop)]
      ensures worker.Popped? && run.prompt == prompt
      ensures prompt in old(pending) && forall p :: p in old(pending) ==> prompt.id <= p.id
    {
      ChatQueue.OldestFirst(View(), trace);
      hide Possible, After, ApplyOther, ApplyRound, ApplyTool, ApplyEnd;
      ghost var s := View();
      prompt := pending[0];
      pending := pending[1..];
      active, stopRequested := true, false;
      run, worker := NO_RUN.(prompt := prompt), Popped;
      Log(s, AtEntry(Pop));
    }

    method Emit(events: seq<Event>)
      modifies `run
      ensures run == old(run).(events := old(run).events + events)
    {
      run := run.(events := run.events + events);
    }

    method AnnouncePrompt(prompt: Prompt)
      requires Valid() && worker.Popped? && run.prompt == prompt
      modifies `run, `worker, `trace
      ensures Valid() && Took(old(View()), AtEntry(Announce), View()) && trace == old(trace) + [AtEntry(Announce)]
      ensures worker.Announced? && run.prompt == prompt
    {
      hide Possible, After, ApplyOther, ApplyRound, ApplyTool, ApplyEnd;
      ghost var s := View();
      Emit([PromptActive(prompt.id)]);
      worker := Announced;
      Log(s, AtEntry(Announce));
    }

    /** `generation_.load()`, outside the lock. */
    method CaptureGeneration(prompt: Prompt) returns (captured: nat)
      requires Valid() && worker.Announced? && run.prompt == prompt
      modifies `run, `worker, `trace
      ensures Valid() && Took(old(View()), AtEntry(Capture), View()) && trace == old(trace) + [AtEntry(Capture)]
      ensures worker.Captured? && run.prompt == prompt && run.generation == captured
    {
      hide Possible, After, ApplyOther, ApplyRound, ApplyTool, ApplyEnd;
      ghost var s := View();
      captured := generation;
      run, worker := run.(captured := true, generation := captured, epoch := epoch), Captured;
      Log(s, AtEntry(Capture));
    }

    method EnterPrompt(prompt: Prompt, providerFound: bool) returns (assistantId: nat)
      requires Valid() && worker.Captured? && run.prompt == prompt
      modifies `nextId, `run, `worker, `trace
      ensures Valid() && Took(old(View()), AtEntry(Enter(providerFound)), View())
      ensures trace == old(trace) + [AtEntry(Enter(providerFound))]
      ensures run.prompt == prompt && run.generation == old(run).generation && run.assistantId == assistantId
      ensures worker == if providerFound then Entered else Returned
    {
      hide Possible, After, ApplyOther, ApplyRound, ApplyTool, ApplyEnd;
      ghost var s := View();
      EnterIs(s, providerFound);
      hide ApplyEntry;
      assistantId := nextId;
      nextId := nextId + 1;
      run := run.(assistantId := assistantId);
      assert run.events + [] == run.events;
      if !providerFound {
        Emit([PromptComplete(prompt.id), RunError(assistantId, "No provider registered."), Finished(assistantId)]);
        worker := Returned;
      } else {
        worker := Entered;
      }
      Log(s, AtEntry(Enter(providerFound)));
    }

    method CheckEntryGeneration(captured: nat) returns (aborted: bool)
      requires Valid() && worker.Entered? && run.generation == captured
      modifies `worker, `trace
      ensures Valid() && Took(old(View()), AtEntry(CheckEntry), View()) && trace == old(trace) + [AtEntry(CheckEntry)]
      ensures worker == if aborted then Returned else BeforePrompt
    {
      hide Possible, After, ApplyOther, ApplyRound, ApplyTool, ApplyEnd;
      ghost var s := View();
      aborted := generation != captured;
      worker := if aborted then Returned else BeforePrompt;
      Log(s, AtEntry(CheckEntry));
    }

    method AppendUserPrompt(prompt: Prompt, assistantId: nat, captured: nat) returns (aborted: bool)
      requires Valid() && worker.ReadyToAppend?
      requires run.prompt == prompt && run.assistantId == assistantId && run.generation == captured
      modifies `run, `worker, `trace, history
      ensures Valid() && Took(old(View()), AtEntry(AppendPrompt), View()) && trace == old(trace) + [AtEntry(AppendPrompt)]
      ensures run.assistantId == assistantId && run.generation == captured
      ensures worker == if aborted then Returned else RoundStart
    {
      hide Possible, After, ApplyOther, ApplyRound, ApplyTool, ApplyEnd;
      ghost var s := View();
      aborted := generation != captured;
      if aborted {
        worker := Returned;
      } else {
        history.AppendActiveUserMessage(prompt.id, prompt.content, |past|);
        run := run.(appended := run.appended + [ActiveUserMessage(prompt.id, prompt.content, |past|)]);
        Emit([PromptComplete(prompt.id), Started(assistantId)]);
        worker := RoundStart;
      }
      Log(s, AtEntry(AppendPrompt));
    }

    // ---------- automatic compaction ----------

    method NoteCompaction(removed: nat)
      modifies `run
      ensures run == old(run).(events := old(run).events + if removed > 0 then [HistoryCompacted(removed)] else [])
    {
      if removed > 0 {
        run := run.(events := run.events + [HistoryCompacted(removed)]);
      } else {
        assert run.events + [] == run.events;
      }
    }

    method BeginCompaction(plan: CompactionPlan) returns (pending: bool)
      requires Valid() && worker.BeforePrompt?
      modifies `run, `worker, `trace, history
      ensures Valid() && Took(old(View()), AtEntry(ChooseCompaction(plan)), View())
      ensures trace == old(trace) + [AtEntry(ChooseCompaction(plan))]
      ensures run == old(run).(events := run.events)
      ensures if pending then plan.Summarize? && worker == Summarizing(plan.keep) else worker.ReadyToAppend?
    {
      hide Possible, After, Truncated, Removed, ApplyOther, ApplyRound, ApplyTool, ApplyEnd;
      ghost var s := View();
      pending := false;
      worker := ReadyToAppend;
      match plan {
        case NoCompaction =>
        case Truncate(keep) =>
          var outcome := history.RunTruncate(keep);
          NoteCompaction(outcome.messagesRemoved);
        case Summarize(keep) =>
          var slice := SnapshotSlice(history.messages, keep);
          if slice.dropCount != 0 {
            pending := true;
            worker := Summarizing(keep);
          }
      }
      Log(s, AtEntry(ChooseCompaction(plan)));
    }

    /** The summary came back; the slice is computed again from the history as it is now. */
    /** The slice is found again and replaced, or the history truncated. */
    method ReplaceSlice(keep: nat, summary: Summary) returns (removed: nat)
      modifies history
      ensures removed == Removed(old(history.messages), keep)
      ensures history.messages == Compacted(old(history.messages), keep, NoteFor(old(history.messages), keep, summary))
    {
      match summary {
        case Failed(_) =>
          var outcome := history.RunTruncate(keep);
          removed := outcome.messagesRemoved;
        case Written(text) =>
          hide Compacted, Removed;
          var slice := SnapshotSlice(history.messages, keep);
          RemovedIs(history.messages, keep, SummaryNote(text));
          if slice.dropCount != 0 {
            history.ReplaceSliceWithSummary(slice.leadingSystem, slice.dropCount, text, keep);
          }
          removed := slice.dropCount;
      }
    }

    method FinishCompaction(keep: nat, summary: Summary)
      requires Valid() && worker == Summarizing(keep)
      modifies `run, `worker, `trace, history
      ensures Valid() && Took(old(View()), AtEntry(ReceiveSummary(summary)), View())
      ensures trace == old(trace) + [AtEntry(ReceiveSummary(summary))]
      ensures run == old(run).(events := run.events) && worker.ReadyToAppend?
    {
      hide Possible, After, Compacted, Removed, NoteFor, Apply;
      ghost var s := View();
      SummaryIs(s, summary);
      var removed := ReplaceSlice(keep, summary);
      NoteCompaction(removed);
      worker := ReadyToAppend;
      Log(s, AtEntry(ReceiveSummary(summary)));
    }

    // ---------- one model round ----------

    /** `EmitCancellation`, on the way out of `ProcessPrompt`. */
    method EmitCancellation(assistantId: nat)
      modifies `run, `worker
      ensures run == old(run).(events := old(run).events + [RunCancelled(assistantId), Finished(assistantId)])
      ensures worker == Returned
    {
      Emit([RunCancelled(assistantId), Finished(assistantId)]);
      worker := Returned;
    }

    method BuildRoundRequest(assistantId: nat, captured: nat) returns (aborted: bool)
      requires Valid() && worker.RoundStart? && run.assistantId == assistantId && run.generation == captured
      modifies `run, `worker, `trace
      ensures Valid() && Took(old(View()), InRound(BuildRequest), View()) && trace == old(trace) + [InRound(BuildRequest)]
      ensures run.assistantId == assistantId && run.generation == captured
      ensures worker == if aborted then Returned else Streaming(EMPTY_ROUND)
    {
      hide Possible, After, ApplyOther, ApplyEntry, ApplyTool, ApplyEnd;
      ghost var s := View();
      aborted := generation != captured;
      if aborted {
        EmitCancellation(assistantId);
      } else {
        run := run.(requests := run.requests + [Request(history.messages, |run.appended|)]);
        worker := Streaming(EMPTY_ROUND);
      }
      Log(s, InRound(BuildRequest));
    }

    /** The sink, for one event of the stream. */
    method HandleEvent(outcome: Round, e: ProviderEvent, assistantId: nat, captured: nat) returns (next: Round)
      requires Valid() && worker == Streaming(outcome) && run.assistantId == assistantId && run.generation == captured
      modifies `nextId, `run, `worker, `trace
      ensures Valid() && Took(old(View()), InRound(Receive(e)), View()) && trace == old(trace) + [InRound(Receive(e))]
      ensures run.assistantId == assistantId && run.generation == captured && worker == Streaming(next)
    {
      hide Possible, After, ApplyOther, ApplyEntry, ApplyTool, ApplyEnd;
      ghost var s := View();
      if generation != captured {
        next := outcome;
        Log(s, InRound(Receive(e)));
      } else if e.ArgumentDelta? {
        next := HandleArguments(outcome, e.callId, assistantId, captured);
      } else {
        next := HandleOther(outcome, e, assistantId, captured);
      }
    }

    /** The first fragment for a tool call opens its card. */
    method HandleArguments(outcome: Round, callId: string, assistantId: nat, captured: nat) returns (next: Round)
      requires Valid() && worker == Streaming(outcome) && run.assistantId == assistantId
      requires run.generation == captured == generation
      modifies `nextId, `run, `worker, `trace
      ensures Valid() && Took(old(View()), InRound(Receive(ArgumentDelta(callId))), View())
      ensures trace == old(trace) + [InRound(Receive(ArgumentDelta(callId)))]
      ensures run == old(run).(events := run.events) && worker == Streaming(next)
    {
      hide Possible, After, ApplyOther, ApplyEntry, ApplyTool, ApplyEnd;
      ghost var s := View();
      SinkArgues(s, outcome, callId);
      hide Sink;
      next := CardFor(outcome, callId);
      Emit([Arguments(assistantId, callId, next.cards[callId])]);
      worker := Streaming(next);
      Log(s, InRound(Receive(ArgumentDelta(callId))));
    }

    method CardFor(outcome: Round, callId: string) returns (next: Round)
      modifies `nextId
      ensures next == WithCard(outcome, callId, old(nextId))
      ensures nextId == if callId in outcome.cards then old(nextId) else old(nextId) + 1
    {
      next := outcome;
      if callId !in next.cards {
        next := next.(cards := next.cards[callId := nextId]);
        nextId := nextId + 1;
      }
    }

    method TakeEvent(outcome: Round, e: ProviderEvent, assistantId: nat) returns (next: Round, said: seq<Event>)
      requires !e.ArgumentDelta?
      ensures next == NextRound(outcome, e) && said == Said(assistantId, e)
    {
      next, said := outcome, [];
      match e {
        case ToolCallRequested(calls) => next := next.(tools := calls);
        case TextDelta(text) =>
          if text != "" {
            next := next.(text := next.text + text);
            said := [Text(assistantId, text)];
          }
        case StreamError(text) =>
          next := next.(failed := true);
          said := [RunError(assistantId, text)];
        case Passthrough => said := [Forwarded];
        case _ =>
      }
    }

    method HandleOther(outcome: Round, e: ProviderEvent, assistantId: nat, captured: nat) returns (next: Round)
      requires Valid() && worker == Streaming(outcome) && run.assistantId == assistantId
      requires run.generation == captured == generation && !e.ArgumentDelta?
      modifies `run, `worker, `trace
      ensures Valid() && Took(old(View()), InRound(Receive(e)), View()) && trace == old(trace) + [InRound(Receive(e))]
      ensures run == old(run).(events := run.events) && worker == Streaming(next)
    {
      hide Possible, After, NextRound, Said, ApplyOther, ApplyEntry, ApplyTool, ApplyEnd;
      ghost var s := View();
      SinkSays(s, outcome, e);
      hide Sink;
      var said: seq<Event>;
      next, said := TakeEvent(outcome, e, assistantId);
      Emit(said);
      worker := Streaming(next);
      Log(s, InRound(Receive(e)));
    }

    method CloseStream(outcome: Round, assistantId: nat, captured: nat) returns (stop: Stop)
      requires Valid() && worker == Streaming(outcome) && run.assistantId == assistantId && run.generation == captured
      modifies `run, `worker, `trace
      ensures Valid() && Took(old(View()), InRound(EndStream), View()) && trace == old(trace) + [InRound(EndStream)]
      ensures run.assistantId == assistantId && run.generation == captured
      ensures worker == (match stop
                         case ModelFinished => ModelDone(outcome)
                         case CallTools => RoundDone(outcome)
                         case _ => Returned)
      ensures stop.CallTools? ==> outcome.tools != []
    {
      hide Possible, After, ApplyOther, ApplyEntry, ApplyTool, ApplyEnd;
      ghost var s := View();
      if generation != captured {
        stop := Aborted;
        EmitCancellation(assistantId);
      } else if outcome.failed {
        stop := StreamFailed;
        Emit([Finished(assistantId)]);
        worker := Returned;
      } else if outcome.tools == [] {
        stop := ModelFinished;
        worker := ModelDone(outcome);
      } else {
        stop := CallTools;
        worker := RoundDone(outcome);
      }
      Log(s, InRound(EndStream));
    }

    // ---------- what the outside does next ----------

    method NextScript() returns (script: seq<ProviderEvent>)
      requires Valid()
      modifies `world
      ensures Valid() && |world.rounds| <= |old(world).rounds|
      ensures script != [] ==> |world.rounds| < |old(world).rounds|
    {
      if world.rounds == [] {
        return [];
      }
      script := world.rounds[0];
      world := world.(rounds := world.rounds[1..]);
    }

    method NextToolOutcome() returns (result: ToolOutcome)
      requires Valid()
      modifies `world
      ensures Valid() && world == old(world).(tools := world.tools)
    {
      if world.tools == [] {
        return ToolOutcome("", true, false);
      }
      result := world.tools[0];
      world := world.(tools := world.tools[1..]);
    }

    method NextCompaction() returns (plan: CompactionPlan)
      requires Valid()
      modifies `world
      ensures Valid()
    {
      if world.compactions == [] {
        return NoCompaction;
      }
      plan := world.compactions[0];
      world := world.(compactions := world.compactions[1..]);
    }

    method NextSummary() returns (summary: Summary)
      requires Valid()
      modifies `world
      ensures Valid()
    {
      if world.summaries == [] {
        return Failed("summarization failed");
      }
      summary := world.summaries[0];
      world := world.(summaries := world.summaries[1..]);
    }

    method NextProviderFound() returns (found: bool)
      requires Valid()
      modifies `world
      ensures Valid()
    {
      if world.providerFound == [] {
        return true;
      }
      found := world.providerFound[0];
      world := world.(providerFound := world.providerFound[1..]);
    }

    /** `RunOneRound`: build the request, stream the answer through the sink, and say
        how the round ended. */
    method RunOneRound(assistantId: nat, captured: nat) returns (stop: Stop, outcome: Round)
      requires Valid() && worker.RoundStart? && run.assistantId == assistantId && run.generation == captured
      modifies this, history
      ensures Valid() && old(trace) <= trace
      ensures run.assistantId == assistantId && run.generation == captured && past == old(past)
      ensures worker == (match stop
                         case ModelFinished => ModelDone(outcome)
                         case CallTools => RoundDone(outcome)
                         case _ => Returned)
      ensures |world.rounds| <= |old(world).rounds|
      ensures stop.CallTools? ==> |world.rounds| < |old(world).rounds|
    {
      hide View, Valid, Took;
      outcome := EMPTY_ROUND;
      Yield();
      var aborted := BuildRoundRequest(assistantId, captured);
      if aborted {
        return Aborted, outcome;
      }
      var script := NextScript();
      ghost var left := |world.rounds|;
      for i := 0 to |script|
        invariant Valid() && old(trace) <= trace && worker == Streaming(outcome)
        invariant run.assistantId == assistantId && run.generation == captured && past == old(past)
        invariant |world.rounds| == left && (script == [] ==> outcome == EMPTY_ROUND)
      {
        Yield();
        outcome := HandleEvent(outcome, script[i], assistantId, captured);
      }
      Yield();
      stop := CloseStream(outcome, assistantId, captured);
    }

    method AppendToolRound(outcome: Round, assistantId: nat, captured: nat) returns (aborted: bool)
      requires Valid() && worker == RoundDone(outcome) && run.assistantId == assistantId && run.generation == captured
      modifies `run, `worker, `trace, history
      ensures Valid() && Took(old(View()), InRound(AppendRound), View()) && trace == old(trace) + [InRound(AppendRound)]
      ensures run.assistantId == assistantId && run.generation == captured
      ensures worker == if aborted then Returned else ToolLoop(outcome, 0)
    {
      hide Possible, After, ApplyOther, ApplyEntry, ApplyTool, ApplyEnd;
      ghost var s := View();
      aborted := generation != captured;
      if aborted {
        EmitCancellation(assistantId);
      } else {
        history.AppendAssistantToolRound(assistantId, outcome.text, outcome.tools, |past|);
        run := run.(appended := run.appended + [AssistantToolRound(assistantId, outcome.text, outcome.tools, |past|)]);
        worker := ToolLoop(outcome, 0);
      }
      Log(s, InRound(AppendRound));
    }

    // ---------- the tool round ----------

    /** The card the call streamed its arguments under, or a fresh one. */
    method CardOf(outcome: Round, callId: string) returns (card: nat)
      modifies `nextId
      ensures card == if callId in outcome.cards then outcome.cards[callId] else old(nextId)
      ensures nextId == if callId in outcome.cards then old(nextId) else old(nextId) + 1
    {
      if callId in outcome.cards {
        return outcome.cards[callId];
      }
      card := nextId;
      nextId := nextId + 1;
    }

    method StartTool(outcome: Round, i: nat) returns (card: nat)
      requires Valid() && worker == ToolLoop(outcome, i) && i < |outcome.tools|
      modifies `nextId, `run, `worker, `trace
      ensures Valid() && Took(old(View()), InTools(ToolAction.StartTool), View())
      ensures trace == old(trace) + [InTools(ToolAction.StartTool)]
      ensures run == old(run).(events := run.events) && worker == ToolRunning(outcome, i, card)
    {
      hide Possible, After, ApplyOther, ApplyEntry, ApplyRound, ApplyEnd;
      ghost var s := View();
      var callId := outcome.tools[i].id;
      card := CardOf(outcome, callId);
      Emit([ToolStarted(card, callId)]);
      worker := ToolRunning(outcome, i, card);
      Log(s, InTools(ToolAction.StartTool));
    }

    /** The tool list is exhausted, or a stop was seen at the approval gate. */
    method LeaveTools(outcome: Round, i: nat, ghost a: ToolAction)
      requires Valid()
      requires || (a.StartTool? && worker == ToolLoop(outcome, i) && i >= |outcome.tools|)
               || (a.AbortAtGate? && worker.ToolRunning? && stopRequested)
      modifies `worker, `trace
      ensures Valid() && Took(old(View()), InTools(a), View()) && trace == old(trace) + [InTools(a)]
      ensures worker.ToolsReturned?
    {
      hide Possible, After, ApplyOther, ApplyEntry, ApplyRound, ApplyEnd;
      ghost var s := View();
      worker := ToolsReturned;
      Log(s, InTools(a));
    }

    method FinishTool(outcome: Round, i: nat, card: nat, result: ToolOutcome)
      requires Valid() && worker == ToolRunning(outcome, i, card) && i < |outcome.tools|
      modifies `run, `worker, `trace
      ensures Valid() && Took(old(View()), InTools(ToolAction.FinishTool(result.content, result.isError)), View())
      ensures trace == old(trace) + [InTools(ToolAction.FinishTool(result.content, result.isError))]
      ensures run == old(run).(events := run.events)
      ensures worker == ToolFinished(outcome, i, card, result.content, result.isError)
    {
      hide Possible, After, ApplyOther, ApplyEntry, ApplyRound, ApplyEnd;
      ghost var s := View();
      Emit([ToolDone(card, outcome.tools[i].id, result.isError)]);
      worker := ToolFinished(outcome, i, card, result.content, result.isError);
      Log(s, InTools(ToolAction.FinishTool(result.content, result.isError)));
    }

    method AppendToolResult(outcome: Round, i: nat, card: nat, result: ToolOutcome, captured: nat) returns (aborted: bool)
      requires Valid() && i < |outcome.tools| && run.generation == captured
      requires worker == ToolFinished(outcome, i, card, result.content, result.isError)
      modifies `run, `worker, `trace, history
      ensures Valid() && Took(old(View()), InTools(AppendResult), View()) && trace == old(trace) + [InTools(AppendResult)]
      ensures run == old(run).(appended := run.appended)
      ensures worker == if aborted then ToolsReturned else ToolAppended(outcome, i)
    {
      hide Possible, After, ApplyOther, ApplyEntry, ApplyRound, ApplyEnd;
      ghost var s := View();
      aborted := generation != captured;
      if aborted {
        worker := ToolsReturned;
      } else {
        history.AppendToolResult(card, outcome.tools[i], result.content, result.isError, |past|);
        run := run.(appended := run.appended
                                + [ToolResultMessage(card, outcome.tools[i], result.content, result.isError, |past|)]);
        worker := ToolAppended(outcome, i);
      }
      Log(s, InTools(AppendResult));
    }

    method CheckStopAfterTool(outcome: Round, i: nat) returns (stopped: bool)
      requires Valid() && worker == ToolAppended(outcome, i)
      modifies `worker, `trace
      ensures Valid() && Took(old(View()), InTools(ToolAction.CheckStopAfterTool), View())
      ensures trace == old(trace) + [InTools(ToolAction.CheckStopAfterTool)]
      ensures worker == if stopped then ToolsReturned else ToolLoop(outcome, i + 1)
    {
      hide Possible, After, ApplyOther, ApplyEntry, ApplyRound, ApplyEnd;
      ghost var s := View();
      stopped := stopRequested;
      worker := if stopped then ToolsReturned else ToolLoop(outcome, i + 1);
      Log(s, InTools(ToolAction.CheckStopAfterTool));
    }

    /** The result of a tool, and whether the loop goes on. */
    method RecordResult(outcome: Round, i: nat, card: nat, result: ToolOutcome, captured: nat) returns (goOn: bool)
      requires Valid() && i < |outcome.tools| && run.generation == captured
      requires worker == ToolFinished(outcome, i, card, result.content, result.isError)
      modifies this, history
      ensures Valid() && old(trace) <= trace && worker == if goOn then ToolLoop(outcome, i + 1) else ToolsReturned
      ensures run == old(run).(appended := run.appended) && past == old(past) && world.rounds == old(world).rounds
    {
      hide View, Valid, Took;
      goOn := false;
      Yield();
      var aborted := AppendToolResult(outcome, i, card, result, captured);
      if aborted {
        return;
      }
      Yield();
      var stopped := CheckStopAfterTool(outcome, i);
      goOn := !stopped;
    }

    /** One turn of the loop over the requested tools: false if the round is over. */
    method RunOneTool(outcome: Round, i: nat, captured: nat) returns (goOn: bool)
      requires Valid() && worker == ToolLoop(outcome, i) && i < |outcome.tools| && run.generation == captured
      modifies this, history
      ensures Valid() && old(trace) <= trace && worker == if goOn then ToolLoop(outcome, i + 1) else ToolsReturned
      ensures run.assistantId == old(run).assistantId && run.generation == captured && past == old(past)
      ensures world.rounds == old(world).rounds
    {
      hide View, Valid, Took;
      var card := StartTool(outcome, i);
      Yield();
      var result := NextToolOutcome();
      if result.stoppedAtGate && stopRequested {
        LeaveTools(outcome, i, AbortAtGate);
        return false;
      }
      FinishTool(outcome, i, card, result);
      goOn := RecordResult(outcome, i, card, result, captured);
    }

    /** `ToolRoundRunner::Run`: the requested tools one after the other. */
    method RunTools(outcome: Round, captured: nat)
      requires Valid() && worker == ToolLoop(outcome, 0) && run.generation == captured
      modifies this, history
      ensures Valid() && old(trace) <= trace && worker.ToolsReturned?
      ensures run.assistantId == old(run).assistantId && run.generation == captured && past == old(past)
      ensures world.rounds == old(world).rounds
    {
      hide View, Valid, Took;
      for i := 0 to |outcome.tools|
        invariant Valid() && old(trace) <= trace && worker == ToolLoop(outcome, i)
        invariant run.assistantId == old(run).assistantId && run.generation == captured && past == old(past)
        invariant world.rounds == old(world).rounds
      {
        Yield();
        var goOn := RunOneTool(outcome, i, captured);
        if !goOn {
          return;
        }
      }
      LeaveTools(outcome, |outcome.tools|, ToolAction.StartTool);
    }

    // ---------- the end of a round and of a prompt ----------

    method CheckStopAfterRound(assistantId: nat) returns (stopped: bool)
      requires Valid() && worker.ToolsReturned? && run.assistantId == assistantId
      modifies `run, `worker, `trace
      ensures Valid() && Took(old(View()), AtEnd(EndAction.CheckStopAfterRound), View())
      ensures trace == old(trace) + [AtEnd(EndAction.CheckStopAfterRound)]
      ensures run == old(run).(events := run.events)
      ensures worker == if stopped then Returned else ToolsReturnedNoStop
    {
      hide Possible, After, ApplyOther, ApplyEntry, ApplyRound, ApplyTool;
      ghost var s := View();
      stopped := stopRequested;
      if stopped {
        EmitCancellation(assistantId);
      } else {
        worker := ToolsReturnedNoStop;
      }
      Log(s, AtEnd(EndAction.CheckStopAfterRound));
    }

    method CheckGenerationAfterRound(assistantId: nat, captured: nat) returns (aborted: bool)
      requires Valid() && worker.ToolsReturnedNoStop? && run.assistantId == assistantId && run.generation == captured
      modifies `run, `worker, `trace
      ensures Valid() && Took(old(View()), AtEnd(EndAction.CheckGenerationAfterRound), View())
      ensures trace == old(trace) + [AtEnd(EndAction.CheckGenerationAfterRound)]
      ensures run == old(run).(events := run.events)
      ensures worker == if aborted then Returned else RoundStart
    {
      hide Possible, After, ApplyOther, ApplyEntry, ApplyRound, ApplyTool;
      ghost var s := View();
      aborted := generation != captured;
      if aborted {
        EmitCancellation(assistantId);
      } else {
        worker := RoundStart;
      }
      Log(s, AtEnd(EndAction.CheckGenerationAfterRound));
    }

    /** The closing message, if the last round had text, and the closing events. */
    method AppendFinalText(outcome: Round, assistantId: nat, captured: nat)
      requires Valid() && worker == ModelDone(outcome) && run.assistantId == assistantId && run.generation == captured
      modifies `run, `worker, `trace, history
      ensures Valid() && Took(old(View()), AtEnd(AppendFinal), View()) && trace == old(trace) + [AtEnd(AppendFinal)]
      ensures worker.Returned?
    {
      hide Possible, After, ApplyOther, ApplyEntry, ApplyRound, ApplyTool;
      ghost var s := View();
      if outcome.text != "" && generation != captured {
        EmitCancellation(assistantId);
        Log(s, AtEnd(AppendFinal));
        return;
      }
      if outcome.text != "" {
        history.AppendFinalAssistantMessage(assistantId, outcome.text, |past|);
        run := run.(appended := run.appended + [FinalAssistantMessage(assistantId, outcome.text, |past|)]);
      }
      Emit([AssistantDone(assistantId), Finished(assistantId)]);
      worker := Returned;
      Log(s, AtEnd(AppendFinal));
    }

    method DrainPrompt()
      requires Valid() && worker.Returned?
      modifies `active, `stopRequested, `past, `worker, `trace
      ensures Valid() && Took(old(View()), AtEnd(Drain), View()) && trace == old(trace) + [AtEnd(Drain)]
      ensures worker.Idle? && past == old(past) + [run]
    {
      hide Possible, After, ApplyOther, ApplyEntry, ApplyRound, ApplyTool;
      ghost var s := View();
      active, stopRequested := false, false;
      past := past + [run];
      worker := Idle;
      Log(s, AtEnd(Drain));
    }

    method AutoCompact()
      requires Valid() && worker.BeforePrompt?
      modifies this, history
      ensures Valid() && old(trace) <= trace && worker.ReadyToAppend? && past == old(past)
      ensures run == old(run).(events := run.events)
    {
      hide View, Valid, Took;
      var plan := NextCompaction();
      var pending := BeginCompaction(plan);
      if pending {
        Yield();
        var summary := NextSummary();
        FinishCompaction(plan.keep, summary);
      }
    }

    /** `ProcessPrompt`, up to the first request: true if the prompt was appended. */
    method BeginPrompt(prompt: Prompt, captured: nat) returns (begun: bool, assistantId: nat)
      requires Valid() && worker.Captured? && run.prompt == prompt && run.generation == captured
      modifies this, history
      ensures Valid() && old(trace) <= trace && past == old(past)
      ensures begun ==> worker.RoundStart? && run.assistantId == assistantId && run.generation == captured
      ensures !begun ==> worker.Returned?
    {
      hide View, Valid, Took;
      var providerFound := NextProviderFound();
      assistantId := EnterPrompt(prompt, providerFound);
      if !providerFound {
        return false, assistantId;
      }
      Yield();
      var aborted := CheckEntryGeneration(captured);
      if aborted {
        return false, assistantId;
      }
      Yield();
      AutoCompact();
      Yield();
      aborted := AppendUserPrompt(prompt, assistantId, captured);
      begun := !aborted;
    }

    method ProcessPrompt(prompt: Prompt, captured: nat)
      requires Valid() && worker.Captured? && run.prompt == prompt && run.generation == captured
      modifies this, history
      ensures Valid() && old(trace) <= trace && worker.Returned? && past == old(past)
    {
      hide View, Valid, Took;
      var begun, assistantId := BeginPrompt(prompt, captured);
      if !begun {
        return;
      }
      while true
        invariant Valid() && old(trace) <= trace && worker.RoundStart? && past == old(past)
        invariant run.assistantId == assistantId && run.generation == captured
        decreases |world.rounds|
      {
        var stop, outcome := RunOneRound(assistantId, captured);
        if stop.Aborted? || stop.StreamFailed? {
          return;
        }
        if stop.ModelFinished? {
          Yield();
          AppendFinalText(outcome, assistantId, captured);
          return;
        }
        var goOn := CallToolsOf(outcome, assistantId, captured);
        if !goOn {
          return;
        }
      }
    }

    /** The rest of a turn of the loop in which the model asked for tools: true if it is
        to be asked again. */
    method CallToolsOf(outcome: Round, assistantId: nat, captured: nat) returns (goOn: bool)
      requires Valid() && worker == RoundDone(outcome) && run.assistantId == assistantId && run.generation == captured
      modifies this, history
      ensures Valid() && old(trace) <= trace && worker == if goOn then RoundStart else Returned
      ensures run.assistantId == assistantId && run.generation == captured && past == old(past)
      ensures world.rounds == old(world).rounds
    {
      hide View, Valid, Took;
      goOn := false;
      Yield();
      var aborted := AppendToolRound(outcome, assistantId, captured);
      if aborted {
        return;
      }
      RunTools(outcome, captured);
      Yield();
      var stopped := CheckStopAfterRound(assistantId);
      if stopped {
        return;
      }
      Yield();
      aborted := CheckGenerationAfterRound(assistantId, captured);
      goOn := !aborted;
    }

    /** `WorkerLoop`, for as many turns as one likes to watch. Whatever the other
        threads, the model and the tools do, the engine ends in a state the step system
        reaches; so no message of a superseded run is in the history or was in a request,
        every request found the rounds of its own run closed, prompts were run in the order
        they were asked in, every prompt that was started got its closing event, the text
        that was stored is the text that was streamed, and what the listeners were told of a
        run can be followed and agrees with its record. */
    method WorkerLoop(turns: nat)
      requires Valid() && worker.Idle?
      modifies this, history
      ensures Valid() && old(trace) <= trace && worker.Idle? && old(past) <= past
      ensures forall m :: m in history.messages && m.origin.FromRun? ==>
                && m.origin.run < |past| && past[m.origin.run].captured && past[m.origin.run].epoch == epoch
      ensures forall j, k :: 0 <= j < k < |past| ==> past[j].prompt.id < past[k].prompt.id
      ensures forall k :: 0 <= k < |past| ==> Ended(past[k]) && Told(past[k])
      ensures forall k, q :: 0 <= k < |past| && q in past[k].requests ==> ClosedRequest(past[k], k, q)
      ensures forall k, q :: 0 <= k < |past| && q in past[k].requests ==> OneEpoch(View(), k, q.history)
    {
      hide Valid, Took, Ended, Told, ClosedRequest, OneEpoch;
      for turn := 0 to turns
        invariant Valid() && old(trace) <= trace && worker.Idle? && old(past) <= past
      {
        Yield();
        if closing {
          break;
        }
        if pending != [] {
          RunPrompt();
        }
      }
      ReachedState();
    }

    /** One turn of the loop with a prompt to run. */
    method RunPrompt()
      requires Valid() && worker.Idle? && pending != [] && !closing
      modifies this, history
      ensures Valid() && old(trace) <= trace && worker.Idle? && old(past) <= past
    {
      hide View, Valid, Took;
      var prompt := PopPrompt();
      Yield();
      AnnouncePrompt(prompt);
      Yield();
      var captured := CaptureGeneration(prompt);
      Yield();
      ProcessPrompt(prompt, captured);
      Yield();
      DrainPrompt();
    }

    lemma PastIsTold(k: nat)
      requires Valid() && k < |past|
      ensures Told(past[k])
    {
      ChatLifecycle.LogsCanBeFollowed(trace, k);
      ChatRecord.MessagesCarryTheirIds(trace, k);
      hide Possible, After, ChatRecord.Numbered, ChatLifecycle.Read;
    }

    /** What the theorems about runs of the step system say about this engine. */
    lemma ReachedState()
      requires Valid() && worker.Idle?
      ensures forall m :: m in history.messages && m.origin.FromRun? ==>
                && m.origin.run < |past| && past[m.origin.run].captured && past[m.origin.run].epoch == epoch
      ensures forall j, k :: 0 <= j < k < |past| ==> past[j].prompt.id < past[k].prompt.id
      ensures forall k :: 0 <= k < |past| ==> Ended(past[k]) && Told(past[k])
      ensures forall k, q :: 0 <= k < |past| && q in past[k].requests ==> ClosedRequest(past[k], k, q)
      ensures forall k, q :: 0 <= k < |past| && q in past[k].requests ==> OneEpoch(View(), k, q.history)
    {
      hide HasStarted, SaidDone, FinishedLast, StoredText, StreamedText, ClosedRequest, OneEpoch, Possible, After, Told;
      ResetIsolation(trace);
      ChatQueue.OldestFirst(View(), trace);
      forall k | 0 <= k < |past|
        ensures Ended(past[k]) && Told(past[k])
        ensures forall q :: q in past[k].requests ==> ClosedRequest(past[k], k, q)
      {
        EventsAndTextAreConserved(trace, k);
        RequestsFindClosedRounds(trace, k);
        PastIsTold(k);
      }
      forall k, q | 0 <= k < |past| && q in past[k].requests
        ensures OneEpoch(View(), k, q.history)
      {
        RequestsAreIsolated(trace, k, q);
      }
    }
  }
}
