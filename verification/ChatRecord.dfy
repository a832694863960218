/** What a run stores is what it was told. */
module ChatRecord {
  import opened ChatTypes
  import opened Compaction
  import opened ChatMachine
  import opened ChatInvariants
  import opened ChatRounds
  import opened ChatEvents
  import opened ChatTheorems
  import opened ChatLog

  /** A stored message, without ids. */
  datatype Line =
    | Asked
    | Spoke(text: string, calls: seq<ToolCall>)
    | Answered(callId: string, content: string, isError: bool)

  function LineOf(m: Message): Line {
    match m.role
    case Assistant => Spoke(m.content, m.calls)
    case Tool => Answered(m.answers, m.content, m.status.Error?)
    case _ => Asked
  }

  function Lines(ms: seq<Message>): (lines: seq<Line>)
    ensures |lines| == |ms|
  {
    seq(|ms|, i requires 0 <= i < |ms| => LineOf(ms[i]))
  }

  /** What the run was told, step by step, whether it was listening or not: the text of the
      round, the calls asked for last, the calls that want an answer, and the lines that
      make up the conversation. */
  datatype Told = Told(text: string, calls: seq<ToolCall>, open: seq<ToolCall>, lines: seq<Line>)

  const NOTHING := Told("", [], [], [])

  function Listen(t: Told, a: Action): Told {
    match a
    case AtEntry(Pop) => NOTHING
    case AtEntry(AppendPrompt) => t.(lines := t.lines + [Asked])
    case InRound(BuildRequest) => t.(text := "", calls := [])
    case InRound(Receive(TextDelta(text))) => t.(text := t.text + text)
    case InRound(Receive(ToolCallRequested(calls))) => t.(calls := calls)
    case InRound(AppendRound) => t.(open := t.calls, lines := t.lines + [Spoke(t.text, t.calls)])
    case InTools(FinishTool(content, isError)) =>
      if t.open == [] then t
      else t.(open := t.open[1..], lines := t.lines + [Answered(t.open[0].id, content, isError)])
    case AtEnd(AppendFinal) => if t.text == "" then t else t.(lines := t.lines + [Spoke(t.text, [])])
    case _ => t
  }

  function ListenAll(t: Told, trace: seq<Action>): Told
    decreases |trace|
  {
    if trace == [] then t else ListenAll(Listen(t, trace[0]), trace[1..])
  }

  /** The worker of a current run knows what it was told. */
  predicate Knows(w: Worker, t: Told) {
    match w
    case Streaming(round) => round.text == t.text && round.tools == t.calls
    case RoundDone(round) => round.text == t.text && round.tools == t.calls
    case ModelDone(round) => round.text == t.text
    case ToolLoop(round, i) => i <= |round.tools| && t.open == round.tools[i..]
    case ToolRunning(round, i, _) => i < |round.tools| && t.open == round.tools[i..]
    case ToolFinished(round, i, _, _, _) => i < |round.tools| && t.open == round.tools[i + 1..]
    case ToolAppended(round, i) => i < |round.tools| && t.open == round.tools[i + 1..]
    case _ => true
  }

  /** The answer of a tool that is not stored yet. */
  function InHand(w: Worker): seq<Line> {
    if w.ToolFinished? && w.next < |w.round.tools| then [Answered(w.round.tools[w.next].id, w.content, w.isError)] else []
  }

  predicate NotStarted(w: Worker) {
    w.Popped? || w.Announced? || Early(w)
  }

  predicate RecordOk(s: State, t: Told) {
    if s.worker.Idle? then true
    else if NotStarted(s.worker) then s.run.appended == [] && t.lines == []
    else
      && Lines(s.run.appended) <= t.lines
      && (!Stale(s) && !s.worker.Returned? ==> Knows(s.worker, t) && Lines(s.run.appended) + InHand(s.worker) == t.lines)
  }

  lemma LinesAppend(ms: seq<Message>, m: Message)
    ensures Lines(ms + [m]) == Lines(ms) + [LineOf(m)]
  {}

  lemma MoreLines(t: Told, a: Action)
    requires a != AtEntry(Pop)
    ensures t.lines <= Listen(t, a).lines
  {}

  // ---------- the steps ----------

  /** A run that is not current any more, or is over, adds nothing. */
  lemma DeafStep(s: State, a: Action, t: Told)
    requires Generations(s) && RecordOk(s, t) && Enabled(s, a) && Quiet(a) && !NotStarted(s.worker)
    requires Stale(s) || s.worker.Returned?
    ensures RecordOk(Apply(s, a), Listen(t, a))
  {
    QuietFrame(s, a);
    MoreLines(t, a);
    DeafStaysDeaf(s, a);
    hide Apply, Lines, Listen;
  }

  lemma DeafStaysDeaf(s: State, a: Action)
    requires Enabled(s, a) && Quiet(a) && !NotStarted(s.worker) && (Stale(s) || s.worker.Returned?)
    ensures var s' := Apply(s, a);
            !NotStarted(s'.worker) && s'.run.appended == s.run.appended && (Stale(s') || s'.worker.Returned?)
  {
    QuietFrame(s, a);
    if Early(Apply(s, a).worker) {
      EarlyPhase(s, a);
    }
    hide Apply;
  }

  /** The run is current and listens. */
  predicate Attentive(s: State) {
    !s.worker.Idle? && !NotStarted(s.worker) && !Stale(s) && !s.worker.Returned?
  }

  lemma SinkIsHeard(s: State, e: ProviderEvent, t: Told)
    requires Attentive(s) && RecordOk(s, t) && s.worker.Streaming?
    ensures RecordOk(Sink(s, s.worker.round, e), Listen(t, InRound(Receive(e))))
  {
    hide Lines;
    SinkFrame(s, s.worker.round, e);
    if e.TextDelta? && e.text == "" {
      assert t.text + e.text == t.text;
    }
  }

  lemma RoundIsHeard(s: State, a: RoundAction, t: Told)
    requires Attentive(s) && RecordOk(s, t) && RoundEnabled(s, a)
    ensures RecordOk(ApplyRound(s, a), Listen(t, InRound(a)))
  {
    hide Lines, Sink;
    if a.Receive? {
      SinkIsHeard(s, a.event, t);
      hide RecordOk;
    } else if a.AppendRound? {
      var round := s.worker.round;
      LinesAppend(s.run.appended, AssistantToolRound(s.run.assistantId, round.text, round.tools, RunNumber(s)));
      assert round.tools[0..] == round.tools;
    }
  }

  lemma AnswerIsHeard(s: State, content: string, isError: bool, t: Told)
    requires Attentive(s) && RecordOk(s, t) && ToolEnabled(s, FinishTool(content, isError))
    ensures RecordOk(ApplyTool(s, FinishTool(content, isError)), Listen(t, InTools(FinishTool(content, isError))))
  {
    hide Lines;
    var w := s.worker;
    assert w.round.tools[w.next..][0] == w.round.tools[w.next];
    assert w.round.tools[w.next..][1..] == w.round.tools[w.next + 1..];
  }

  lemma ResultIsHeard(s: State, t: Told)
    requires Attentive(s) && RecordOk(s, t) && ToolEnabled(s, AppendResult)
    ensures RecordOk(ApplyTool(s, AppendResult), t)
  {
    hide Lines;
    var w := s.worker;
    LinesAppend(s.run.appended, ToolResultMessage(w.card, w.round.tools[w.next], w.content, w.isError, RunNumber(s)));
  }

  lemma ToolIsHeard(s: State, a: ToolAction, t: Told)
    requires Attentive(s) && RecordOk(s, t) && ToolEnabled(s, a)
    ensures RecordOk(ApplyTool(s, a), Listen(t, InTools(a)))
  {
    hide Lines;
    if a.FinishTool? {
      AnswerIsHeard(s, a.content, a.isError, t);
      hide *;
    } else if a.AppendResult? {
      ResultIsHeard(s, t);
      hide RecordOk, ApplyTool;
    }
  }

  lemma EndIsHeard(s: State, a: EndAction, t: Told)
    requires Attentive(s) && RecordOk(s, t) && EndEnabled(s, a) && !a.Drain?
    ensures RecordOk(ApplyEnd(s, a), Listen(t, AtEnd(a)))
  {
    hide Lines;
    if a.AppendFinal? {
      LinesAppend(s.run.appended, FinalAssistantMessage(s.run.assistantId, s.worker.round.text, RunNumber(s)));
    }
  }

  lemma EntryIsHeard(s: State, a: EntryAction, t: Told)
    requires RecordOk(s, t) && EntryEnabled(s, a)
    ensures RecordOk(ApplyEntry(s, a), Listen(t, AtEntry(a)))
  {
    if a.AppendPrompt? {
      LinesAppend([], ActiveUserMessage(s.run.prompt.id, s.run.prompt.content, RunNumber(s)));
      hide Lines;
    } else if !a.Pop? {
      EarlyStepsAppendNothing(s, a);
      BeforeThePrompt(s, a);
      hide ApplyEntry, Lines;
    }
  }

  lemma BeforeThePrompt(s: State, a: EntryAction)
    requires EntryEnabled(s, a) && !a.AppendPrompt? && !a.Pop?
    ensures var w := ApplyEntry(s, a).worker; NotStarted(w) || w.Returned?
  {
    hide Compacted, Removed, Truncated, CompactNow;
    if a.ReceiveSummary? {
      SummaryReady(s, a.summary);
    } else if a.ChooseCompaction? && a.plan.Truncate? {
      CompactNowWorker(s, Truncated(s.history, a.plan.keep), Removed(s.history, a.plan.keep));
    }
  }

  lemma OthersAreNotHeard(s: State, a: OtherAction, t: Told)
    requires Generations(s) && RecordOk(s, t) && OtherEnabled(s, a)
    ensures RecordOk(ApplyOther(s, a), t)
  {
    hide Lines;
    OthersMoveForward(s, a);
    hide ApplyOther, Knows;
  }

  lemma RecordKept(s: State, a: Action, t: Told)
    requires Generations(s) && RecordOk(s, t) && Enabled(s, a)
    ensures RecordOk(Apply(s, a), Listen(t, a))
  {
    hide ApplyOther, ApplyEntry, ApplyRound, ApplyTool, Lines, Knows, QuietStep;
    if a.AtEntry? {
      EntryIsHeard(s, a.entry, t);
      hide RecordOk, Listen;
    } else if a.ByOthers? {
      OthersAreNotHeard(s, a.other, t);
      hide RecordOk;
    } else if a == AtEnd(Drain) {
    } else if !Attentive(s) {
      DeafStep(s, a, t);
      hide RecordOk, Listen;
    } else {
      hide RecordOk, Listen, ApplyEnd;
      match a
      case InRound(r) => RoundIsHeard(s, r, t);
      case InTools(o) => ToolIsHeard(s, o, t);
      case AtEnd(e) => EndIsHeard(s, e, t);
    }
  }

  lemma {:induction false} RecordAlways(s: State, trace: seq<Action>, t: Told)
    requires Generations(s) && RecordOk(s, t) && Possible(s, trace)
    ensures RecordOk(After(s, trace), ListenAll(t, trace))
    decreases |trace|
  {
    hide Generations, RecordOk, Enabled, Apply, Listen;
    if trace == [] {
    } else {
      GenerationsKept(s, trace[0]);
      RecordKept(s, trace[0], t);
      RecordAlways(Apply(s, trace[0]), trace[1..], Listen(t, trace[0]));
    }
  }

  /** What the run under way has stored is, line by line, a beginning of what it was told;
      and all of it but the answer in hand, as long as the run is current and has not
      come to its end. */
  lemma RecordsAreWhatWasTold(trace: seq<Action>)
    requires Possible(INIT, trace) && !After(INIT, trace).worker.Idle?
    ensures var s := After(INIT, trace);
            var told := ListenAll(NOTHING, trace).lines;
            && Lines(s.run.appended) <= told
            && (HasCaptured(s.worker) && !Stale(s) && !s.worker.Returned? ==>
                  Lines(s.run.appended) + InHand(s.worker) == told)
  {
    InvariantHoldsInitially();
    RecordAlways(INIT, trace, NOTHING);
    hide Possible, After, Knows;
    assert Lines([]) == [];
    hide Lines;
  }

  // ---------- under whose ids ----------

  /** Tool results as the listeners were told of them: card, call, and whether it failed. */
  function Reported(es: seq<Event>): seq<(nat, string, bool)> {
    if es == [] then []
    else Reported(es[..|es| - 1]) + OneReported(es[|es| - 1])
  }

  function OneReported(e: Event): seq<(nat, string, bool)> {
    if e.ToolDone? then [(e.card, e.callId, e.isError)] else []
  }

  /** The same as it is stored. */
  function Results(ms: seq<Message>): seq<(nat, string, bool)> {
    if ms == [] then []
    else Results(ms[..|ms| - 1]) + OneResult(ms[|ms| - 1])
  }

  function OneResult(m: Message): seq<(nat, string, bool)> {
    if m.role.Tool? then [(m.id, m.answers, m.status.Error?)] else []
  }

  lemma ResultsAppend(ms: seq<Message>, m: Message)
    ensures Results(ms + [m]) == Results(ms) + OneResult(m)
  {
    assert (ms + [m])[..|ms|] == ms;
  }

  lemma ReportedAppend(es: seq<Event>, e: Event)
    ensures Reported(es + [e]) == Reported(es) + OneReported(e)
  {
    assert (es + [e])[..|es|] == es;
  }

  lemma {:induction false} ReportedNothing(es: seq<Event>, more: seq<Event>)
    requires forall e :: e in more ==> !e.ToolDone?
    ensures Reported(es + more) == Reported(es)
    decreases |more|
  {
    if more == [] {
      assert es + more == es;
    } else {
      var front, last := more[..|more| - 1], more[|more| - 1];
      assert last in more;
      hide Reported;
      ReportedNothing(es, front);
      NotReported(es + front, last);
      LastApart(es, more);
    }
  }

  lemma NotReported(es: seq<Event>, e: Event)
    requires !e.ToolDone?
    ensures Reported(es + [e]) == Reported(es)
  {
    ReportedAppend(es, e);
    hide Reported;
  }

  lemma LastApart(es: seq<Event>, more: seq<Event>)
    requires more != []
    ensures es + more == (es + more[..|more| - 1]) + [more[|more| - 1]]
  {}

  function ResultInHand(w: Worker): seq<(nat, string, bool)> {
    if w.ToolFinished? && w.next < |w.round.tools| then [(w.card, w.round.tools[w.next].id, w.isError)] else []
  }

  /** The prompt comes first, under its own id; the assistant's messages carry the id of
      the answer; the results stored are those reported. */
  ghost predicate Numbered(r: Run) {
    && (r.appended != [] ==>
          var m := r.appended[0];
          m.id == r.prompt.id && m.content == r.prompt.content && m.role.User? && m.status.Active?)
    && (forall m :: m in r.appended && m.role.Assistant? ==> m.id == r.assistantId && m.status.Complete?)
    && Results(r.appended) <= Reported(r.events)
  }

  ghost predicate NumbersOk(s: State) {
    if s.worker.Idle? then true
    else if NotStarted(s.worker) then s.run.appended == [] && Reported(s.run.events) == []
    else
      && Numbered(s.run)
      && (!Stale(s) ==> Results(s.run.appended) + ResultInHand(s.worker) == Reported(s.run.events))
  }

  predicate SameRunIds(s: State, s': State) {
    s'.run.prompt == s.run.prompt && s'.run.assistantId == s.run.assistantId && s'.generation == s.generation
    && s'.run.generation == s.run.generation && !s'.worker.Idle? && !NotStarted(s'.worker)
  }

  /** Nothing is stored and no tool is done. */
  lemma NumbersKeptByNone(s: State, s': State, said: seq<Event>)
    requires NumbersOk(s) && !s.worker.Idle? && !NotStarted(s.worker) && SameRunIds(s, s')
    requires s'.run.appended == s.run.appended && s'.run.events == s.run.events + said
    requires forall e :: e in said ==> !e.ToolDone?
    requires Stale(s) || ResultInHand(s'.worker) == ResultInHand(s.worker)
    ensures NumbersOk(s')
  {
    ReportedNothing(s.run.events, said);
    hide Results, Reported, ResultInHand;
  }

  lemma NumberedMore(r: Run, r': Run, m: Message)
    requires Numbered(r) && r.appended != [] && r'.prompt == r.prompt && r'.assistantId == r.assistantId
    requires r'.appended == r.appended + [m] && Results(r'.appended) <= Reported(r'.events)
    requires m.role.Assistant? ==> m.id == r.assistantId && m.status.Complete?
    ensures Numbered(r')
  {
    hide Results, Reported;
  }

  /** A message of the assistant is stored, or the result in hand. */
  lemma NumbersKeptByMessage(s: State, s': State, m: Message, said: seq<Event>)
    requires NumbersOk(s) && !s.worker.Idle? && !NotStarted(s.worker) && SameRunIds(s, s') && !Stale(s)
    requires s'.run.appended == s.run.appended + [m] && s'.run.events == s.run.events + said
    requires forall e :: e in said ==> !e.ToolDone?
    requires m.role.Assistant? ==> m.id == s.run.assistantId && m.status.Complete?
    requires s.run.appended != [] && ResultInHand(s.worker) == OneResult(m) + ResultInHand(s'.worker)
    ensures NumbersOk(s')
  {
    ReportedNothing(s.run.events, said);
    ResultsAppend(s.run.appended, m);
    hide Results, Reported, ResultInHand, OneResult;
    Regroup(Results(s.run.appended), OneResult(m), ResultInHand(s'.worker));
    NumberedMore(s.run, s'.run, m);
    hide Numbered;
  }

  lemma Regroup(x: seq<(nat, string, bool)>, y: seq<(nat, string, bool)>, z: seq<(nat, string, bool)>)
    ensures (x + y) + z == x + (y + z) && x + y <= x + (y + z)
  {}

  lemma AnswerInHand(r: Run, r': Run, e: Event)
    requires Numbered(r) && r' == r.(events := r.events + [e])
    ensures Numbered(r') && Reported(r'.events) == Reported(r.events) + OneReported(e)
  {
    ReportedAppend(r.events, e);
    hide Results, Reported, OneReported;
  }

  lemma NumbersKeptByAnswer(s: State, content: string, isError: bool)
    requires NumbersOk(s) && ToolEnabled(s, FinishTool(content, isError))
    ensures NumbersOk(ApplyTool(s, FinishTool(content, isError)))
  {
    var e := ToolDone(s.worker.card, s.worker.round.tools[s.worker.next].id, isError);
    var s' := ApplyTool(s, FinishTool(content, isError));
    assert ResultInHand(s'.worker) == OneReported(e);
    assert s'.run == s.run.(events := s.run.events + [e]) && s'.worker.ToolFinished? && Stale(s') == Stale(s);
    hide Results, Reported, Numbered, OneReported, ResultInHand, ApplyTool, Stale;
    AnswerInHand(s.run, s'.run, e);
    if !Stale(s) {
      NothingInHand(s);
    }
  }

  lemma NothingInHand(s: State)
    requires NumbersOk(s) && s.worker.ToolRunning? && !Stale(s)
    ensures Results(s.run.appended) == Reported(s.run.events)
  {
    hide Results, Reported, Numbered;
  }

  lemma NumbersKeptByResult(s: State)
    requires NumbersOk(s) && ToolEnabled(s, AppendResult) && !Stale(s) && s.run.appended != []
    ensures NumbersOk(ApplyTool(s, AppendResult))
  {
    var w, s' := s.worker, ApplyTool(s, AppendResult);
    var m := ToolResultMessage(w.card, w.round.tools[w.next], w.content, w.isError, RunNumber(s));
    hide NumbersOk;
    assert s'.run.events == s.run.events + [];
    NumbersKeptByMessage(s, s', m, []);
  }

  lemma NumbersKeptByStart(s: State)
    requires NumbersOk(s) && ToolEnabled(s, StartTool) && s.worker.next < |s.worker.round.tools|
    ensures NumbersOk(ApplyTool(s, StartTool))
  {
    var round, i := s.worker.round, s.worker.next;
    var s', said := ApplyTool(s, StartTool), SaidInTools(s, StartTool);
    StartOnlyStarts(s);
    hide *;
    NumbersKeptByNone(s, s', said);
  }

  lemma StartOnlyStarts(s: State)
    requires ToolEnabled(s, StartTool) && s.worker.next < |s.worker.round.tools|
    ensures var s', said := ApplyTool(s, StartTool), SaidInTools(s, StartTool);
            && SameRunIds(s, s') && s'.run.appended == s.run.appended && s'.run.events == s.run.events + said
            && (forall e :: e in said ==> !e.ToolDone?)
            && ResultInHand(s'.worker) == ResultInHand(s.worker) == []
            && !s.worker.Idle? && !NotStarted(s.worker)
  {
    ToolSays(s, StartTool);
    hide CardOf;
  }

  lemma NumbersKeptBySilentTools(s: State, a: ToolAction)
    requires NumbersOk(s) && ToolEnabled(s, a) && !a.FinishTool? && (a.AppendResult? ==> Stale(s))
    requires a.StartTool? ==> s.worker.next >= |s.worker.round.tools|
    ensures NumbersOk(ApplyTool(s, a))
  {
    hide NumbersOk;
    assert s.run.events + [] == s.run.events;
    NumbersKeptByNone(s, ApplyTool(s, a), []);
  }

  lemma StoredBefore(s: State)
    requires RoundsOk(s) && !s.worker.Idle? && !NotStarted(s.worker) && !s.worker.Returned?
    ensures s.run.appended != []
  {
    assert ShapeOf([]) == Empty;
  }

  lemma NumbersKeptInTools(s: State, a: ToolAction)
    requires NumbersOk(s) && RoundsOk(s) && ToolEnabled(s, a)
    ensures NumbersOk(ApplyTool(s, a))
  {
    StoredBefore(s);
    hide NumbersOk, ApplyTool, RoundsOk;
    if a.FinishTool? {
      NumbersKeptByAnswer(s, a.content, a.isError);
    } else if a.AppendResult? && !Stale(s) {
      NumbersKeptByResult(s);
    } else if a.StartTool? && s.worker.next < |s.worker.round.tools| {
      NumbersKeptByStart(s);
    } else {
      NumbersKeptBySilentTools(s, a);
    }
  }

  lemma NumbersKeptByRound(s: State)
    requires NumbersOk(s) && s.run.appended != [] && RoundEnabled(s, AppendRound) && !Stale(s)
    ensures NumbersOk(ApplyRound(s, AppendRound))
  {
    var round, s' := s.worker.round, ApplyRound(s, AppendRound);
    hide NumbersOk;
    assert s'.run.events == s.run.events + [];
    NumbersKeptByMessage(s, s', AssistantToolRound(s.run.assistantId, round.text, round.tools, RunNumber(s)), []);
  }

  lemma NumbersKeptBySink(s: State, e: ProviderEvent)
    requires NumbersOk(s) && s.worker.Streaming?
    ensures NumbersOk(Sink(s, s.worker.round, e))
  {
    SinkSays(s, s.worker.round, e);
    SinkFrame(s, s.worker.round, e);
    var s' := Sink(s, s.worker.round, e);
    hide NumbersOk, Sink;
    NumbersKeptByNone(s, s', SaidBySink(s, s.worker.round, e));
  }

  lemma NumbersKeptByCancelling(s: State)
    requires NumbersOk(s) && !s.worker.Idle? && !NotStarted(s.worker) && ResultInHand(s.worker) == []
    ensures NumbersOk(CancelRun(s))
  {
    hide NumbersOk;
    NumbersKeptByNone(s, CancelRun(s), Cancellation(s));
  }

  lemma NumbersKeptByRequest(s: State)
    requires NumbersOk(s) && RoundEnabled(s, BuildRequest) && !Stale(s)
    ensures NumbersOk(ApplyRound(s, BuildRequest))
  {
    hide NumbersOk;
    assert s.run.events + [] == s.run.events;
    NumbersKeptByNone(s, ApplyRound(s, BuildRequest), []);
  }

  lemma NumbersKeptByEndOfStream(s: State)
    requires NumbersOk(s) && RoundEnabled(s, EndStream) && !Stale(s)
    ensures NumbersOk(ApplyRound(s, EndStream))
  {
    hide NumbersOk;
    assert s.run.events + [] == s.run.events;
    NumbersKeptByNone(s, ApplyRound(s, EndStream), if s.worker.round.failed then [Finished(s.run.assistantId)] else []);
  }

  lemma NumbersKeptInRound(s: State, a: RoundAction)
    requires NumbersOk(s) && RoundsOk(s) && RoundEnabled(s, a)
    ensures NumbersOk(ApplyRound(s, a))
  {
    StoredBefore(s);
    hide NumbersOk, RoundsOk, Sink, CancelRun;
    match a
    case Receive(e) => NumbersKeptBySink(s, e);
    case _ =>
      if Stale(s) {
        NumbersKeptByCancelling(s);
      } else {
        hide ApplyRound;
        match a
        case BuildRequest => NumbersKeptByRequest(s);
        case EndStream => NumbersKeptByEndOfStream(s);
        case AppendRound => NumbersKeptByRound(s);
      }
  }

  lemma NumbersKeptByFinal(s: State)
    requires NumbersOk(s) && s.run.appended != [] && EndEnabled(s, AppendFinal)
    requires s.worker.round.text != "" && !Stale(s)
    ensures NumbersOk(ApplyEnd(s, AppendFinal))
  {
    EndSays(s, AppendFinal);
    var s' := ApplyEnd(s, AppendFinal);
    hide NumbersOk;
    NumbersKeptByMessage(s, s', FinalAssistantMessage(s.run.assistantId, s.worker.round.text, RunNumber(s)),
                         SaidAtEnd(s, AppendFinal));
  }

  lemma NumbersKeptAtEnd(s: State, a: EndAction)
    requires NumbersOk(s) && RoundsOk(s) && EndEnabled(s, a) && !a.Drain?
    ensures NumbersOk(ApplyEnd(s, a))
  {
    StoredBefore(s);
    hide NumbersOk, RoundsOk;
    if a.AppendFinal? && s.worker.round.text != "" && !Stale(s) {
      NumbersKeptByFinal(s);
      hide ApplyEnd;
    } else {
      EndOnlyEnds(s, a);
      hide *;
      NumbersKeptByNone(s, ApplyEnd(s, a), SaidAtEnd(s, a));
    }
  }

  lemma EndOnlyEnds(s: State, a: EndAction)
    requires EndEnabled(s, a) && !a.Drain?
    requires a.AppendFinal? && s.worker.round.text != "" ==> Stale(s)
    ensures var s', said := ApplyEnd(s, a), SaidAtEnd(s, a);
            && SameRunIds(s, s') && s'.run.appended == s.run.appended && s'.run.events == s.run.events + said
            && (forall e :: e in said ==> !e.ToolDone?)
            && ResultInHand(s'.worker) == ResultInHand(s.worker)
            && !s.worker.Idle? && !NotStarted(s.worker)
  {
    EndSays(s, a);
  }

  lemma PromptIsNumbered(r: Run, m: Message)
    requires m.id == r.prompt.id && m.content == r.prompt.content && m.role.User? && m.status.Active?
    requires Reported(r.events) == []
    ensures Numbered(r.(appended := [m])) && Results([m]) == []
    ensures Numbered(r.(appended := [])) && Results([]) == []
  {
    ResultsAppend([], m);
    assert [] + [m] == [m];
    assert Results([]) == [];
    hide Results, Reported;
  }

  lemma NumbersKeptByStalePrompt(s: State)
    requires NumbersOk(s) && EntryEnabled(s, AppendPrompt) && Stale(s)
    ensures NumbersOk(ApplyEntry(s, AppendPrompt))
  {
    assert Results([]) == [];
    hide Results, Reported;
  }

  lemma NumbersKeptByPrompt(s: State)
    requires NumbersOk(s) && EntryEnabled(s, AppendPrompt) && !Stale(s)
    ensures NumbersOk(ApplyEntry(s, AppendPrompt))
  {
    var m := ActiveUserMessage(s.run.prompt.id, s.run.prompt.content, RunNumber(s));
    var s', said := ApplyEntry(s, AppendPrompt), [PromptComplete(s.run.prompt.id), Started(s.run.assistantId)];
    ReportedNothing(s.run.events, said);
    PromptIsNumbered(s'.run, m);
    hide Results, Reported, Numbered;
    assert s'.run.events == s.run.events + said;
    assert s'.run.appended == [m];
  }

  lemma NumbersKeptAtEntry(s: State, a: EntryAction)
    requires NumbersOk(s) && EntryEnabled(s, a)
    ensures NumbersOk(ApplyEntry(s, a))
  {
    hide Results;
    if a.AppendPrompt? {
      hide ApplyEntry, NumbersOk;
      if Stale(s) {
        NumbersKeptByStalePrompt(s);
      } else {
        NumbersKeptByPrompt(s);
      }
    } else if !a.Pop? {
      NumbersKeptEarly(s, a);
      hide ApplyEntry, NumbersOk;
    }
  }

  lemma NumbersKeptEarly(s: State, a: EntryAction)
    requires NumbersOk(s) && EntryEnabled(s, a) && !a.AppendPrompt? && !a.Pop?
    ensures NumbersOk(ApplyEntry(s, a))
  {
    EarlyStepsAppendNothing(s, a);
    BeforeThePrompt(s, a);
    EntrySays(s, a);
    hide ApplyEntry, Reported, Results, Removed;
    ReportedNothing(s.run.events, SaidAtEntry(s, a));
    NothingYet(ApplyEntry(s, a));
  }

  lemma NothingYet(s: State)
    requires s.run.appended == [] && Reported(s.run.events) == [] && (NotStarted(s.worker) || s.worker.Returned?)
    ensures NumbersOk(s)
  {
    assert Results([]) == [];
    hide Reported, Results;
  }

  lemma NumbersKeptByOthers(s: State, a: OtherAction)
    requires Generations(s) && NumbersOk(s) && OtherEnabled(s, a)
    ensures NumbersOk(ApplyOther(s, a))
  {
    OthersMoveForward(s, a);
    hide ApplyOther, Numbered, Results, Reported;
  }

  lemma NumbersKept(s: State, a: Action)
    requires Generations(s) && RoundsOk(s) && NumbersOk(s) && Enabled(s, a)
    ensures NumbersOk(Apply(s, a))
  {
    hide ApplyOther, ApplyEntry, ApplyRound, ApplyTool, NumbersOk, RoundsOk;
    match a
    case ByOthers(o) => NumbersKeptByOthers(s, o);
    case AtEntry(e) => NumbersKeptAtEntry(s, e);
    case InRound(r) => NumbersKeptInRound(s, r);
    case InTools(t) => NumbersKeptInTools(s, t);
    case AtEnd(e) =>
      if e.Drain? {
        NothingToNumber(ApplyEnd(s, e));
      } else {
        NumbersKeptAtEnd(s, e);
      }
  }

  lemma NothingToNumber(s: State)
    requires s.worker.Idle?
    ensures NumbersOk(s)
  {}

  ghost predicate PastNumbered(s: State) {
    forall k :: 0 <= k < |s.past| ==> Numbered(s.past[k])
  }

  lemma EmptyIsNumbered(r: Run)
    requires r.appended == []
    ensures Numbered(r)
  {
    assert Results([]) == [];
  }

  lemma UnderWayIsNumbered(s: State)
    requires NumbersOk(s) && !s.worker.Idle?
    ensures Numbered(s.run)
  {
    if s.run.appended == [] {
      EmptyIsNumbered(s.run);
    }
    hide Numbered, Results, Reported;
  }

  lemma PastNumberedKept(s: State, a: Action)
    requires NumbersOk(s) && PastNumbered(s) && Enabled(s, a)
    ensures PastNumbered(Apply(s, a))
  {
    if !s.worker.Idle? {
      UnderWayIsNumbered(s);
    }
    hide Numbered, NumbersOk;
    if Quiet(a) {
      QuietFrame(s, a);
      hide Apply;
    } else if a.ByOthers? {
      OthersMoveForward(s, a.other);
      hide ApplyOther;
    }
  }

  lemma SoundSoFar(s: State)
    requires Invariant(s)
    ensures Generations(s) && RoundsOk(s)
  {}

  lemma {:induction false} NumbersAlways(s: State, trace: seq<Action>)
    requires Invariant(s) && NumbersOk(s) && PastNumbered(s) && Possible(s, trace)
    ensures NumbersOk(After(s, trace)) && PastNumbered(After(s, trace))
    decreases |trace|
  {
    hide Invariant, NumbersOk, PastNumbered, Enabled, Apply;
    if trace == [] {
    } else {
      InvariantKept(s, trace[0]);
      SoundSoFar(s);
      NumbersKept(s, trace[0]);
      PastNumberedKept(s, trace[0]);
      NumbersAlways(Apply(s, trace[0]), trace[1..]);
    }
  }

  /** In the record of every run the prompt comes first, with its id and text, the messages
      of the assistant carry the id of the answer, and the results of tools are those
      reported to the listeners: same card, same call, failed or not, in the same order.
      What was reported and is not stored is the one result in hand, unless the run was
      superseded. */
  lemma MessagesCarryTheirIds(trace: seq<Action>, k: nat)
    requires Possible(INIT, trace) && IsRun(After(INIT, trace), k)
    ensures var s := After(INIT, trace);
            && Numbered(RunAt(s, k))
            && (k == |s.past| && HasCaptured(s.worker) && !Stale(s) ==>
                  Results(s.run.appended) + ResultInHand(s.worker) == Reported(s.run.events))
  {
    InvariantHoldsInitially();
    NumbersAlways(INIT, trace);
    var s := After(INIT, trace);
    hide Possible, After;
    if k == |s.past| {
      UnderWayIsNumbered(s);
      assert Results([]) == [];
      hide Numbered, Results, Reported;
    }
  }

  // ---------- requests ----------

  /** At some point of the trace run `k` was under way, was current, and this was the history. */
  ghost predicate WasTheHistory(s: State, trace: seq<Action>, k: nat, q: Request)
    requires Possible(s, trace)
  {
    exists n: nat, s' ::
      && n <= |trace| && Leads(s, trace[..n], s')
      && |s'.past| == k && s'.worker.RoundStart? && !Stale(s')
      && q.history == s'.history && q.appended == |s'.run.appended|
  }

  predicate HasAsked(s: State, k: nat, q: Request) {
    IsRun(s, k) && q in RunAt(s, k).requests
  }

  lemma NewRequests(s: State, a: Action, k: nat, q: Request)
    requires Enabled(s, a) && !HasAsked(s, k, q) && HasAsked(Apply(s, a), k, q)
    ensures |s.past| == k && s.worker.RoundStart? && !Stale(s)
    ensures q.history == s.history && q.appended == |s.run.appended|
  {
    if Quiet(a) {
      QuietFrame(s, a);
      hide Apply;
    } else if a.ByOthers? {
      OthersMoveForward(s, a.other);
      hide ApplyOther;
    }
  }

  lemma AskedNow(s: State, trace: seq<Action>, k: nat, q: Request)
    requires Possible(s, trace) && |s.past| == k && s.worker.RoundStart? && !Stale(s)
    requires q.history == s.history && q.appended == |s.run.appended|
    ensures WasTheHistory(s, trace, k, q)
  {
    assert trace[..0] == [];
    assert Leads(s, trace[..0], s);
  }

  lemma AskedLater(s: State, trace: seq<Action>, k: nat, q: Request)
    requires trace != [] && Possible(s, trace) && WasTheHistory(Apply(s, trace[0]), trace[1..], k, q)
    ensures WasTheHistory(s, trace, k, q)
  {
    hide Enabled, Apply;
    var n: nat, s' :|
      && n <= |trace[1..]| && Leads(Apply(s, trace[0]), trace[1..][..n], s')
      && |s'.past| == k && s'.worker.RoundStart? && !Stale(s')
      && q.history == s'.history && q.appended == |s'.run.appended|;
    var t := trace[..n + 1];
    assert t[1..] == trace[1..][..n];
    assert Leads(s, trace[..n + 1], s');
  }

  lemma {:induction false} RequestsAlwaysCarry(s: State, trace: seq<Action>, k: nat, q: Request)
    requires Possible(s, trace) && !HasAsked(s, k, q) && HasAsked(After(s, trace), k, q)
    ensures WasTheHistory(s, trace, k, q)
    decreases |trace|
  {
    hide HasAsked, Enabled, Apply, WasTheHistory;
    if trace == [] {
      assert false;
    } else if HasAsked(Apply(s, trace[0]), k, q) {
      NewRequests(s, trace[0], k, q);
      AskedNow(s, trace, k, q);
    } else {
      RequestsAlwaysCarry(Apply(s, trace[0]), trace[1..], k, q);
      AskedLater(s, trace, k, q);
    }
  }

  /** Every request carried the whole history as it was at a moment at which its run was
      under way, current and between rounds: nothing left out, nothing of another time. */
  lemma RequestsCarryTheHistory(trace: seq<Action>, k: nat, q: Request)
    requires Possible(INIT, trace) && IsRun(After(INIT, trace), k) && q in RunAt(After(INIT, trace), k).requests
    ensures WasTheHistory(INIT, trace, k, q)
  {
    RequestsAlwaysCarry(INIT, trace, k, q);
  }
}
