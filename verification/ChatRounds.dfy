/** Tool rounds are closed before the model is asked again. */
module ChatRounds {
  import opened ChatTypes
  import opened Compaction
  import opened ChatMachine
  import opened ChatInvariants

  /** How far a run's appended messages have got. */
  datatype Shape =
    | Empty                        // nothing yet
    | Closed                       // prompt appended, every tool call so far answered
    | Open(rest: seq<ToolCall>)    // these calls still want an answer
    | Over                         // the final assistant message is in
    | Broken

  function Pending(rest: seq<ToolCall>): Shape {
    if rest == [] then Closed else Open(rest)
  }

  function Advance(shape: Shape, m: Message): Shape {
    match shape
    case Empty => if m.role.User? then Closed else Broken
    case Closed => if !m.role.Assistant? then Broken else if m.calls == [] then Over else Open(m.calls)
    case Open(rest) =>
      if m.role.Tool? && rest != [] && m.answers == rest[0].id && m.toolName == rest[0].name then Pending(rest[1..])
      else Broken
    case Over => Broken
    case Broken => Broken
  }

  function ShapeOf(ms: seq<Message>): Shape {
    if ms == [] then Empty else Advance(ShapeOf(ms[..|ms| - 1]), ms[|ms| - 1])
  }

  lemma ShapeAppend(ms: seq<Message>, m: Message)
    ensures ShapeOf(ms + [m]) == Advance(ShapeOf(ms), m)
  {
    assert (ms + [m])[..|ms|] == ms;
  }

  /** An early return from the tool loop is on account of something that stays true. */
  predicate Doomed(s: State) {
    s.stopRequested || Stale(s)
  }

  predicate RoundsOk(s: State) {
    var shape := ShapeOf(s.run.appended);
    match s.worker
    case Idle => true
    case RoundStart => shape == Closed
    case Streaming(_) => shape == Closed
    case ModelDone(_) => shape == Closed
    case RoundDone(round) => shape == Closed && round.tools != []
    case ToolLoop(round, i) => i <= |round.tools| && shape == Pending(round.tools[i..])
    case ToolRunning(round, i, _) => i < |round.tools| && shape == Pending(round.tools[i..])
    case ToolFinished(round, i, _, _, _) => i < |round.tools| && shape == Pending(round.tools[i..])
    case ToolAppended(round, i) => i < |round.tools| && shape == Pending(round.tools[i + 1..])
    case ToolsReturned => shape == Closed || (shape.Open? && Doomed(s))
    case ToolsReturnedNoStop => shape == Closed || (shape.Open? && Stale(s))
    case Returned => !shape.Broken?
    case _ => s.run.appended == []
  }

  lemma RoundsKeptByEntry(s: State, a: EntryAction)
    requires RoundsOk(s) && EntryEnabled(s, a)
    ensures RoundsOk(ApplyEntry(s, a))
  {
    hide Compacted, Removed, Truncated, CompactNow;
    if a.AppendPrompt? {
      ShapeAppend([], ActiveUserMessage(s.run.prompt.id, s.run.prompt.content, RunNumber(s)));
    }
    assert ShapeOf([]) == Empty;
    hide ShapeOf;
    if a.ChooseCompaction? && a.plan.Truncate? {
      CompactNowWorker(s, Truncated(s.history, a.plan.keep), Removed(s.history, a.plan.keep));
    } else if a.ReceiveSummary? {
      SummaryReady(s, a.summary);
    }
  }

  lemma SummaryReady(s: State, summary: Summary)
    requires s.worker.Summarizing?
    ensures var s' := ApplyEntry(s, ReceiveSummary(summary));
            s'.worker == ReadyToAppend && s'.run == s.run.(events := s'.run.events)
  {
    hide Compacted, Removed, Truncated, CompactNow;
    var keep := s.worker.keep;
    CompactNowWorker(s, Truncated(s.history, keep), Removed(s.history, keep));
    if summary.Written? {
      CompactNowWorker(s, Compacted(s.history, keep, SummaryNote(summary.text)), Removed(s.history, keep));
    }
  }

  lemma RoundAppended(s: State)
    requires RoundsOk(s) && s.worker.RoundDone? && !Stale(s)
    ensures RoundsOk(ApplyRound(s, AppendRound))
  {
    hide ShapeOf;
    var round := s.worker.round;
    ShapeAppend(s.run.appended, AssistantToolRound(s.run.assistantId, round.text, round.tools, RunNumber(s)));
    assert round.tools[0..] == round.tools;
  }

  lemma RoundsKeptByRound(s: State, a: RoundAction)
    requires RoundsOk(s) && RoundEnabled(s, a)
    ensures RoundsOk(ApplyRound(s, a))
  {
    hide Sink, QuietStep, ShapeOf, CancelRun;
    if a.Receive? {
      SinkFrame(s, s.worker.round, a.event);
    } else if Stale(s) {
      CancelFrame(s);
    } else if a.AppendRound? {
      RoundAppended(s);
    }
  }

  lemma ResultAppended(s: State)
    requires RoundsOk(s) && ToolEnabled(s, AppendResult)
    ensures RoundsOk(ApplyTool(s, AppendResult))
  {
    hide ShapeOf;
    var tools, i := s.worker.round.tools, s.worker.next;
    ShapeAppend(s.run.appended, ToolResultMessage(s.worker.card, tools[i], s.worker.content, s.worker.isError, RunNumber(s)));
    assert tools[i..][0] == tools[i] && tools[i..][1..] == tools[i + 1..];
  }

  lemma ToolStarted(s: State)
    requires RoundsOk(s) && ToolEnabled(s, StartTool)
    ensures RoundsOk(ApplyTool(s, StartTool))
  {
    hide ShapeOf;
  }

  lemma RoundsKeptByTool(s: State, a: ToolAction)
    requires RoundsOk(s) && ToolEnabled(s, a)
    ensures RoundsOk(ApplyTool(s, a))
  {
    hide ShapeOf;
    match a
    case AppendResult => ResultAppended(s);
    case StartTool => ToolStarted(s);
    case _ =>
  }

  lemma RoundsKeptByEnd(s: State, a: EndAction)
    requires RoundsOk(s) && EndEnabled(s, a)
    ensures RoundsOk(ApplyEnd(s, a))
  {
    hide ShapeOf, QuietStep;
    if !a.Drain? {
      CancelFrame(s);
    }
    hide CancelRun;
    if a.AppendFinal? {
      ShapeAppend(s.run.appended, FinalAssistantMessage(s.run.assistantId, s.worker.round.text, RunNumber(s)));
    }
  }

  lemma RoundsKeptByOthers(s: State, a: OtherAction)
    requires Generations(s) && RoundsOk(s) && OtherEnabled(s, a)
    ensures RoundsOk(ApplyOther(s, a))
  {
    OthersMoveForward(s, a);
    hide ApplyOther, ShapeOf;
  }

  lemma RoundsKept(s: State, a: Action)
    requires Generations(s) && RoundsOk(s) && Enabled(s, a)
    ensures RoundsOk(Apply(s, a))
  {
    hide ApplyOther, ApplyEntry, ApplyRound, ApplyTool, ApplyEnd, RoundsOk;
    match a
    case ByOthers(o) => RoundsKeptByOthers(s, o);
    case AtEntry(e) => RoundsKeptByEntry(s, e);
    case InRound(r) => RoundsKeptByRound(s, r);
    case InTools(t) => RoundsKeptByTool(s, t);
    case AtEnd(e) => RoundsKeptByEnd(s, e);
  }

  /** Each request run `k` made found all its tool calls answered, and carried every
      message the run had appended, in order. */
  ghost predicate RequestOk(r: Run, k: nat, q: Request) {
    && q.appended <= |r.appended|
    && ShapeOf(r.appended[..q.appended]) == Closed
    && OfRun(q.history, k) == r.appended[..q.appended]
  }

  ghost predicate RunOk(r: Run, k: nat) {
    && !ShapeOf(r.appended).Broken?
    && forall q :: q in r.requests ==> RequestOk(r, k, q)
  }

  ghost predicate AllRunsOk(s: State) {
    && (!s.worker.Idle? ==> RunOk(s.run, |s.past|))
    && forall k :: 0 <= k < |s.past| ==> RunOk(s.past[k], k)
  }

  lemma RoundsAreNotBroken(s: State)
    requires RoundsOk(s) && !s.worker.Idle?
    ensures !ShapeOf(s.run.appended).Broken?
  {}

  lemma RequestsKept(s: State, s': State)
    requires RoundsOk(s) && Projected(s) && RunOk(s.run, |s.past|)
    requires QuietStep(s, s') && !ShapeOf(s'.run.appended).Broken?
    ensures RunOk(s'.run, |s'.past|)
  {
    var k := |s.past|;
    forall q | q in s'.run.requests
      ensures RequestOk(s'.run, k, q)
    {
      if q in s.run.requests {
        assert RequestOk(s.run, k, q);
        assert s.run.appended <= s'.run.appended;
        assert s'.run.appended[..q.appended] == s.run.appended[..q.appended];
      } else {
        assert q == Request(s.history, |s.run.appended|);
        assert s'.run.appended[..q.appended] == s.run.appended;
      }
    }
  }

  lemma AllRunsKept(s: State, a: Action)
    requires Generations(s) && Projected(s) && RoundsOk(s) && AllRunsOk(s) && Enabled(s, a)
    ensures AllRunsOk(Apply(s, a))
  {
    RoundsKept(s, a);
    if Quiet(a) {
      QuietFrame(s, a);
      RoundsAreNotBroken(Apply(s, a));
      RequestsKept(s, Apply(s, a));
      hide Apply, RunOk;
    } else if a.ByOthers? {
      OthersMoveForward(s, a.other);
      hide ApplyOther, RunOk;
    }
  }

  // ---------- the same, as a grammar ----------

  /** An assistant message that asks for tools, and the results appended after it. */
  datatype Block = Block(assistant: Message, results: seq<Message>)

  /** A prompt, its tool rounds, and the closing assistant message if there is one. */
  datatype Transcript = Transcript(prompt: Message, blocks: seq<Block>, closing: seq<Message>)

  function Flatten(blocks: seq<Block>): seq<Message> {
    if blocks == [] then []
    else Flatten(blocks[..|blocks| - 1]) + [blocks[|blocks| - 1].assistant] + blocks[|blocks| - 1].results
  }

  function Render(t: Transcript): seq<Message> {
    [t.prompt] + Flatten(t.blocks) + t.closing
  }

  /** The results answer a prefix of the requested calls, in order. */
  predicate Answering(b: Block) {
    && b.assistant.role.Assistant? && b.assistant.calls != []
    && |b.results| <= |b.assistant.calls|
    && forall i :: 0 <= i < |b.results| ==>
         && b.results[i].role.Tool?
         && b.results[i].answers == b.assistant.calls[i].id
         && b.results[i].toolName == b.assistant.calls[i].name
  }

  predicate Answered(b: Block) {
    Answering(b) && |b.results| == |b.assistant.calls|
  }

  /** Every block but the last is answered in full; so is the last, if anything follows it. */
  predicate WellFormed(t: Transcript) {
    && t.prompt.role.User?
    && |t.closing| <= 1
    && (forall i :: 0 <= i < |t.closing| ==> t.closing[i].role.Assistant? && t.closing[i].calls == [])
    && (forall i :: 0 <= i < |t.blocks| ==> Answering(t.blocks[i]))
    && (forall i :: 0 <= i < |t.blocks| - 1 ==> Answered(t.blocks[i]))
    && (t.closing != [] && t.blocks != [] ==> Answered(t.blocks[|t.blocks| - 1]))
  }

  /** Nothing is waiting for an answer. */
  predicate FullyAnswered(t: Transcript) {
    forall i :: 0 <= i < |t.blocks| ==> Answered(t.blocks[i])
  }

  function Extend(t: Transcript, m: Message): Transcript {
    var n := |t.blocks|;
    if m.role.Tool? && n > 0 then
      t.(blocks := t.blocks[..n - 1] + [Block(t.blocks[n - 1].assistant, t.blocks[n - 1].results + [m])])
    else if m.calls == [] then t.(closing := [m])
    else t.(blocks := t.blocks + [Block(m, [])])
  }

  function Parse(ms: seq<Message>): Transcript
    requires ms != []
  {
    if |ms| == 1 then Transcript(ms[0], [], [])
    else Extend(Parse(ms[..|ms| - 1]), ms[|ms| - 1])
  }

  /** What a shape says about the transcript. */
  predicate Fits(shape: Shape, t: Transcript) {
    match shape
    case Closed => FullyAnswered(t) && t.closing == []
    case Open(rest) =>
      && t.blocks != [] && t.closing == [] && rest != []
      && (var b := t.blocks[|t.blocks| - 1];
          Answering(b) && b.assistant.calls[|b.results|..] == rest)
    case Over => FullyAnswered(t) && |t.closing| == 1
    case _ => false
  }

  lemma FlattenLast(blocks: seq<Block>, b: Block)
    ensures Flatten(blocks + [b]) == Flatten(blocks) + [b.assistant] + b.results
  {
    assert (blocks + [b])[..|blocks|] == blocks;
  }

  lemma RenderedResult(t: Transcript, m: Message)
    requires t.blocks != [] && t.closing == []
    ensures var n := |t.blocks|;
            var b := t.blocks[n - 1];
            Render(t.(blocks := t.blocks[..n - 1] + [Block(b.assistant, b.results + [m])])) == Render(t) + [m]
  {
    var n := |t.blocks|;
    var b := t.blocks[n - 1];
    FlattenLast(t.blocks[..n - 1], Block(b.assistant, b.results + [m]));
    assert t.blocks == t.blocks[..n - 1] + [b];
    FlattenLast(t.blocks[..n - 1], b);
    hide Flatten;
  }

  /** Adding a result to the last block. */
  lemma AddResult(t: Transcript, m: Message)
    requires WellFormed(t) && t.blocks != [] && t.closing == []
    requires m.role.Tool?
    requires var b := t.blocks[|t.blocks| - 1];
             && |b.results| < |b.assistant.calls|
             && m.answers == b.assistant.calls[|b.results|].id
             && m.toolName == b.assistant.calls[|b.results|].name
    ensures var n := |t.blocks|;
            var b := t.blocks[n - 1];
            var b' := Block(b.assistant, b.results + [m]);
            var t' := t.(blocks := t.blocks[..n - 1] + [b']);
            && WellFormed(t') && Render(t') == Render(t) + [m]
            && Fits(Pending(b.assistant.calls[|b.results|..][1..]), t')
  {
    hide Render;
    RenderedResult(t, m);
    var n := |t.blocks|;
    var b := t.blocks[n - 1];
    var b' := Block(b.assistant, b.results + [m]);
    assert Answering(b');
    assert b.assistant.calls[|b.results|..][1..] == b'.assistant.calls[|b'.results|..];
  }

  lemma AddBlock(t: Transcript, m: Message)
    requires WellFormed(t) && FullyAnswered(t) && t.closing == []
    requires m.role.Assistant? && m.calls != []
    ensures var t' := t.(blocks := t.blocks + [Block(m, [])]);
            WellFormed(t') && Render(t') == Render(t) + [m] && Fits(Open(m.calls), t')
  {
    FlattenLast(t.blocks, Block(m, []));
    assert m.calls[0..] == m.calls;
  }

  lemma ExtendFits(t: Transcript, shape: Shape, m: Message)
    requires WellFormed(t) && Fits(shape, t) && !Advance(shape, m).Broken?
    requires m.role.Assistant? || shape.Open?
    ensures WellFormed(Extend(t, m)) && Fits(Advance(shape, m), Extend(t, m))
    ensures Render(Extend(t, m)) == Render(t) + [m]
  {
    hide WellFormed, Render, Flatten;
    if shape.Open? {
      AddResult(t, m);
    } else if m.calls != [] {
      AddBlock(t, m);
    } else {
      CloseTranscript(t, m);
    }
  }

  lemma CloseTranscript(t: Transcript, m: Message)
    requires WellFormed(t) && FullyAnswered(t) && t.closing == []
    requires m.role.Assistant? && m.calls == []
    ensures var t' := t.(closing := [m]);
            WellFormed(t') && Render(t') == Render(t) + [m] && Fits(Over, t')
  {}

  /** The messages of a run, read back as a prompt, tool rounds and a closing message. */
  lemma {:induction false} RunsHaveTheirGrammar(ms: seq<Message>)
    requires ms != [] && !ShapeOf(ms).Broken?
    ensures Render(Parse(ms)) == ms
    ensures WellFormed(Parse(ms))
    ensures Fits(ShapeOf(ms), Parse(ms))
  {
    if |ms| <= 1 {
    } else {
      var init, m := ms[..|ms| - 1], ms[|ms| - 1];
      assert ms == init + [m];
      RunsHaveTheirGrammar(init);
      hide WellFormed, Render, Fits, Extend;
      ShapeOfNonEmpty(init);
      ExtendFits(Parse(init), ShapeOf(init), m);
    }
  }

  lemma ShapeOfNonEmpty(ms: seq<Message>)
    requires ms != []
    ensures ShapeOf(ms) != Empty
  {}

  /** The shape is determined by what is answered. */
  lemma ShapeFromAnswers(shape: Shape, t: Transcript)
    requires Fits(shape, t) && WellFormed(t) && t.closing == []
    ensures FullyAnswered(t) ==> shape == Closed
    ensures t.blocks != [] && !Answered(t.blocks[|t.blocks| - 1]) ==>
              var b := t.blocks[|t.blocks| - 1];
              shape == Open(b.assistant.calls[|b.results|..])
  {
    if shape.Open? {
      assert !Answered(t.blocks[|t.blocks| - 1]);
    }
  }

  /** Rendered, it has the shape it should, and it is read back. */
  predicate Accepted(t: Transcript) {
    && Render(t) != []
    && Fits(ShapeOf(Render(t)), t)
    && Parse(Render(t)) == t
  }

  /** One more message, rendered and read back. */
  lemma AcceptedStep(t: Transcript, m: Message)
    requires Render(t) != [] && Parse(Render(t)) == t
    ensures ShapeOf(Render(t) + [m]) == Advance(ShapeOf(Render(t)), m)
    ensures Parse(Render(t) + [m]) == Extend(t, m)
  {
    var ms := Render(t);
    ShapeAppend(ms, m);
    assert (ms + [m])[..|ms|] == ms;
  }

  lemma ClosedTranscriptIsAccepted(t: Transcript, m: Message)
    requires WellFormed(t) && FullyAnswered(t) && t.closing == [] && Accepted(t)
    requires m.role.Assistant? && m.calls == []
    ensures Accepted(t.(closing := [m]))
  {
    CloseTranscript(t, m);
    ShapeFromAnswers(ShapeOf(Render(t)), t);
    AcceptedStep(t, m);
    hide Render, Parse, ShapeOf, Fits, WellFormed, FullyAnswered;
  }

  lemma LongerTranscriptIsAccepted(t: Transcript, m: Message)
    requires WellFormed(t) && FullyAnswered(t) && t.closing == [] && Accepted(t)
    requires m.role.Assistant? && m.calls != []
    ensures Accepted(t.(blocks := t.blocks + [Block(m, [])]))
  {
    AddBlock(t, m);
    ShapeFromAnswers(ShapeOf(Render(t)), t);
    AcceptedStep(t, m);
    hide Render, Parse, ShapeOf, Fits, WellFormed, FullyAnswered;
  }

  lemma FullerBlockIsAccepted(t: Transcript, m: Message)
    requires WellFormed(t) && t.blocks != [] && t.closing == [] && Accepted(t)
    requires m.role.Tool?
    requires var b := t.blocks[|t.blocks| - 1];
             && |b.results| < |b.assistant.calls|
             && m.answers == b.assistant.calls[|b.results|].id
             && m.toolName == b.assistant.calls[|b.results|].name
    ensures Accepted(Extend(t, m))
  {
    AddResult(t, m);
    ShapeFromAnswers(ShapeOf(Render(t)), t);
    AcceptedStep(t, m);
    hide Render, Parse, ShapeOf, Fits, WellFormed, FullyAnswered;
  }

  lemma PromptIsAccepted(t: Transcript)
    requires WellFormed(t) && t.blocks == [] && t.closing == []
    ensures Accepted(t)
  {
    assert Render(t) == [t.prompt];
    ShapeAppend([], t.prompt);
    assert [] + [t.prompt] == [t.prompt];
  }

  lemma WithoutLastResult(t: Transcript) returns (t0: Transcript, m: Message)
    requires WellFormed(t) && t.closing == [] && t.blocks != [] && t.blocks[|t.blocks| - 1].results != []
    ensures WellFormed(t0) && t0.closing == [] && |t0.blocks| == |t.blocks|
    ensures m.role.Tool? && Extend(t0, m) == t
    ensures var b, b0 := t.blocks[|t.blocks| - 1], t0.blocks[|t.blocks| - 1];
            && |b0.results| + 1 == |b.results| <= |b0.assistant.calls|
            && m.answers == b0.assistant.calls[|b0.results|].id
            && m.toolName == b0.assistant.calls[|b0.results|].name
  {
    var n := |t.blocks|;
    var b := t.blocks[n - 1];
    var b0 := b.(results := b.results[..|b.results| - 1]);
    m := b.results[|b.results| - 1];
    t0 := t.(blocks := t.blocks[..n - 1] + [b0]);
    assert Answering(b);
    assert b.results == b0.results + [m];
    assert t.blocks == t.blocks[..n - 1] + [b];
  }

  lemma WithoutLastBlock(t: Transcript) returns (t0: Transcript, m: Message)
    requires WellFormed(t) && t.closing == [] && t.blocks != [] && t.blocks[|t.blocks| - 1].results == []
    ensures WellFormed(t0) && FullyAnswered(t0) && t0.closing == [] && |t0.blocks| < |t.blocks|
    ensures m.role.Assistant? && m.calls != [] && t == t0.(blocks := t0.blocks + [Block(m, [])])
  {
    var n := |t.blocks|;
    m := t.blocks[n - 1].assistant;
    t0 := t.(blocks := t.blocks[..n - 1]);
    assert Answering(t.blocks[n - 1]);
    assert t.blocks == t0.blocks + [Block(m, [])];
  }

  lemma WithoutClosing(t: Transcript) returns (t0: Transcript, m: Message)
    requires WellFormed(t) && t.closing != []
    ensures WellFormed(t0) && FullyAnswered(t0) && t0.closing == []
    ensures m.role.Assistant? && m.calls == [] && t == t0.(closing := [m])
  {
    m := t.closing[0];
    t0 := t.(closing := []);
    assert t.closing == [m];
  }

  lemma {:induction false} TranscriptsAreAccepted(t: Transcript)
    requires WellFormed(t)
    ensures Accepted(t)
    decreases |t.closing|, |t.blocks|, if t.blocks == [] then 0 else |t.blocks[|t.blocks| - 1].results|
  {
    hide *;
    if t.closing != [] {
      var t0, m := WithoutClosing(t);
      TranscriptsAreAccepted(t0);
      ClosedTranscriptIsAccepted(t0, m);
    } else if t.blocks == [] {
      PromptIsAccepted(t);
    } else if t.blocks[|t.blocks| - 1].results == [] {
      var t0, m := WithoutLastBlock(t);
      TranscriptsAreAccepted(t0);
      LongerTranscriptIsAccepted(t0, m);
    } else {
      var t0, m := WithoutLastResult(t);
      TranscriptsAreAccepted(t0);
      FullerBlockIsAccepted(t0, m);
    }
  }

  /** The converse: every well-formed transcript is accepted, and read back as itself. */
  lemma GrammarIsAccepted(t: Transcript)
    requires WellFormed(t)
    ensures Render(t) != [] && !ShapeOf(Render(t)).Broken?
    ensures Parse(Render(t)) == t
  {
    TranscriptsAreAccepted(t);
    hide Render, Parse, ShapeOf, WellFormed;
  }
}
