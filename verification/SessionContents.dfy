/** What the transcript holds: every mutation does what its name says to the one thing it
    names, and leaves everything else alone. */
module SessionContents {
  import opened ChatTypes
  import opened Numerals
  import opened Strings
  import opened RenderPlan
  import opened SessionModel
  import opened SessionInvariants

  // ---------- the text of a message ----------

  function TextOfSegment(g: Segment): string {
    if g.TextSegment? then g.text else ""
  }

  /** `CombinedText`. */
  function CombinedText(segments: seq<Segment>): string {
    if segments == [] then ""
    else CombinedText(segments[..|segments| - 1]) + TextOfSegment(segments[|segments| - 1])
  }

  lemma CombinedPush(segments: seq<Segment>, g: Segment)
    ensures CombinedText(segments + [g]) == CombinedText(segments) + TextOfSegment(g)
  {
    assert (segments + [g])[..|segments|] == segments;
  }

  lemma {:induction false} CombinedUpdate(segments: seq<Segment>, j: nat, g: Segment)
    requires j < |segments| && TextOfSegment(segments[j]) == TextOfSegment(g)
    ensures CombinedText(segments[j := g]) == CombinedText(segments)
    decreases |segments|
  {
    var last := |segments| - 1;
    if j == last {
      assert segments[j := g][..last] == segments[..last];
    } else {
      assert segments[j := g][..last] == segments[..last][j := g];
      CombinedUpdate(segments[..last], j, g);
    }
  }

  /** Tool segments keep their places and what they hold. */
  predicate ToolsKeepTheirPlaces(before: seq<Segment>, after: seq<Segment>) {
    && |before| <= |after|
    && (forall j :: 0 <= j < |before| ==>
          (before[j].ToolSegment? ==> after[j] == before[j]) && (after[j].ToolSegment? ==> before[j].ToolSegment?))
    && forall j :: |before| <= j < |after| ==> after[j].TextSegment?
  }

  lemma AppendedText(segments: seq<Segment>, delta: string)
    ensures CombinedText(AppendText(segments, delta)) == CombinedText(segments) + delta
    ensures ToolsKeepTheirPlaces(segments, AppendText(segments, delta))
  {
    if OpensSegment(segments) {
      CombinedPush(segments, TextSegment(delta));
    } else {
      var last := |segments| - 1;
      var front, text := segments[..last], segments[last].text;
      assert segments == front + [segments[last]];
      assert AppendText(segments, delta) == front + [TextSegment(text + delta)];
      CombinedPush(front, TextSegment(text + delta));
      CombinedPush(front, segments[last]);
      Assoc(CombinedText(front), text, delta);
    }
  }

  // ---------- one append ----------

  /** Streaming a delta into a message puts it behind the text that is there. Its tool
      segments keep their places, all else about it stays, and so do all other messages
      and everything beside them. */
  lemma AppendsGoToTheEnd(s: Session, id: nat, delta: string)
    ensures var s' := Do(s, DoAppendText(id, delta));
            && |s'.messages| == |s.messages|
            && s' == s.(messages := s'.messages, planGeneration := s'.planGeneration, contentGeneration := s'.contentGeneration)
            && forall k :: 0 <= k < |s.messages| ==>
                 var m, m' := s.messages[k], s'.messages[k];
                 if LastIndexOf(s.messages, id) == Some(k) then
                   && m' == m.(segments := m'.segments)
                   && CombinedText(m'.segments) == CombinedText(m.segments) + delta
                   && ToolsKeepTheirPlaces(m.segments, m'.segments)
                 else m' == m
  {
    hide CombinedText, AppendText, ToolsKeepTheirPlaces, OpensSegment;
    var i := LastIndexOf(s.messages, id);
    if i.Some? {
      AppendedText(s.messages[i.value].segments, delta);
      NothingAppended(s.messages[i.value].segments);
    }
  }

  lemma NothingAppended(segments: seq<Segment>)
    ensures CombinedText(segments) + "" == CombinedText(segments) && ToolsKeepTheirPlaces(segments, segments)
  {}

  // ---------- one message under all mutations ----------

  predicate Holds(s: Session, id: nat) {
    LastIndexOf(s.messages, id).Some?
  }

  function MessageOf(s: Session, id: nat): Entry
    requires Holds(s, id)
  {
    s.messages[LastIndexOf(s.messages, id).value]
  }

  /** The mutation neither clears the transcript nor adds another message under `id`. */
  predicate Spares(op: Op, id: nat) {
    !op.DoClear? && !(op.DoAddMessageWithId? && op.id == id)
  }

  function DeltaOf(op: Op, id: nat): string {
    if op.DoAppendText? && op.id == id then op.delta else ""
  }

  function StatusAfter(op: Op, id: nat, status: Status): Status {
    if op.DoSetStatus? && op.id == id then op.status else status
  }

  /** What the mutation does to a message, all of it but tool segments. */
  predicate MessageMoves(m: Entry, m': Entry, delta: string, status: Status) {
    && m' == m.(segments := m'.segments, status := status)
    && CombinedText(m'.segments) == CombinedText(m.segments) + delta
  }

  lemma MessageStands(m: Entry)
    ensures MessageMoves(m, m, "", m.status)
  {}

  lemma Pushed(s: Session, s': Session, m: Entry, id: nat)
    requires Holds(s, id) && s'.messages == s.messages + [m] && m.id != id
    ensures Holds(s', id) && MessageOf(s', id) == MessageOf(s, id)
  {
    LastIndexOfAppend(s.messages, m, id);
  }

  lemma Edited(s: Session, s': Session, i: nat, segments: seq<Segment>, id: nat)
    requires Holds(s, id) && i < |s.messages| && s'.messages == WithSegments(s.messages, i, segments)
    requires CombinedText(segments) == CombinedText(s.messages[i].segments)
    ensures Holds(s', id) && MessageMoves(MessageOf(s, id), MessageOf(s', id), "", MessageOf(s, id).status)
  {
    LastIndexOfUpdate(s.messages, i, s.messages[i].(segments := segments), id);
    NothingAppended(segments);
    NothingAppended(MessageOf(s, id).segments);
    hide CombinedText;
  }

  lemma TurnLeavesMessage(s: Session, now: int, id: nat)
    requires Holds(s, id) && s.nextId != id
    ensures Holds(EnsureAgentTurn(s, now), id) && MessageOf(EnsureAgentTurn(s, now), id) == MessageOf(s, id)
  {
    if !HasTurn(s) {
      Pushed(s, EnsureAgentTurn(s, now), Entry(s.nextId, AgentSender, [], Active, "", now), id);
    }
  }

  lemma ToolLeavesText(s: Session, toolId: nat, block: string, status: Status, now: int, id: nat)
    requires Holds(s, id) && id < s.nextId
    ensures var s' := AddTool(s, toolId, block, status, now);
            Holds(s', id) && MessageMoves(MessageOf(s, id), MessageOf(s', id), "", MessageOf(s, id).status)
  {
    hide CombinedText, EnsureAgentTurn, TurnIndex, MessageMoves;
    var s0 := s.(nextId := Above(s.nextId, toolId));
    TurnLeavesMessage(s0, now, id);
    TurnIndexIsOpen(s0, now);
    var s1, i := EnsureAgentTurn(s0, now), TurnIndex(s0);
    var segments := s1.messages[i].segments;
    CombinedPush(segments, ToolSegment(toolId, block, status));
    NothingAppended(segments);
    Edited(s1, AddTool(s, toolId, block, status, now), i, segments + [ToolSegment(toolId, block, status)], id);
  }

  lemma UpdateLeavesText(s: Session, toolId: nat, block: string, status: Status, id: nat)
    requires Holds(s, id)
    ensures var s' := UpdateTool(s, toolId, block, status);
            Holds(s', id) && MessageMoves(MessageOf(s, id), MessageOf(s', id), "", MessageOf(s, id).status)
  {
    hide CombinedText, MessageMoves;
    if HasTool(s, toolId) {
      var at := s.toolAt[toolId];
      var segments := s.messages[at.message].segments;
      var tool := segments[at.segment].(block := block, status := status);
      CombinedUpdate(segments, at.segment, tool);
      Edited(s, UpdateTool(s, toolId, block, status), at.message, segments[at.segment := tool], id);
    } else {
      MessageStands(MessageOf(s, id));
    }
  }

  lemma AppendMovesText(s: Session, other: nat, delta: string, id: nat)
    requires Holds(s, id)
    ensures var s' := AppendToMessage(s, other, delta);
            && Holds(s', id)
            && MessageMoves(MessageOf(s, id), MessageOf(s', id), if other == id then delta else "", MessageOf(s, id).status)
  {
    hide CombinedText, AppendText, OpensSegment;
    NothingAppended(MessageOf(s, id).segments);
    var i := LastIndexOf(s.messages, other);
    if i.Some? && delta != "" {
      var segments := AppendText(s.messages[i.value].segments, delta);
      AppendedText(s.messages[i.value].segments, delta);
      LastIndexOfUpdate(s.messages, i.value, s.messages[i.value].(segments := segments), id);
    }
  }

  lemma StatusMoves(s: Session, other: nat, status: Status, id: nat)
    requires Holds(s, id)
    ensures var s' := SetStatus(s, other, status);
            && Holds(s', id)
            && MessageMoves(MessageOf(s, id), MessageOf(s', id), "", if other == id then status else MessageOf(s, id).status)
  {
    hide CombinedText;
    NothingAppended(MessageOf(s, id).segments);
    var i := LastIndexOf(s.messages, other);
    if i.Some? && s.messages[i.value].status != status {
      LastIndexOfUpdate(s.messages, i.value, s.messages[i.value].(status := status), id);
    }
  }

  /** What any mutation does to the message `id`: a delta for it goes behind its text, a
      status for it becomes its status, and nothing else changes either, nor its sender,
      its label or its time. */
  lemma MessageStep(s: Session, op: Op, id: nat)
    requires Sound(s) && Holds(s, id) && Spares(op, id)
    ensures var s' := Do(s, op);
            && Holds(s', id)
            && MessageMoves(MessageOf(s, id), MessageOf(s', id), DeltaOf(op, id), StatusAfter(op, id, MessageOf(s, id).status))
  {
    hide MessageMoves, AddTool, UpdateTool, AppendToMessage, SetStatus, ToolsLocated, ToolsKnown;
    MessageStands(MessageOf(s, id));
    match op
    case DoAddMessage(sender, content, status, now) =>
      Pushed(s, Do(s, op), Entry(s.nextId, sender, [TextSegment(content)], status, "", now), id);
    case DoAddMessageWithId(other, sender, content, status, roleLabel, now) =>
      Pushed(s, Do(s, op), Entry(other, sender, [TextSegment(content)], status, roleLabel, now), id);
    case DoAddFreshTool(block, status, now) =>
      ToolLeavesText(s.(nextId := s.nextId + 1), s.nextId, block, status, now, id);
    case DoAddTool(toolId, block, status, now) => ToolLeavesText(s, toolId, block, status, now, id);
    case DoUpdateTool(toolId, block, status) => UpdateLeavesText(s, toolId, block, status, id);
    case DoAppendText(other, delta) => AppendMovesText(s, other, delta, id);
    case DoSetStatus(other, status) => StatusMoves(s, other, status, id);
    case _ =>
  }

  // ---------- any run of mutations ----------

  function Deltas(ops: seq<Op>, id: nat): string {
    if ops == [] then "" else Deltas(ops[..|ops| - 1], id) + DeltaOf(ops[|ops| - 1], id)
  }

  function LastStatus(ops: seq<Op>, id: nat, status: Status): Status {
    if ops == [] then status else StatusAfter(ops[|ops| - 1], id, LastStatus(ops[..|ops| - 1], id, status))
  }

  lemma {:induction false} SoundAlways(s: Session, ops: seq<Op>)
    requires Sound(s)
    ensures Sound(DoAll(s, ops))
    decreases |ops|
  {
    hide Sound, Do;
    if ops == [] {
    } else {
      SoundAlways(s, ops[..|ops| - 1]);
      SoundKept(DoAll(s, ops[..|ops| - 1]), ops[|ops| - 1]);
    }
  }

  /** Streamed text arrives whole and in order: after any mutations, of this message and
      of all others, the message holds its old text followed by the deltas it got, in the
      order it got them, and has the status it was last given. */
  lemma {:induction false} TextIsWhatWasAppended(s: Session, ops: seq<Op>, id: nat)
    requires Sound(s) && Holds(s, id) && forall op :: op in ops ==> Spares(op, id)
    ensures var s' := DoAll(s, ops);
            && Holds(s', id)
            && MessageMoves(MessageOf(s, id), MessageOf(s', id), Deltas(ops, id), LastStatus(ops, id, MessageOf(s, id).status))
    decreases |ops|
  {
    hide Sound, Do, Spares, DeltaOf, StatusAfter;
    if ops == [] {
      NothingAppended(MessageOf(s, id).segments);
      assert DoAll(s, ops) == s;
    } else {
      var front, op := ops[..|ops| - 1], ops[|ops| - 1];
      TextIsWhatWasAppended(s, front, id);
      SoundAlways(s, front);
      MessageStep(DoAll(s, front), op, id);
      Assoc(CombinedText(MessageOf(s, id).segments), Deltas(front, id), DeltaOf(op, id));
      hide CombinedText;
    }
  }
}
