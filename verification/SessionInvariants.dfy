/** What every mutation of a chat session keeps. */
module SessionInvariants {
  import opened ChatTypes
  import opened Numerals
  import opened RenderPlan
  import opened SessionModel

  // ---------- tools and ids ----------

  predicate IsTool(ms: seq<Entry>, at: Location, toolId: nat) {
    HasSegment(ms, at) && SegmentAt(ms, at).ToolSegment? && SegmentAt(ms, at).id == toolId
  }

  /** Each tool location is a tool segment carrying that id. */
  ghost predicate ToolsLocated(ms: seq<Entry>, toolAt: map<nat, Location>) {
    forall t :: t in toolAt ==> IsTool(ms, toolAt[t], t)
  }

  predicate ToolIdsKnown(segments: seq<Segment>, toolAt: map<nat, Location>) {
    forall j :: 0 <= j < |segments| && segments[j].ToolSegment? ==> segments[j].id in toolAt
  }

  /** Every tool segment can be found by its id. */
  ghost predicate ToolsKnown(ms: seq<Entry>, toolAt: map<nat, Location>) {
    forall i :: 0 <= i < |ms| ==> ToolIdsKnown(ms[i].segments, toolAt)
  }

  /** Every id in use is below the next one to be minted. */
  ghost predicate IdsBelow(s: Session) {
    && (forall i :: 0 <= i < |s.messages| ==> s.messages[i].id < s.nextId)
    && (forall i :: 0 <= i < |s.notices| ==> s.notices[i].id < s.nextId)
    && (forall t :: t in s.toolAt ==> t < s.nextId)
  }

  ghost predicate Sound(s: Session) {
    ToolsLocated(s.messages, s.toolAt) && ToolsKnown(s.messages, s.toolAt) && IdsBelow(s)
  }

  /** Messages whose segments only grew, or changed in place under the same ids. */
  predicate Grown(a: seq<Segment>, b: seq<Segment>) {
    && |a| <= |b|
    && forall j :: 0 <= j < |a| ==>
         (a[j].ToolSegment? ==> b[j].ToolSegment? && b[j].id == a[j].id)
         && (b[j].ToolSegment? ==> a[j].ToolSegment?)
  }

  lemma LocatedAfterEdit(ms: seq<Entry>, i: nat, segments: seq<Segment>, toolAt: map<nat, Location>)
    requires i < |ms| && ToolsLocated(ms, toolAt) && Grown(ms[i].segments, segments)
    ensures ToolsLocated(WithSegments(ms, i, segments), toolAt)
  {
    var ms' := WithSegments(ms, i, segments);
    forall t | t in toolAt
      ensures IsTool(ms', toolAt[t], t)
    {
      assert IsTool(ms, toolAt[t], t);
    }
  }

  lemma KnownAfterEdit(ms: seq<Entry>, i: nat, segments: seq<Segment>, toolAt: map<nat, Location>)
    requires i < |ms| && ToolsKnown(ms, toolAt) && ToolIdsKnown(segments, toolAt)
    ensures ToolsKnown(WithSegments(ms, i, segments), toolAt)
  {}

  lemma LocatedAfterPush(ms: seq<Entry>, m: Entry, toolAt: map<nat, Location>)
    requires ToolsLocated(ms, toolAt) && ToolsKnown(ms, toolAt)
    requires forall j :: 0 <= j < |m.segments| ==> m.segments[j].TextSegment?
    ensures ToolsLocated(ms + [m], toolAt) && ToolsKnown(ms + [m], toolAt)
  {
    forall t | t in toolAt
      ensures IsTool(ms + [m], toolAt[t], t)
    {
      assert IsTool(ms, toolAt[t], t);
    }
  }

  lemma SoundAfterPush(s: Session, m: Entry, s': Session)
    requires Sound(s)
    requires forall j :: 0 <= j < |m.segments| ==> m.segments[j].TextSegment?
    requires s'.messages == s.messages + [m] && s'.notices == s.notices && s'.toolAt == s.toolAt
    requires s.nextId <= s'.nextId && m.id < s'.nextId
    ensures Sound(s')
  {
    LocatedAfterPush(s.messages, m, s.toolAt);
  }

  lemma SoundAfterEnsure(s: Session, now: int)
    requires Sound(s)
    ensures Sound(EnsureAgentTurn(s, now))
  {
    if !HasTurn(s) {
      SoundAfterPush(s, Entry(s.nextId, AgentSender, [], Active, "", now), EnsureAgentTurn(s, now));
    }
  }

  lemma LocatedAfterAdd(ms: seq<Entry>, i: nat, tool: Segment, toolAt: map<nat, Location>)
    requires i < |ms| && tool.ToolSegment? && ToolsLocated(ms, toolAt)
    ensures var segments := ms[i].segments;
            ToolsLocated(WithSegments(ms, i, segments + [tool]), toolAt[tool.id := Location(i, |segments|)])
  {
    LocatedAfterEdit(ms, i, ms[i].segments + [tool], toolAt);
  }

  lemma KnownAfterAdd(ms: seq<Entry>, i: nat, tool: Segment, toolAt: map<nat, Location>)
    requires i < |ms| && tool.ToolSegment? && ToolsKnown(ms, toolAt)
    ensures var segments := ms[i].segments;
            ToolsKnown(WithSegments(ms, i, segments + [tool]), toolAt[tool.id := Location(i, |segments|)])
  {
    var toolAt' := toolAt[tool.id := Location(i, |ms[i].segments|)];
    forall k | 0 <= k < |ms|
      ensures ToolIdsKnown(WithSegments(ms, i, ms[i].segments + [tool])[k].segments, toolAt')
    {
      assert ToolIdsKnown(ms[k].segments, toolAt);
    }
  }

  lemma TurnsUseLaterIds(s: Session, now: int)
    ensures s.nextId <= EnsureAgentTurn(s, now).nextId
  {}

  lemma SoundAfterAddTool(s: Session, toolId: nat, block: string, status: Status, now: int)
    requires Sound(s)
    ensures Sound(AddTool(s, toolId, block, status, now))
  {
    hide EnsureAgentTurn, TurnIndex, ToolsLocated, ToolsKnown;
    var s0 := s.(nextId := Above(s.nextId, toolId));
    assert Sound(s0);
    SoundAfterEnsure(s0, now);
    TurnIndexIsOpen(s0, now);
    TurnsUseLaterIds(s0, now);
    var s1, i := EnsureAgentTurn(s0, now), TurnIndex(s0);
    var tool := ToolSegment(toolId, block, status);
    LocatedAfterAdd(s1.messages, i, tool, s1.toolAt);
    KnownAfterAdd(s1.messages, i, tool, s1.toolAt);
  }

  lemma SoundAfterUpdateTool(s: Session, toolId: nat, block: string, status: Status)
    requires Sound(s)
    ensures Sound(UpdateTool(s, toolId, block, status))
  {
    if HasTool(s, toolId) {
      var at := s.toolAt[toolId];
      var segments := s.messages[at.message].segments;
      var segments' := segments[at.segment := SegmentAt(s.messages, at).(block := block, status := status)];
      assert ToolIdsKnown(segments, s.toolAt);
      LocatedAfterEdit(s.messages, at.message, segments', s.toolAt);
      KnownAfterEdit(s.messages, at.message, segments', s.toolAt);
    }
  }

  lemma SoundAfterAppendText(s: Session, id: nat, delta: string)
    requires Sound(s)
    ensures Sound(AppendToMessage(s, id, delta))
  {
    var i := LastIndexOf(s.messages, id);
    if delta != "" && i.Some? {
      var segments := s.messages[i.value].segments;
      assert ToolIdsKnown(segments, s.toolAt);
      LocatedAfterEdit(s.messages, i.value, AppendText(segments, delta), s.toolAt);
      KnownAfterEdit(s.messages, i.value, AppendText(segments, delta), s.toolAt);
    }
  }

  lemma SoundAfterSetStatus(s: Session, id: nat, status: Status)
    requires Sound(s)
    ensures Sound(SetStatus(s, id, status))
  {
    var i := LastIndexOf(s.messages, id);
    if i.Some? && s.messages[i.value].status != status {
      var ms' := s.messages[i.value := s.messages[i.value].(status := status)];
      forall t | t in s.toolAt
        ensures IsTool(ms', s.toolAt[t], t)
      {
        assert IsTool(s.messages, s.toolAt[t], t);
      }
    }
  }

  lemma ClearedIsSound(s: Session)
    ensures Sound(Clear(s))
  {}

  /** Every mutation keeps tool locations right and ids below the next one. */
  lemma SoundKept(s: Session, op: Op)
    requires Sound(s)
    ensures Sound(Do(s, op))
  {
    hide AddTool, UpdateTool, AppendToMessage, SetStatus, ToolsLocated, ToolsKnown;
    match op
    case DoAddMessage(sender, content, status, now) =>
      SoundAfterPush(s, Entry(s.nextId, sender, [TextSegment(content)], status, "", now), Do(s, op));
    case DoAddMessageWithId(id, sender, content, status, roleLabel, now) =>
      SoundAfterPush(s, Entry(id, sender, [TextSegment(content)], status, roleLabel, now), Do(s, op));
    case DoAddFreshTool(block, status, now) => SoundAfterAddTool(s.(nextId := s.nextId + 1), s.nextId, block, status, now);
    case DoAddTool(toolId, block, status, now) => SoundAfterAddTool(s, toolId, block, status, now);
    case DoUpdateTool(toolId, block, status) => SoundAfterUpdateTool(s, toolId, block, status);
    case DoAppendText(id, delta) => SoundAfterAppendText(s, id, delta);
    case DoSetStatus(id, status) => SoundAfterSetStatus(s, id, status);
    case DoClear => ClearedIsSound(s);
    case _ =>
  }

  /** In every reachable session each tool location is a segment carrying that tool
      id, every tool segment can be found, and every id in use is below the next. */
  lemma {:induction false} ReachableSessionsAreSound(ops: seq<Op>)
    ensures Sound(DoAll(EMPTY, ops))
    decreases |ops|
  {
    if ops == [] {
    } else {
      ReachableSessionsAreSound(ops[..|ops| - 1]);
      SoundKept(DoAll(EMPTY, ops[..|ops| - 1]), ops[|ops| - 1]);
    }
  }

  /** An id minted in a reachable session is not the id of any message, notice or tool. */
  lemma MintedIdsAreFresh(ops: seq<Op>)
    ensures var s := DoAll(EMPTY, ops);
            && LastIndexOf(s.messages, s.nextId) == None
            && s.nextId !in s.toolAt
            && forall i :: 0 <= i < |s.notices| ==> s.notices[i].id != s.nextId
  {
    ReachableSessionsAreSound(ops);
  }

  // ---------- the active agent ----------

  /** The active id, if any, names an Active agent message. */
  predicate NamesActiveAgent(s: Session) {
    s.activeAgentId.Some? ==>
      var i := LastIndexOf(s.messages, s.activeAgentId.value);
      i.Some? && IsActiveAgent(s.messages[i.value])
  }

  /** Re-adding the id of the active turn as a user message. */
  predicate HidesActiveTurn(s: Session, op: Op) {
    op.DoAddMessageWithId? && op.sender.UserSender? && s.activeAgentId == Some(op.id)
  }

  lemma PushKeepsActive(s: Session, m: Entry, s': Session)
    requires NamesActiveAgent(s)
    requires s'.messages == s.messages + [m]
    requires s'.activeAgentId == Some(m.id) ==> IsActiveAgent(m)
    requires s'.activeAgentId.Some? && s'.activeAgentId != Some(m.id) ==> s'.activeAgentId == s.activeAgentId
    ensures NamesActiveAgent(s')
  {
    if s'.activeAgentId.Some? {
      LastIndexOfAppend(s.messages, m, s'.activeAgentId.value);
    }
  }

  lemma EditKeepsActive(s: Session, i: nat, segments: seq<Segment>, s': Session)
    requires NamesActiveAgent(s) && i < |s.messages|
    requires s'.messages == WithSegments(s.messages, i, segments) && s'.activeAgentId == s.activeAgentId
    ensures NamesActiveAgent(s')
  {
    if s.activeAgentId.Some? {
      LastIndexOfUpdate(s.messages, i, s.messages[i].(segments := segments), s.activeAgentId.value);
    }
  }

  lemma EnsureKeepsActive(s: Session, now: int)
    requires NamesActiveAgent(s) && LastIndexOf(s.messages, s.nextId) == None
    ensures NamesActiveAgent(EnsureAgentTurn(s, now))
  {
    if !HasTurn(s) {
      PushKeepsActive(s, Entry(s.nextId, AgentSender, [], Active, "", now), EnsureAgentTurn(s, now));
    }
  }

  lemma AddToolKeepsActive(s: Session, toolId: nat, block: string, status: Status, now: int)
    requires NamesActiveAgent(s) && Sound(s)
    ensures NamesActiveAgent(AddTool(s, toolId, block, status, now))
  {
    var s0 := s.(nextId := Above(s.nextId, toolId));
    assert LastIndexOf(s0.messages, s0.nextId) == None;
    EnsureKeepsActive(s0, now);
    var s1, i := EnsureAgentTurn(s0, now), TurnIndex(s0);
    TurnIndexIsOpen(s0, now);
    hide EnsureAgentTurn, TurnIndex;
    EditKeepsActive(s1, i, s1.messages[i].segments + [ToolSegment(toolId, block, status)],
                    AddTool(s, toolId, block, status, now));
  }

  lemma SetStatusKeepsActive(s: Session, id: nat, status: Status)
    requires NamesActiveAgent(s)
    ensures NamesActiveAgent(SetStatus(s, id, status))
  {
    var i := LastIndexOf(s.messages, id);
    var s' := SetStatus(s, id, status);
    if i.Some? && s.messages[i.value].status != status && s'.activeAgentId.Some? {
      LastIndexOfUpdate(s.messages, i.value, s.messages[i.value].(status := status), s'.activeAgentId.value);
    }
  }

  /** Exactly one thing can make the active id stop naming an Active agent message:
      re-adding that very id as a user message. */
  lemma ActiveIdStaysTrue(s: Session, op: Op)
    requires Sound(s) && NamesActiveAgent(s)
    ensures NamesActiveAgent(Do(s, op)) <==> !HidesActiveTurn(s, op)
  {
    hide AddTool, UpdateTool, AppendToMessage, SetStatus;
    match op
    case DoAddMessage(sender, content, status, now) =>
      PushKeepsActive(s, Entry(s.nextId, sender, [TextSegment(content)], status, "", now), Do(s, op));
    case DoAddMessageWithId(id, sender, content, status, roleLabel, now) =>
      var m := Entry(id, sender, [TextSegment(content)], status, roleLabel, now);
      if HidesActiveTurn(s, op) {
        LastIndexOfAppend(s.messages, m, id);
      } else {
        PushKeepsActive(s, m, Do(s, op));
      }
    case DoAddFreshTool(block, status, now) =>
      AddToolKeepsActive(s.(nextId := s.nextId + 1), s.nextId, block, status, now);
    case DoAddTool(toolId, block, status, now) => AddToolKeepsActive(s, toolId, block, status, now);
    case DoUpdateTool(toolId, block, status) => UpdateKeepsActive(s, toolId, block, status);
    case DoAppendText(id, delta) => AppendKeepsActive(s, id, delta);
    case DoSetStatus(id, status) => SetStatusKeepsActive(s, id, status);
    case _ =>
  }

  lemma UpdateKeepsActive(s: Session, toolId: nat, block: string, status: Status)
    requires NamesActiveAgent(s)
    ensures NamesActiveAgent(UpdateTool(s, toolId, block, status))
  {
    if HasTool(s, toolId) {
      var at := s.toolAt[toolId];
      var tool := SegmentAt(s.messages, at).(block := block, status := status);
      EditKeepsActive(s, at.message, s.messages[at.message].segments[at.segment := tool],
                      UpdateTool(s, toolId, block, status));
    }
  }

  lemma AppendKeepsActive(s: Session, id: nat, delta: string)
    requires NamesActiveAgent(s)
    ensures NamesActiveAgent(AppendToMessage(s, id, delta))
  {
    var i := LastIndexOf(s.messages, id);
    if delta != "" && i.Some? {
      EditKeepsActive(s, i.value, AppendText(s.messages[i.value].segments, delta), AppendToMessage(s, id, delta));
    }
  }

  /** No step of this run re-adds the active id as a user message. */
  predicate NeverHides(ops: seq<Op>) {
    ops == [] || (NeverHides(ops[..|ops| - 1]) && !HidesActiveTurn(DoAll(EMPTY, ops[..|ops| - 1]), ops[|ops| - 1]))
  }

  lemma {:induction false} ActiveIdNamesActiveAgent(ops: seq<Op>)
    requires NeverHides(ops)
    ensures NamesActiveAgent(DoAll(EMPTY, ops))
    decreases |ops|
  {
    if ops == [] {
    } else {
      var init := ops[..|ops| - 1];
      ActiveIdNamesActiveAgent(init);
      ReachableSessionsAreSound(init);
      ActiveIdStaysTrue(DoAll(EMPTY, init), ops[|ops| - 1]);
    }
  }
}
