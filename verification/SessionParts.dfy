/** The order of the messages, and what the tools, the sub-agents' calls, the notices and
    the expanded flags show. */
module SessionParts {
  import opened ChatTypes
  import opened Numerals
  import opened Strings
  import opened RenderPlan
  import opened SessionModel
  import opened SessionInvariants
  import opened SessionContents

  // ---------- the order of the messages ----------

  /** A message without its segments and status. */
  datatype Head = Head(id: nat, sender: Sender, roleLabel: string, createdAt: int)

  function HeadOf(m: Entry): Head {
    Head(m.id, m.sender, m.roleLabel, m.createdAt)
  }

  function Heads(ms: seq<Entry>): (heads: seq<Head>)
    ensures |heads| == |ms|
  {
    seq(|ms|, i requires 0 <= i < |ms| => HeadOf(ms[i]))
  }

  /** The messages a mutation adds: the one it names, or the turn a tool opens. */
  function Added(s: Session, op: Op): seq<Head> {
    match op
    case DoAddMessage(sender, _, _, now) => [Head(s.nextId, sender, "", now)]
    case DoAddMessageWithId(id, sender, _, _, roleLabel, now) => [Head(id, sender, roleLabel, now)]
    case DoAddFreshTool(_, _, now) => if HasTurn(s) then [] else [Head(s.nextId + 1, AgentSender, "", now)]
    case DoAddTool(toolId, _, _, now) => if HasTurn(s) then [] else [Head(Above(s.nextId, toolId), AgentSender, "", now)]
    case _ => []
  }

  function AddedBy(s: Session, ops: seq<Op>): seq<Head> {
    if ops == [] then []
    else AddedBy(s, ops[..|ops| - 1]) + Added(DoAll(s, ops[..|ops| - 1]), ops[|ops| - 1])
  }

  lemma HeadsAfterEdit(ms: seq<Entry>, i: nat, m: Entry)
    requires i < |ms| && HeadOf(m) == HeadOf(ms[i])
    ensures Heads(ms[i := m]) == Heads(ms)
  {}

  lemma HeadsAfterPush(ms: seq<Entry>, m: Entry)
    ensures Heads(ms + [m]) == Heads(ms) + [HeadOf(m)]
  {}

  lemma ToolAdds(s: Session, toolId: nat, block: string, status: Status, now: int)
    ensures var s' := AddTool(s, toolId, block, status, now);
            Heads(s'.messages) ==
              Heads(s.messages) + if HasTurn(s) then [] else [Head(Above(s.nextId, toolId), AgentSender, "", now)]
  {
    hide Heads;
    var s0 := s.(nextId := Above(s.nextId, toolId));
    TurnIndexIsOpen(s0, now);
    var s1, i := EnsureAgentTurn(s0, now), TurnIndex(s0);
    var m := s1.messages[i].(segments := s1.messages[i].segments + [ToolSegment(toolId, block, status)]);
    if HasTurn(s) {
      assert Heads(s.messages) + [] == Heads(s.messages);
    } else {
      HeadsAfterPush(s.messages, Entry(s0.nextId, AgentSender, [], Active, "", now));
    }
    HeadsAfterEdit(s1.messages, i, m);
  }

  lemma HeadStep(s: Session, op: Op)
    requires !op.DoClear?
    ensures Heads(Do(s, op).messages) == Heads(s.messages) + Added(s, op)
  {
    hide Heads, AddTool, HasTurn;
    assert Heads(s.messages) + [] == Heads(s.messages);
    match op
    case DoAddMessage(sender, content, status, now) =>
      HeadsAfterPush(s.messages, Entry(s.nextId, sender, [TextSegment(content)], status, "", now));
    case DoAddMessageWithId(id, sender, content, status, roleLabel, now) =>
      HeadsAfterPush(s.messages, Entry(id, sender, [TextSegment(content)], status, roleLabel, now));
    case DoAddFreshTool(block, status, now) =>
      ToolAdds(s.(nextId := s.nextId + 1), s.nextId, block, status, now);
      assert HasTurn(s.(nextId := s.nextId + 1)) == HasTurn(s) by {
        SameTurn(s);
      }
    case DoAddTool(toolId, block, status, now) => ToolAdds(s, toolId, block, status, now);
    case DoUpdateTool(toolId, block, status) => UpdateKeepsHeads(s, toolId, block, status);
    case DoAppendText(id, delta) => AppendKeepsHeads(s, id, delta);
    case DoSetStatus(id, status) => StatusKeepsHeads(s, id, status);
    case _ =>
  }

  lemma SameTurn(s: Session)
    ensures HasTurn(s.(nextId := s.nextId + 1)) == HasTurn(s)
  {}

  lemma UpdateKeepsHeads(s: Session, toolId: nat, block: string, status: Status)
    ensures Heads(UpdateTool(s, toolId, block, status).messages) == Heads(s.messages)
  {
    if HasTool(s, toolId) {
      var at := s.toolAt[toolId];
      var segments := s.messages[at.message].segments;
      var m := s.messages[at.message].(segments := segments[at.segment := segments[at.segment].(block := block, status := status)]);
      HeadsAfterEdit(s.messages, at.message, m);
    }
    hide Heads;
  }

  lemma AppendKeepsHeads(s: Session, id: nat, delta: string)
    ensures Heads(AppendToMessage(s, id, delta).messages) == Heads(s.messages)
  {
    var i := LastIndexOf(s.messages, id);
    if i.Some? {
      var m := s.messages[i.value].(segments := AppendText(s.messages[i.value].segments, delta));
      HeadsAfterEdit(s.messages, i.value, m);
    }
    hide Heads, AppendText;
  }

  lemma StatusKeepsHeads(s: Session, id: nat, status: Status)
    ensures Heads(SetStatus(s, id, status).messages) == Heads(s.messages)
  {
    var i := LastIndexOf(s.messages, id);
    if i.Some? {
      HeadsAfterEdit(s.messages, i.value, s.messages[i.value].(status := status));
    }
    hide Heads;
  }

  /** Messages are shown in the order they were added in, under the ids, senders, labels
      and times they were added with, and none goes but in a clear. */
  lemma {:induction false} MessagesStayInOrder(s: Session, ops: seq<Op>)
    requires forall op :: op in ops ==> !op.DoClear?
    ensures Heads(DoAll(s, ops).messages) == Heads(s.messages) + AddedBy(s, ops)
    decreases |ops|
  {
    hide Heads, Do, Added;
    if ops == [] {
      assert Heads(s.messages) + [] == Heads(s.messages);
    } else {
      var front, op := ops[..|ops| - 1], ops[|ops| - 1];
      MessagesStayInOrder(s, front);
      HeadStep(DoAll(s, front), op);
      Assoc(Heads(s.messages), AddedBy(s, front), Added(DoAll(s, front), op));
    }
  }

  /** A message that is added says what it was given. */
  lemma NewMessagesSayWhatTheyWereGiven(s: Session, op: Op)
    requires op.DoAddMessage? || op.DoAddMessageWithId?
    ensures var id, s' := if op.DoAddMessage? then s.nextId else op.id, Do(s, op);
            && Holds(s', id) && LastIndexOf(s'.messages, id) == Some(|s.messages|)
            && CombinedText(MessageOf(s', id).segments) == op.content && MessageOf(s', id).status == op.status
            && s'.messages[..|s.messages|] == s.messages
  {
    var id := if op.DoAddMessage? then s.nextId else op.id;
    var m := Entry(id, op.sender, [TextSegment(op.content)], op.status,
                   if op.DoAddMessage? then "" else op.roleLabel, op.now);
    LastIndexOfAppend(s.messages, m, id);
    CombinedPush([], TextSegment(op.content));
    assert [] + [TextSegment(op.content)] == [TextSegment(op.content)];
    assert "" + op.content == op.content;
  }

  // ---------- tools ----------

  function ToolOf(s: Session, t: nat): Segment
    requires Sound(s) && t in s.toolAt
  {
    SegmentAt(s.messages, s.toolAt[t])
  }

  /** The mutation neither clears the transcript nor adds the tool `t` again. */
  predicate SparesTool(op: Op, t: nat) {
    !op.DoClear? && !(op.DoAddTool? && op.toolId == t)
  }

  function ToolAfter(op: Op, t: nat, tool: Segment): Segment
    requires tool.ToolSegment?
  {
    if op.DoUpdateTool? && op.toolId == t then ToolSegment(t, op.block, op.status) else tool
  }

  lemma LocatedTool(s: Session, t: nat)
    requires Sound(s) && t in s.toolAt
    ensures t < s.nextId && IsTool(s.messages, s.toolAt[t], t)
    ensures ToolOf(s, t).ToolSegment? && ToolOf(s, t).id == t
  {}

  /** The tool is where it was, and shows `tool`. */
  predicate ToolIsThere(s: Session, s': Session, t: nat, tool: Segment)
    requires t in s.toolAt
  {
    && t in s'.toolAt && s'.toolAt[t] == s.toolAt[t] && HasSegment(s'.messages, s.toolAt[t])
    && SegmentAt(s'.messages, s.toolAt[t]) == tool
  }

  lemma PushLeavesTool(s: Session, s': Session, m: Entry, t: nat)
    requires Sound(s) && t in s.toolAt && s'.messages == s.messages + [m] && s'.toolAt == s.toolAt
    ensures ToolIsThere(s, s', t, ToolOf(s, t))
  {
    LocatedTool(s, t);
    hide Sound;
  }

  lemma StatusLeavesTool(s: Session, id: nat, status: Status, t: nat)
    requires Sound(s) && t in s.toolAt
    ensures ToolIsThere(s, SetStatus(s, id, status), t, ToolOf(s, t))
  {
    LocatedTool(s, t);
    hide Sound;
  }

  lemma EnsureLeavesTool(s: Session, now: int, t: nat)
    requires Sound(s) && t in s.toolAt
    ensures ToolIsThere(s, EnsureAgentTurn(s, now), t, ToolOf(s, t))
  {
    LocatedTool(s, t);
    hide Sound;
  }

  lemma AddingLeavesTool(s: Session, toolId: nat, block: string, status: Status, now: int, t: nat)
    requires Sound(s) && t in s.toolAt && toolId != t
    ensures ToolIsThere(s, AddTool(s, toolId, block, status, now), t, ToolOf(s, t))
  {
    hide EnsureAgentTurn, TurnIndex, ToolsKnown;
    var s0 := s.(nextId := Above(s.nextId, toolId));
    EnsureLeavesTool(s0, now, t);
    TurnIndexIsOpen(s0, now);
  }

  lemma UpdateMovesTool(s: Session, toolId: nat, block: string, status: Status, t: nat)
    requires Sound(s) && t in s.toolAt
    ensures ToolIsThere(s, UpdateTool(s, toolId, block, status), t,
                        if toolId == t then ToolSegment(t, block, status) else ToolOf(s, t))
  {
    LocatedTool(s, t);
    if toolId in s.toolAt {
      LocatedTool(s, toolId);
    }
    hide Sound;
  }

  lemma AppendLeavesTool(s: Session, id: nat, delta: string, t: nat)
    requires Sound(s) && t in s.toolAt
    ensures ToolIsThere(s, AppendToMessage(s, id, delta), t, ToolOf(s, t))
  {
    LocatedTool(s, t);
    hide Sound;
    var i := LastIndexOf(s.messages, id);
    if i.Some? {
      AppendedText(s.messages[i.value].segments, delta);
      hide AppendText, CombinedText;
    }
  }

  /** What any mutation does to the tool `t`: an update of it sets what it shows, and
      nothing else changes it or moves it. */
  lemma ToolStep(s: Session, op: Op, t: nat)
    requires Sound(s) && t in s.toolAt && SparesTool(op, t)
    ensures ToolOf(s, t).ToolSegment? && ToolIsThere(s, Do(s, op), t, ToolAfter(op, t, ToolOf(s, t)))
  {
    LocatedTool(s, t);
    hide Sound, AddTool, UpdateTool, AppendToMessage, SetStatus, ToolIsThere, UpsertChild;
    match op
    case DoAddMessage(_, _, _, _) =>
      PushLeavesTool(s, Do(s, op), LastOf(Do(s, op).messages), t);
    case DoAddMessageWithId(_, _, _, _, _, _) =>
      PushLeavesTool(s, Do(s, op), LastOf(Do(s, op).messages), t);
    case DoAddFreshTool(block, status, now) =>
      FreshToolLeavesTool(s, block, status, now, t);
    case DoAddTool(toolId, block, status, now) => AddingLeavesTool(s, toolId, block, status, now, t);
    case DoUpdateTool(toolId, block, status) => UpdateMovesTool(s, toolId, block, status, t);
    case DoAppendText(id, delta) => AppendLeavesTool(s, id, delta, t);
    case DoSetStatus(id, status) => StatusLeavesTool(s, id, status, t);
    case _ => SameMessagesSameTool(s, Do(s, op), t);
  }

  function LastOf(ms: seq<Entry>): Entry
    requires ms != []
  {
    ms[|ms| - 1]
  }

  lemma FreshToolLeavesTool(s: Session, block: string, status: Status, now: int, t: nat)
    requires Sound(s) && t in s.toolAt
    ensures ToolIsThere(s, Do(s, DoAddFreshTool(block, status, now)), t, ToolOf(s, t))
  {
    SoundWithLaterId(s);
    hide Sound, AddTool, ToolIsThere;
    AddingLeavesTool(s.(nextId := s.nextId + 1), s.nextId, block, status, now, t);
    LaterIdLeavesTool(s, Do(s, DoAddFreshTool(block, status, now)), t);
  }

  lemma LaterIdLeavesTool(s: Session, s': Session, t: nat)
    requires Sound(s) && Sound(s.(nextId := s.nextId + 1)) && t in s.toolAt
    requires ToolIsThere(s.(nextId := s.nextId + 1), s', t, ToolOf(s.(nextId := s.nextId + 1), t))
    ensures ToolIsThere(s, s', t, ToolOf(s, t))
  {}

  lemma SameMessagesSameTool(s: Session, s': Session, t: nat)
    requires Sound(s) && t in s.toolAt && s'.messages == s.messages && s'.toolAt == s.toolAt
    ensures ToolIsThere(s, s', t, ToolOf(s, t))
  {
    LocatedTool(s, t);
    hide Sound;
  }

  lemma SoundWithLaterId(s: Session)
    requires Sound(s)
    ensures Sound(s.(nextId := s.nextId + 1))
  {}

  function LastTool(ops: seq<Op>, t: nat, tool: Segment): (r: Segment)
    requires tool.ToolSegment?
    ensures r.ToolSegment?
  {
    if ops == [] then tool else ToolAfter(ops[|ops| - 1], t, LastTool(ops[..|ops| - 1], t, tool))
  }

  /** A tool call stays where it was put, and after any mutations shows what it was last
      updated to, or what it was added with. */
  lemma {:induction false} ToolsShowTheLastUpdate(s: Session, ops: seq<Op>, t: nat)
    requires Sound(s) && t in s.toolAt && ToolOf(s, t).ToolSegment? && forall op :: op in ops ==> SparesTool(op, t)
    ensures var s' := DoAll(s, ops);
            && Sound(s') && t in s'.toolAt && s'.toolAt[t] == s.toolAt[t]
            && ToolOf(s', t) == LastTool(ops, t, ToolOf(s, t))
    decreases |ops|
  {
    hide Sound, Do, SparesTool, ToolAfter;
    if ops == [] {
      assert DoAll(s, ops) == s;
    } else {
      var front, op := ops[..|ops| - 1], ops[|ops| - 1];
      ToolsShowTheLastUpdate(s, front, t);
      ToolStep(DoAll(s, front), op, t);
      SoundKept(DoAll(s, front), op);
    }
  }

  /** A tool that is added shows what it was given, in the turn that is open or the one it
      opens, behind everything else there. */
  lemma NewToolsShowWhatTheyWereGiven(s: Session, toolId: nat, block: string, status: Status, now: int)
    requires Sound(s)
    ensures var s' := Do(s, DoAddTool(toolId, block, status, now));
            && Sound(s') && toolId in s'.toolAt && ToolOf(s', toolId) == ToolSegment(toolId, block, status)
            && s'.toolAt[toolId].segment == |s'.messages[s'.toolAt[toolId].message].segments| - 1
  {
    SoundKept(s, DoAddTool(toolId, block, status, now));
    hide Sound, EnsureAgentTurn, TurnIndex;
    TurnIndexIsOpen(s.(nextId := Above(s.nextId, toolId)), now);
  }

  // ---------- the open turn ----------

  /** The last message under `id` is an Active agent. */
  predicate IsActive(s: Session, id: nat) {
    Holds(s, id) && IsActiveAgent(MessageOf(s, id))
  }

  predicate AddsMessage(op: Op) {
    op.DoAddMessage? || op.DoAddMessageWithId? || op.DoAddTool? || op.DoAddFreshTool?
  }

  lemma TurnAfterAdding(s: Session, m: Entry, s': Session, id: nat)
    requires s'.messages == s.messages + [m] && (IsActiveAgent(m) ==> s'.activeAgentId == Some(m.id))
    ensures IsActive(s', id) && !IsActive(s, id) ==> s'.activeAgentId == Some(id)
  {
    LastIndexOfAppend(s.messages, m, id);
  }

  lemma TurnAfterEditing(s: Session, i: nat, segments: seq<Segment>, s': Session, id: nat)
    requires i < |s.messages| && s'.messages == WithSegments(s.messages, i, segments)
    ensures IsActive(s', id) == IsActive(s, id)
  {
    LastIndexOfUpdate(s.messages, i, s.messages[i].(segments := segments), id);
  }

  lemma TurnAfterTool(s: Session, toolId: nat, block: string, status: Status, now: int, id: nat)
    ensures var s' := AddTool(s, toolId, block, status, now);
            IsActive(s', id) && !IsActive(s, id) ==> s'.activeAgentId == Some(id)
  {
    var s0 := s.(nextId := Above(s.nextId, toolId));
    var s1, i, s' := EnsureAgentTurn(s0, now), TurnIndex(s0), AddTool(s, toolId, block, status, now);
    TurnIndexIsOpen(s0, now);
    if !HasTurn(s0) {
      TurnAfterAdding(s, Entry(s0.nextId, AgentSender, [], Active, "", now), s1, id);
    }
    TurnAfterEditing(s1, i, s1.messages[i].segments + [ToolSegment(toolId, block, status)], s', id);
    hide IsActive, EnsureAgentTurn, TurnIndex;
  }

  lemma TurnAfterStatus(s: Session, other: nat, status: Status, id: nat)
    requires NamesActiveAgent(s)
    ensures var s' := SetStatus(s, other, status);
            && (IsActive(s', id) && !IsActive(s, id) ==> s'.activeAgentId == Some(id))
            && (!IsActive(s', other) || IsActive(s, other) ==>
                  s'.activeAgentId == if s.activeAgentId.Some? && IsActive(s', s.activeAgentId.value) then s.activeAgentId else None)
  {
    var i := LastIndexOf(s.messages, other);
    if i.Some? && s.messages[i.value].status != status {
      LastIndexOfUpdate(s.messages, i.value, s.messages[i.value].(status := status), id);
      if s.activeAgentId.Some? {
        LastIndexOfUpdate(s.messages, i.value, s.messages[i.value].(status := status), s.activeAgentId.value);
      }
      LastIndexOfUpdate(s.messages, i.value, s.messages[i.value].(status := status), other);
    }
  }

  /** The turn that tools and text go to is the message that became an Active agent last:
      a message that becomes one is the open turn from then on; and where none does and
      none is added, the turn stays open as long as its message is an Active agent. */
  lemma TheTurnIsTheLastActivated(s: Session, op: Op, id: nat)
    requires NamesActiveAgent(s)
    ensures var s' := Do(s, op);
            && (IsActive(s', id) && !IsActive(s, id) ==> s'.activeAgentId == Some(id))
            && (!AddsMessage(op) && (forall k :: IsActive(s', k) ==> IsActive(s, k)) ==>
                  s'.activeAgentId == if s.activeAgentId.Some? && IsActive(s', s.activeAgentId.value) then s.activeAgentId else None)
  {
    hide AddTool, UpdateTool, AppendToMessage, SetStatus, IsActive;
    NamesItsTurn(s);
    match op
    case DoAddMessage(sender, content, status, now) =>
      TurnAfterAdding(s, Entry(s.nextId, sender, [TextSegment(content)], status, "", now), Do(s, op), id);
    case DoAddMessageWithId(other, sender, content, status, roleLabel, now) =>
      TurnAfterAdding(s, Entry(other, sender, [TextSegment(content)], status, roleLabel, now), Do(s, op), id);
    case DoAddFreshTool(block, status, now) =>
      TurnAfterTool(s.(nextId := s.nextId + 1), s.nextId, block, status, now, id);
      SameActive(s, s.(nextId := s.nextId + 1), id);
    case DoAddTool(toolId, block, status, now) => TurnAfterTool(s, toolId, block, status, now, id);
    case DoUpdateTool(toolId, block, status) => TurnAfterUpdate(s, toolId, block, status);
    case DoAppendText(other, delta) => TurnAfterText(s, other, delta);
    case DoSetStatus(other, status) => TurnAfterStatus(s, other, status, id);
    case DoClear => NothingIsActive(Do(s, op));
    case _ => AllSameActive(s, Do(s, op));
  }

  lemma NamesItsTurn(s: Session)
    requires NamesActiveAgent(s)
    ensures s.activeAgentId.Some? ==> IsActive(s, s.activeAgentId.value)
  {}

  lemma SameActive(s: Session, s': Session, id: nat)
    requires s'.messages == s.messages
    ensures IsActive(s', id) == IsActive(s, id)
  {}

  lemma AllSameActive(s: Session, s': Session)
    requires s'.messages == s.messages
    ensures forall id :: IsActive(s', id) == IsActive(s, id)
  {}

  lemma NothingIsActive(s: Session)
    requires s.messages == []
    ensures forall id :: !IsActive(s, id)
  {}

  lemma TurnAfterUpdate(s: Session, toolId: nat, block: string, status: Status)
    ensures var s' := UpdateTool(s, toolId, block, status);
            s'.activeAgentId == s.activeAgentId && forall id :: IsActive(s', id) == IsActive(s, id)
  {
    forall id: nat
      ensures IsActive(UpdateTool(s, toolId, block, status), id) == IsActive(s, id)
    {
      if HasTool(s, toolId) {
        var at := s.toolAt[toolId];
        var segments := s.messages[at.message].segments;
        TurnAfterEditing(s, at.message, segments[at.segment := segments[at.segment].(block := block, status := status)],
                         UpdateTool(s, toolId, block, status), id);
      }
      hide IsActive;
    }
  }

  lemma TurnAfterText(s: Session, other: nat, delta: string)
    ensures var s' := AppendToMessage(s, other, delta);
            s'.activeAgentId == s.activeAgentId && forall id :: IsActive(s', id) == IsActive(s, id)
  {
    var i := LastIndexOf(s.messages, other);
    forall id: nat
      ensures IsActive(AppendToMessage(s, other, delta), id) == IsActive(s, id)
    {
      if i.Some? && delta != "" {
        TurnAfterEditing(s, i.value, AppendText(s.messages[i.value].segments, delta), AppendToMessage(s, other, delta), id);
      }
      hide IsActive, AppendText;
    }
  }

  // ---------- sub-agents' calls ----------

  /** The call of `parent` shown under `callId`. */
  function ChildOf(s: Session, parent: nat, callId: string): Option<Child> {
    var cs := ChildrenOf(s, parent);
    var i := ChildIndex(cs, callId);
    if i < |cs| then Some(cs[i]) else None
  }

  /** No two calls of one parent are shown under the same id. */
  predicate DistinctCalls(cs: seq<Child>) {
    forall i, j :: 0 <= i < j < |cs| ==> cs[i].callId != cs[j].callId
  }

  lemma {:induction false} ChildIndexIsFirst(cs: seq<Child>, callId: string)
    ensures ChildIndex(cs, callId) < |cs| ==> cs[ChildIndex(cs, callId)].callId == callId
    ensures forall j :: 0 <= j < ChildIndex(cs, callId) ==> cs[j].callId != callId
    decreases |cs|
  {
    if cs == [] || cs[0].callId == callId {
    } else {
      ChildIndexIsFirst(cs[1..], callId);
    }
  }

  /** There is one place for an id among calls that agree before it. */
  lemma ChildIndexIs(cs: seq<Child>, callId: string, i: nat)
    requires i <= |cs| && (i < |cs| ==> cs[i].callId == callId) && forall j :: 0 <= j < i ==> cs[j].callId != callId
    ensures ChildIndex(cs, callId) == i
  {
    ChildIndexIsFirst(cs, callId);
  }

  /** A sub-agent's calls are a table: reporting a call under an id sets what is shown
      under that id of that parent, with the id made up from the tool's name or the number
      of calls if it is empty; nothing else changes what is shown, but a clear, which
      forgets it. */
  lemma ChildrenAreATable(s: Session, op: Op, parent: nat, callId: string)
    ensures ChildOf(Do(s, op), parent, callId)
         == if op.DoClear? then None
            else if op.DoUpsertChild? && op.id == parent && EffectiveCallId(s, parent, op.callId, op.toolName) == callId then
              Some(Child(callId, op.toolName, op.block, op.status))
            else ChildOf(s, parent, callId)
  {
    hide AddTool, UpdateTool, AppendToMessage, SetStatus, EffectiveCallId;
    if op.DoUpsertChild? && op.id == parent {
      UpsertIsSetting(ChildrenOf(s, parent), EffectiveCallId(s, parent, op.callId, op.toolName), callId,
                      op.toolName, op.block, op.status);
    } else if op.DoAddFreshTool? {
      ToolLeavesChildren(s.(nextId := s.nextId + 1), s.nextId, op.block, op.status, op.now);
    } else if op.DoAddTool? {
      ToolLeavesChildren(s, op.toolId, op.block, op.status, op.now);
    }
    EditsLeaveChildren(s, op);
    hide ChildIndex;
  }

  lemma EditsLeaveChildren(s: Session, op: Op)
    ensures op.DoUpdateTool? || op.DoAppendText? || op.DoSetStatus? ==> Do(s, op).children == s.children
  {}

  lemma ToolLeavesChildren(s: Session, toolId: nat, block: string, status: Status, now: int)
    ensures AddTool(s, toolId, block, status, now).children == s.children
  {
    TurnIndexIsOpen(s.(nextId := Above(s.nextId, toolId)), now);
  }

  function Upserted(cs: seq<Child>, id: string, toolName: string, block: string, status: Status): seq<Child> {
    var i := ChildIndex(cs, id);
    if i < |cs| then cs[i := cs[i].(toolName := toolName, block := block, status := status)]
    else cs + [Child(id, toolName, block, status)]
  }

  lemma UpsertIsSetting(cs: seq<Child>, id: string, callId: string, toolName: string, block: string, status: Status)
    ensures var cs' := Upserted(cs, id, toolName, block, status);
            var i, i' := ChildIndex(cs, callId), ChildIndex(cs', callId);
            if id == callId then i' < |cs'| && cs'[i'] == Child(id, toolName, block, status)
            else (i < |cs| <==> i' < |cs'|) && (i < |cs| ==> cs'[i'] == cs[i])
  {
    ChildIndexIsFirst(cs, id);
    ChildIndexIsFirst(cs, callId);
    var cs', i := Upserted(cs, id, toolName, block, status), ChildIndex(cs, callId);
    hide ChildIndex;
    if id == callId {
      ChildIndexIs(cs', callId, ChildIndex(cs, id));
    } else if i < |cs| {
      ChildIndexIs(cs', callId, i);
    } else {
      ChildIndexIs(cs', callId, |cs'|);
    }
  }

  ghost predicate CallsDistinct(s: Session) {
    forall p :: p in s.children ==> DistinctCalls(s.children[p])
  }

  lemma CallsStayDistinct(s: Session, op: Op)
    requires CallsDistinct(s)
    ensures CallsDistinct(Do(s, op))
  {
    hide AddTool, UpdateTool, AppendToMessage, SetStatus, EffectiveCallId;
    if op.DoUpsertChild? {
      ChildIndexIsFirst(ChildrenOf(s, op.id), EffectiveCallId(s, op.id, op.callId, op.toolName));
      hide ChildIndex;
    } else if op.DoAddFreshTool? {
      ToolLeavesChildren(s.(nextId := s.nextId + 1), s.nextId, op.block, op.status, op.now);
    } else if op.DoAddTool? {
      ToolLeavesChildren(s, op.toolId, op.block, op.status, op.now);
    } else {
      EditsLeaveChildren(s, op);
    }
  }

  /** Calls reported without an id and without a name. */
  function Nameless(parent: nat, blocks: seq<string>, status: Status): (ops: seq<Op>)
    ensures |ops| == |blocks|
  {
    seq(|blocks|, i requires 0 <= i < |blocks| => DoUpsertChild(parent, "", "", blocks[i], status))
  }

  lemma NewNumber(cs: seq<Child>)
    requires forall i: nat :: i < |cs| ==> cs[i].callId == "tool-" + ToDecimal(i + 1)
    ensures ChildIndex(cs, "tool-" + ToDecimal(|cs| + 1)) == |cs|
  {
    forall j: nat | j < |cs|
      ensures cs[j].callId != "tool-" + ToDecimal(|cs| + 1)
    {
      assert ("tool-" + ToDecimal(j + 1))[5..] == ToDecimal(j + 1);
      assert ("tool-" + ToDecimal(|cs| + 1))[5..] == ToDecimal(|cs| + 1);
      if ToDecimal(j + 1) == ToDecimal(|cs| + 1) {
        DecimalInjective(j + 1, |cs| + 1);
        assert false;
      }
    }
    ChildIndexIs(cs, "tool-" + ToDecimal(|cs| + 1), |cs|);
  }

  lemma OneMoreNameless(s: Session, parent: nat, block: string, status: Status)
    requires var cs := ChildrenOf(s, parent); forall i: nat :: i < |cs| ==> cs[i].callId == "tool-" + ToDecimal(i + 1)
    ensures var cs := ChildrenOf(s, parent);
            ChildrenOf(Do(s, DoUpsertChild(parent, "", "", block, status)), parent) ==
              cs + [Child("tool-" + ToDecimal(|cs| + 1), "", block, status)]
  {
    hide ToDecimal;
    NewNumber(ChildrenOf(s, parent));
    hide ChildIndex;
  }

  /** Nameless calls are shown one by one, numbered from one in the order they came. */
  lemma {:induction false} NamelessCallsAreNumbered(parent: nat, blocks: seq<string>, status: Status)
    ensures var cs := ChildrenOf(DoAll(EMPTY, Nameless(parent, blocks, status)), parent);
            && |cs| == |blocks|
            && forall i: nat :: i < |blocks| ==> cs[i] == Child("tool-" + ToDecimal(i + 1), "", blocks[i], status)
    decreases |blocks|
  {
    hide ToDecimal, Do;
    if blocks == [] {
    } else {
      var front, last := blocks[..|blocks| - 1], blocks[|blocks| - 1];
      NamelessCallsAreNumbered(parent, front, status);
      var ops := Nameless(parent, blocks, status);
      assert ops[..|ops| - 1] == Nameless(parent, front, status);
      assert ops[|ops| - 1] == DoUpsertChild(parent, "", "", last, status);
      OneMoreNameless(DoAll(EMPTY, ops[..|ops| - 1]), parent, last, status);
      hide ChildrenOf, Nameless;
    }
  }

  // ---------- expanded flags ----------

  function FlagOf(s: Session, t: nat): Option<bool> {
    if t in s.expanded then Some(s.expanded[t]) else None
  }

  /** The tool a mutation adds. */
  function ToolAdded(s: Session, op: Op): Option<nat> {
    match op
    case DoAddTool(toolId, _, _, _) => Some(toolId)
    case DoAddFreshTool(_, _, _) => Some(s.nextId)
    case _ => None
  }

  /** A tool is shown collapsed from when it is first added; from then on its flag is what
      it was last set to, also if the tool is added again. */
  lemma FlagsAreWhatTheyWereSetTo(s: Session, op: Op, t: nat)
    ensures FlagOf(Do(s, op), t)
         == if op.DoClear? then None
            else if op.DoSetExpanded? && op.toolId == t && FlagOf(s, t).Some? then Some(op.expanded)
            else if ToolAdded(s, op) == Some(t) && FlagOf(s, t).None? then Some(false)
            else FlagOf(s, t)
  {
    hide AddTool, UpdateTool, AppendToMessage, SetStatus, UpsertChild;
    if op.DoAddFreshTool? {
      ToolsStartCollapsed(s.(nextId := s.nextId + 1), s.nextId, op.block, op.status, op.now, t);
    } else if op.DoAddTool? {
      ToolsStartCollapsed(s, op.toolId, op.block, op.status, op.now, t);
    } else {
      EditsLeaveFlags(s, op);
    }
  }

  lemma EditsLeaveFlags(s: Session, op: Op)
    ensures op.DoUpdateTool? || op.DoAppendText? || op.DoSetStatus? || op.DoUpsertChild? ==> Do(s, op).expanded == s.expanded
  {
    hide ChildIndex, EffectiveCallId;
  }

  lemma ToolsStartCollapsed(s: Session, toolId: nat, block: string, status: Status, now: int, t: nat)
    ensures FlagOf(AddTool(s, toolId, block, status, now), t)
         == if t == toolId && FlagOf(s, t).None? then Some(false) else FlagOf(s, t)
  {
    TurnIndexIsOpen(s.(nextId := Above(s.nextId, toolId)), now);
  }

  // ---------- notices ----------

  function Repeated(notice: string, times: nat): (r: seq<string>)
    ensures |r| == times
  {
    seq(times, i => notice)
  }

  /** The notices as they came, one by one. */
  function Unrolled(ns: seq<Notice>): seq<string> {
    if ns == [] then [] else Unrolled(ns[..|ns| - 1]) + Repeated(ns[|ns| - 1].notice, ns[|ns| - 1].repeat)
  }

  /** Every entry stands for at least one notice, and no entry for the same as the one
      before it. */
  predicate RunLengths(ns: seq<Notice>) {
    && (forall i :: 0 <= i < |ns| ==> ns[i].repeat > 0)
    && forall i :: 0 < i < |ns| ==> ns[i].notice != ns[i - 1].notice
  }

  lemma UnrolledPush(ns: seq<Notice>, n: Notice)
    ensures Unrolled(ns + [n]) == Unrolled(ns) + Repeated(n.notice, n.repeat)
  {
    assert (ns + [n])[..|ns|] == ns;
  }

  lemma OneMoreTime(ns: seq<Notice>)
    requires ns != []
    ensures var last := ns[|ns| - 1];
            Unrolled(ns[|ns| - 1 := last.(repeat := last.repeat + 1)]) == Unrolled(ns) + [last.notice]
  {
    var front, last := ns[..|ns| - 1], ns[|ns| - 1];
    var more := last.(repeat := last.repeat + 1);
    assert ns[|ns| - 1 := more] == front + [more];
    UnrolledPush(front, more);
    assert Repeated(last.notice, more.repeat) == Repeated(last.notice, last.repeat) + [last.notice];
    Assoc(Unrolled(front), Repeated(last.notice, last.repeat), [last.notice]);
  }

  lemma NoticeStep(s: Session, notice: string, now: int)
    requires RunLengths(s.notices)
    ensures RunLengths(AppendNotice(s, notice, now).notices)
    ensures Unrolled(AppendNotice(s, notice, now).notices) == Unrolled(s.notices) + [notice]
  {
    var ns, n := s.notices, |s.notices|;
    if n > 0 && ns[n - 1].notice == notice {
      OneMoreTime(ns);
    } else {
      UnrolledPush(ns, Notice(s.nextId, notice, now, 1));
      OneTime(notice);
    }
    hide Unrolled, Repeated, RunLengths;
    NoticeKeepsLengths(s, notice, now);
  }

  lemma OneTime(notice: string)
    ensures Repeated(notice, 1) == [notice]
  {
    assert Repeated(notice, 0) == [];
  }

  lemma NoticeKeepsLengths(s: Session, notice: string, now: int)
    requires RunLengths(s.notices)
    ensures RunLengths(AppendNotice(s, notice, now).notices)
  {}

  /** The notices that came since the last clear. */
  function Came(ops: seq<Op>): seq<string> {
    if ops == [] then []
    else
      match ops[|ops| - 1]
      case DoAppendNotice(notice, _) => Came(ops[..|ops| - 1]) + [notice]
      case DoClear => []
      case _ => Came(ops[..|ops| - 1])
  }

  lemma OthersLeaveNotices(s: Session, op: Op)
    requires !op.DoAppendNotice? && !op.DoClear?
    ensures Do(s, op).notices == s.notices
  {
    hide AddTool, UpsertChild;
    if op.DoAddFreshTool? {
      ToolLeavesNotices(s.(nextId := s.nextId + 1), s.nextId, op.block, op.status, op.now);
    } else if op.DoAddTool? {
      ToolLeavesNotices(s, op.toolId, op.block, op.status, op.now);
    } else if op.DoUpsertChild? {
      ChildLeavesNotices(s, op);
    }
  }

  lemma ChildLeavesNotices(s: Session, op: Op)
    requires op.DoUpsertChild?
    ensures Do(s, op).notices == s.notices
  {
    hide ChildIndex, EffectiveCallId;
  }

  lemma ToolLeavesNotices(s: Session, toolId: nat, block: string, status: Status, now: int)
    ensures AddTool(s, toolId, block, status, now).notices == s.notices
  {
    TurnIndexIsOpen(s.(nextId := Above(s.nextId, toolId)), now);
  }

  lemma NoticesStep(s: Session, op: Op, came: seq<string>)
    requires RunLengths(s.notices) && Unrolled(s.notices) == came
    ensures RunLengths(Do(s, op).notices)
    ensures Unrolled(Do(s, op).notices)
         == if op.DoAppendNotice? then came + [op.notice] else if op.DoClear? then [] else came
  {
    if op.DoAppendNotice? {
      NoticeStep(s, op.notice, op.now);
      hide RunLengths, Unrolled, AppendNotice;
    } else if !op.DoClear? {
      OthersLeaveNotices(s, op);
      hide Do, RunLengths, Unrolled;
    } else {
      assert Unrolled([]) == [];
    }
  }

  /** The notices of every reachable session are the run-length form of all that came since
      the last clear: unrolled they are those, in order and each as often as it came, and
      neighbours differ. */
  lemma {:induction false} NoticesAreRunLengths(ops: seq<Op>)
    ensures RunLengths(DoAll(EMPTY, ops).notices) && Unrolled(DoAll(EMPTY, ops).notices) == Came(ops)
    decreases |ops|
  {
    hide RunLengths, Unrolled, Do;
    if ops == [] {
      NothingCame();
    } else {
      NoticesAreRunLengths(ops[..|ops| - 1]);
      NoticesStep(DoAll(EMPTY, ops[..|ops| - 1]), ops[|ops| - 1], Came(ops[..|ops| - 1]));
    }
  }

  lemma NothingCame()
    ensures RunLengths(EMPTY.notices) && Unrolled(EMPTY.notices) == []
  {}
}
