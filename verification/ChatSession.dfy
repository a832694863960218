/** The session as it is stored: the plain list of messages with an id index, a tool
    index and a running count of active agents beside it. */
module ChatSessions {
  import opened ChatTypes
  import opened Numerals
  import opened RenderPlan
  import opened SessionModel
  import opened SessionInvariants
  import opened SessionContents

  // ---------- the index against the plain list ----------

  function Lookup<T>(index: map<nat, T>, id: nat): Option<T> {
    if id in index then Some(index[id]) else None
  }

  /** The index maps each id to the last message with it, and holds no other id. */
  ghost predicate Agrees(index: map<nat, nat>, ms: seq<Entry>) {
    forall id: nat :: Lookup(index, id) == LastIndexOf(ms, id)
  }

  lemma AgreesAfterPush(index: map<nat, nat>, ms: seq<Entry>, m: Entry)
    requires Agrees(index, ms)
    ensures Agrees(index[m.id := |ms|], ms + [m])
    ensures ActiveAgents(ms + [m]) == ActiveAgents(ms) + (if IsActiveAgent(m) then 1 else 0)
  {
    forall id: nat
      ensures Lookup(index[m.id := |ms|], id) == LastIndexOf(ms + [m], id)
    {
      LastIndexOfAppend(ms, m, id);
      assert Lookup(index, id) == LastIndexOf(ms, id);
    }
    LastIndexOfAppend(ms, m, 0);
  }

  lemma AgreesAfterEdit(index: map<nat, nat>, ms: seq<Entry>, i: nat, m: Entry)
    requires Agrees(index, ms) && i < |ms| && m.id == ms[i].id
    ensures Agrees(index, ms[i := m])
    ensures ActiveAgents(ms[i := m]) + (if IsActiveAgent(ms[i]) then 1 else 0)
         == ActiveAgents(ms) + (if IsActiveAgent(m) then 1 else 0)
  {
    forall id: nat
      ensures Lookup(index, id) == LastIndexOf(ms[i := m], id)
    {
      LastIndexOfUpdate(ms, i, m, id);
      assert Lookup(index, id) == LastIndexOf(ms, id);
    }
    LastIndexOfUpdate(ms, i, m, 0);
  }

  /** The count is right in the sense that matters: it is zero exactly when no message
      is an Active agent. */
  lemma {:induction false} NoActiveAgents(ms: seq<Entry>)
    ensures ActiveAgents(ms) == 0 <==> forall i :: 0 <= i < |ms| ==> !IsActiveAgent(ms[i])
  {
    if ms == [] {
    } else {
      NoActiveAgents(ms[..|ms| - 1]);
    }
  }

  // ---------- which text segment is the last one ----------

  function TextSegments(segments: seq<Segment>): nat {
    if segments == [] then 0
    else TextSegments(segments[..|segments| - 1]) + (if segments[|segments| - 1].TextSegment? then 1 else 0)
  }

  method FindChild(children: seq<Child>, callId: string) returns (k: nat)
    ensures k == ChildIndex(children, callId) && k <= |children|
    ensures k < |children| ==> children[k].callId == callId
    ensures forall j :: 0 <= j < k ==> children[j].callId != callId
  {
    k := 0;
    while k < |children| && children[k].callId != callId
      invariant k <= |children| && ChildIndex(children, callId) == k + ChildIndex(children[k..], callId)
      invariant forall j :: 0 <= j < k ==> children[j].callId != callId
    {
      k := k + 1;
    }
  }

  class ChatSession {
    var nextId: nat
    var planGeneration: nat
    var contentGeneration: nat
    var messages: seq<Entry>
    var idToIndex: map<nat, nat>
    var toolLocation: map<nat, Location>
    var activeAgentId: Option<nat>
    var activeAgentCount: int
    var toolExpanded: map<nat, bool>
    var subAgentToolMessages: map<nat, seq<Child>>
    var notices: seq<Notice>

    /** The session without its indexes. */
    ghost function View(): Session
      reads this
    {
      Session(messages, notices, subAgentToolMessages, toolLocation, toolExpanded, activeAgentId,
              nextId, planGeneration, contentGeneration)
    }

    ghost predicate IndexesAgree()
      reads this
    {
      Agrees(idToIndex, messages) && activeAgentCount == ActiveAgents(messages)
    }

    ghost predicate Valid()
      reads this
    {
      IndexesAgree() && Sound(View())
    }

    constructor ()
      ensures Valid() && View() == SessionModel.EMPTY
    {
      nextId, planGeneration, contentGeneration := 1, 0, 0;
      messages, idToIndex, toolLocation := [], map[], map[];
      activeAgentId, activeAgentCount := None, 0;
      toolExpanded, subAgentToolMessages, notices := map[], map[], [];
    }

    // ---------- lookups ----------

    method FindMessageIndex(id: nat) returns (r: Option<nat>)
      requires IndexesAgree()
      ensures r == LastIndexOf(messages, id)
      ensures r.Some? ==> r.value < |messages| && messages[r.value].id == id
    {
      assert Lookup(idToIndex, id) == LastIndexOf(messages, id);
      if id in idToIndex {
        return Some(idToIndex[id]);
      }
      return None;
    }

    method HasMessage(id: nat) returns (r: bool)
      requires IndexesAgree()
      ensures r <==> exists i :: 0 <= i < |messages| && messages[i].id == id
    {
      assert Lookup(idToIndex, id) == LastIndexOf(messages, id);
      LastIndexIsLast(messages, id);
      return id in idToIndex;
    }

    method HasActiveAgent() returns (r: bool)
      requires IndexesAgree()
      ensures r <==> exists i :: 0 <= i < |messages| && IsActiveAgent(messages[i])
    {
      NoActiveAgents(messages);
      return activeAgentCount > 0;
    }

    /** In a valid session the segment found is a tool segment with the id asked for, and
        one is found whenever there is one. */
    method FindToolSegment(toolId: nat) returns (r: Option<Segment>)
      requires Valid()
      ensures r.Some? ==> r.value.ToolSegment? && r.value.id == toolId
      ensures r.Some? <==> exists at :: IsTool(messages, at, toolId)
    {
      if toolId !in toolLocation {
        forall at | HasSegment(messages, at)
          ensures !IsTool(messages, at, toolId)
        {
          assert ToolIdsKnown(messages[at.message].segments, toolLocation);
        }
        return None;
      }
      var at := toolLocation[toolId];
      assert IsTool(messages, at, toolId);
      if at.message >= |messages| || at.segment >= |messages[at.message].segments| {
        return None;
      }
      var segment := messages[at.message].segments[at.segment];
      return if segment.ToolSegment? then Some(segment) else None;
    }

    /** The last text segment's place among the text segments. */
    method TrailingTextSegmentIndex(id: nat) returns (r: Option<nat>)
      requires IndexesAgree()
      ensures var i := LastIndexOf(messages, id);
              r == if i.Some? && TextSegments(messages[i.value].segments) > 0
                   then Some(TextSegments(messages[i.value].segments) - 1) else None
    {
      var i := FindMessageIndex(id);
      if i.None? {
        return None;
      }
      var segments := messages[i.value].segments;
      r := None;
      var textIdx := 0;
      var k := 0;
      while k < |segments|
        invariant k <= |segments| && textIdx == TextSegments(segments[..k])
        invariant r == if textIdx > 0 then Some(textIdx - 1) else None
      {
        assert segments[..k + 1][..k] == segments[..k];
        if segments[k].TextSegment? {
          r := Some(textIdx);
          textIdx := textIdx + 1;
        }
        k := k + 1;
      }
      assert segments[..|segments|] == segments;
    }

    // ---------- mutators ----------

    method PushMessage(m: Entry)
      requires IndexesAgree()
      modifies `messages, `idToIndex
      ensures messages == old(messages) + [m] && Agrees(idToIndex, messages)
      ensures ActiveAgents(messages) == ActiveAgents(old(messages)) + (if IsActiveAgent(m) then 1 else 0)
    {
      AgreesAfterPush(idToIndex, messages, m);
      messages := messages + [m];
      idToIndex := idToIndex[m.id := |messages| - 1];
    }

    method BumpBoth()
      modifies `planGeneration, `contentGeneration
      ensures planGeneration == old(planGeneration) + 1 && contentGeneration == old(contentGeneration) + 1
    {
      planGeneration := planGeneration + 1;
      contentGeneration := contentGeneration + 1;
    }

    method PutMessageWithId(id: nat, sender: Sender, content: string, status: Status, roleLabel: string, now: int)
      requires IndexesAgree()
      modifies this
      ensures IndexesAgree()
      ensures View() == AddMessageWithId(old(View()), id, sender, content, status, roleLabel, now)
    {
      hide Agrees, ActiveAgents, LastIndexOf;
      if id >= nextId {
        nextId := id + 1;
      }
      PushMessage(Entry(id, sender, [TextSegment(content)], status, roleLabel, now));
      if sender.AgentSender? {
        if status.Active? {
          activeAgentCount := activeAgentCount + 1;
          activeAgentId := Some(id);
        } else if activeAgentId == Some(id) {
          activeAgentId := None;
        }
      }
      BumpBoth();
    }

    method AddMessage(sender: Sender, content: string, status: Status, now: int) returns (id: nat)
      requires Valid()
      modifies this
      ensures Valid() && View() == Do(old(View()), DoAddMessage(sender, content, status, now))
      ensures id == old(nextId) && LastIndexOf(old(messages), id) == None
      ensures LastIndexOf(messages, id) == Some(|old(messages)|)
    {
      SoundKept(View(), DoAddMessage(sender, content, status, now));
      LastIndexOfAppend(messages, Entry(nextId, sender, [TextSegment(content)], status, "", now), nextId);
      id := nextId;
      nextId := nextId + 1;
      PutMessageWithId(id, sender, content, status, "", now);
    }

    method AddGivenMessage(id: nat, sender: Sender, content: string, status: Status, roleLabel: string, now: int)
      requires Valid()
      modifies this
      ensures Valid()
      ensures View() == Do(old(View()), DoAddMessageWithId(id, sender, content, status, roleLabel, now))
    {
      SoundKept(View(), DoAddMessageWithId(id, sender, content, status, roleLabel, now));
      PutMessageWithId(id, sender, content, status, roleLabel, now);
    }

    method EnsureTurn(now: int) returns (index: nat)
      requires IndexesAgree()
      modifies this
      ensures IndexesAgree()
      ensures View() == EnsureAgentTurn(old(View()), now)
      ensures index == TurnIndex(old(View())) && index < |messages|
    {
      hide Agrees, ActiveAgents;
      TurnIndexIsOpen(View(), now);
      if activeAgentId.Some? {
        var i := FindMessageIndex(activeAgentId.value);
        if i.Some? {
          return i.value;
        }
        activeAgentId := None;
      }
      var freshId := nextId;
      nextId := nextId + 1;
      PushMessage(Entry(freshId, AgentSender, [], Active, "", now));
      activeAgentId := Some(freshId);
      activeAgentCount := activeAgentCount + 1;
      BumpBoth();
      return |messages| - 1;
    }

    method PutSegments(i: nat, segments: seq<Segment>)
      requires IndexesAgree() && i < |messages|
      modifies `messages
      ensures IndexesAgree() && messages == WithSegments(old(messages), i, segments)
    {
      AgreesAfterEdit(idToIndex, messages, i, messages[i].(segments := segments));
      messages := messages[i := messages[i].(segments := segments)];
    }

    method PutTool(toolId: nat, block: string, status: Status, now: int)
      requires IndexesAgree()
      modifies this
      ensures IndexesAgree() && View() == AddTool(old(View()), toolId, block, status, now)
    {
      hide Agrees, ActiveAgents, LastIndexOf, EnsureAgentTurn, TurnIndex;
      if toolId >= nextId {
        nextId := toolId + 1;
      }
      var i := EnsureTurn(now);
      var segments := messages[i].segments;
      PutSegments(i, segments + [ToolSegment(toolId, block, status)]);
      toolLocation := toolLocation[toolId := Location(i, |segments|)];
      if toolId !in toolExpanded {
        toolExpanded := toolExpanded[toolId := false];
      }
      BumpBoth();
    }

    method AddFreshToolCallSegment(block: string, status: Status, now: int) returns (id: nat)
      requires Valid()
      modifies this
      ensures Valid() && View() == Do(old(View()), DoAddFreshTool(block, status, now))
      ensures id == old(nextId) && id !in old(toolLocation)
    {
      hide Agrees, ActiveAgents, AddTool;
      SoundKept(View(), DoAddFreshTool(block, status, now));
      id := nextId;
      nextId := nextId + 1;
      PutTool(id, block, status, now);
    }

    method AddToolCallSegment(toolId: nat, block: string, status: Status, now: int)
      requires Valid()
      modifies this
      ensures Valid() && View() == Do(old(View()), DoAddTool(toolId, block, status, now))
    {
      hide Agrees, Sound, ActiveAgents, LastIndexOf, AddTool;
      SoundKept(View(), DoAddTool(toolId, block, status, now));
      PutTool(toolId, block, status, now);
    }

    method UpdateToolCallSegment(toolId: nat, block: string, status: Status)
      requires Valid()
      modifies this
      ensures Valid() && View() == Do(old(View()), DoUpdateTool(toolId, block, status))
    {
      hide Agrees, Sound, ActiveAgents, LastIndexOf;
      SoundKept(View(), DoUpdateTool(toolId, block, status));
      if toolId !in toolLocation {
        return;
      }
      var at := toolLocation[toolId];
      if at.message >= |messages| || at.segment >= |messages[at.message].segments| {
        return;
      }
      var segment := messages[at.message].segments[at.segment];
      if !segment.ToolSegment? {
        return;
      }
      PutSegments(at.message, messages[at.message].segments[at.segment := segment.(block := block, status := status)]);
      BumpBoth();
    }

    method AppendToAgentMessage(id: nat, delta: string)
      requires Valid()
      modifies this
      ensures Valid() && View() == Do(old(View()), DoAppendText(id, delta))
      ensures Holds(old(View()), id) ==>
                Holds(View(), id)
                && CombinedText(MessageOf(View(), id).segments) == CombinedText(MessageOf(old(View()), id).segments) + delta
    {
      hide Agrees, Sound, ActiveAgents, CombinedText;
      SoundKept(View(), DoAppendText(id, delta));
      if Holds(View(), id) {
        AppendMovesText(View(), id, delta, id);
      }
      if delta == "" {
        return;
      }
      var i := FindMessageIndex(id);
      if i.None? {
        return;
      }
      var segments := messages[i.value].segments;
      var opensNewSegment := segments == [] || !segments[|segments| - 1].TextSegment?;
      if opensNewSegment {
        PutSegments(i.value, segments + [TextSegment(delta)]);
        planGeneration := planGeneration + 1;
      } else {
        var last := segments[|segments| - 1];
        PutSegments(i.value, segments[|segments| - 1 := last.(text := last.text + delta)]);
      }
      contentGeneration := contentGeneration + 1;
    }

    method SetMessageStatus(id: nat, status: Status)
      requires Valid()
      modifies this
      ensures Valid() && View() == Do(old(View()), DoSetStatus(id, status))
    {
      hide Agrees, Sound, ActiveAgents;
      SoundKept(View(), DoSetStatus(id, status));
      var i := FindMessageIndex(id);
      if i.None? {
        return;
      }
      var message := messages[i.value];
      if message.status == status {
        return;
      }
      AgreesAfterEdit(idToIndex, messages, i.value, message.(status := status));
      if message.sender.AgentSender? {
        if message.status.Active? && !status.Active? {
          activeAgentCount := activeAgentCount - 1;
          if activeAgentId == Some(id) {
            activeAgentId := None;
          }
        } else if !message.status.Active? && status.Active? {
          activeAgentCount := activeAgentCount + 1;
          activeAgentId := Some(id);
        }
      }
      messages := messages[i.value := message.(status := status)];
      BumpBoth();
    }

    method UpsertSubAgentToolCall(parent: nat, callId: string, toolName: string, block: string, status: Status)
      returns (added: bool)
      requires Valid()
      modifies this
      ensures Valid() && View() == Do(old(View()), DoUpsertChild(parent, callId, toolName, block, status))
      ensures added <==> |ChildrenOf(View(), parent)| == |ChildrenOf(old(View()), parent)| + 1
    {
      hide Agrees, Sound, ActiveAgents, LastIndexOf, ToDecimal, ChildIndex;
      SoundKept(View(), DoUpsertChild(parent, callId, toolName, block, status));
      var children := if parent in subAgentToolMessages then subAgentToolMessages[parent] else [];
      var id := callId;
      if callId == "" {
        id := if toolName == "" then "tool-" + ToDecimal(|children| + 1) else toolName;
      }
      var k := FindChild(children, id);
      contentGeneration := contentGeneration + 1;
      if k < |children| {
        var child := children[k].(toolName := toolName, block := block, status := status);
        subAgentToolMessages := subAgentToolMessages[parent := children[k := child]];
        return false;
      }
      subAgentToolMessages := subAgentToolMessages[parent := children + [Child(id, toolName, block, status)]];
      return true;
    }

    method SetToolExpanded(toolId: nat, expanded: bool)
      requires Valid()
      modifies this
      ensures Valid() && View() == Do(old(View()), DoSetExpanded(toolId, expanded))
    {
      hide Agrees, Sound, ActiveAgents, LastIndexOf;
      SoundKept(View(), DoSetExpanded(toolId, expanded));
      if toolId in toolExpanded {
        toolExpanded := toolExpanded[toolId := expanded];
      }
    }

    method PutNotice(notice: string, now: int) returns (id: nat)
      requires Valid()
      modifies this
      ensures Valid() && View() == Do(old(View()), DoAppendNotice(notice, now))
      ensures notices != [] && notices[|notices| - 1].id == id && notices[|notices| - 1].notice == notice
    {
      hide Agrees, Sound, ActiveAgents, LastIndexOf;
      SoundKept(View(), DoAppendNotice(notice, now));
      var n := |notices|;
      if n > 0 && notices[n - 1].notice == notice {
        notices := notices[n - 1 := notices[n - 1].(repeat := notices[n - 1].repeat + 1)];
        contentGeneration := contentGeneration + 1;
        return notices[n - 1].id;
      }
      id := nextId;
      nextId := nextId + 1;
      notices := notices + [Notice(id, notice, now, 1)];
      BumpBoth();
    }

    method ClearMessages()
      requires Valid()
      modifies this
      ensures Valid() && View() == Do(old(View()), DoClear)
    {
      hide Sound;
      SoundKept(View(), DoClear);
      messages, idToIndex, toolLocation := [], map[], map[];
      activeAgentId, activeAgentCount := None, 0;
      toolExpanded, subAgentToolMessages, notices := map[], map[], [];
      BumpBoth();
    }
  }

  // ---------- the chat view's cached plan ----------

  class ChatUi {
    const session: ChatSession
    var planValid: bool
    var lastPlanGeneration: nat
    var renderPlan: seq<Item>

    constructor (session: ChatSession)
      ensures this.session == session && !planValid
    {
      this.session := session;
      planValid, lastPlanGeneration, renderPlan := false, 0, [];
    }

    /** The drawing order is that of the current transcript whether or not it was rebuilt. */
    method SyncMessageComponents()
      requires planValid && lastPlanGeneration == session.planGeneration ==>
                 renderPlan == PlanOf(session.messages, session.notices)
      modifies this
      ensures renderPlan == PlanOf(session.messages, session.notices)
      ensures planValid && lastPlanGeneration == session.planGeneration
    {
      var generation := session.planGeneration;
      if planValid && generation == lastPlanGeneration {
        return;
      }
      renderPlan := BuildMessageRenderPlan(session.messages, session.notices);
      lastPlanGeneration := generation;
      planValid := true;
    }
  }
}
