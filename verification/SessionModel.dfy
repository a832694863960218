/** The transcript a chat session keeps, without its indexes: every lookup here is a
    search through the plain list of messages. */
module SessionModel {
  import opened ChatTypes
  import opened Numerals
  import opened RenderPlan

  datatype Location = Location(message: nat, segment: nat)

  datatype Child = Child(callId: string, toolName: string, block: string, status: Status)

  datatype Session = Session(
    messages: seq<Entry>,
    notices: seq<Notice>,
    children: map<nat, seq<Child>>,      // sub-agent tool calls, by parent message
    toolAt: map<nat, Location>,          // where each tool id was last added
    expanded: map<nat, bool>,
    activeAgentId: Option<nat>,
    nextId: nat,
    planGeneration: nat,
    contentGeneration: nat)

  const EMPTY := Session([], [], map[], map[], map[], None, 1, 0, 0)

  /** The last message with this id. */
  function LastIndexOf(ms: seq<Entry>, id: nat): (r: Option<nat>)
    ensures r.Some? ==> r.value < |ms| && ms[r.value].id == id
  {
    if ms == [] then None
    else if ms[|ms| - 1].id == id then Some(|ms| - 1)
    else LastIndexOf(ms[..|ms| - 1], id)
  }

  predicate IsActiveAgent(m: Entry) {
    m.sender.AgentSender? && m.status.Active?
  }

  function ActiveAgents(ms: seq<Entry>): nat {
    if ms == [] then 0
    else ActiveAgents(ms[..|ms| - 1]) + (if IsActiveAgent(ms[|ms| - 1]) then 1 else 0)
  }

  predicate HasSegment(ms: seq<Entry>, at: Location) {
    at.message < |ms| && at.segment < |ms[at.message].segments|
  }

  function SegmentAt(ms: seq<Entry>, at: Location): Segment
    requires HasSegment(ms, at)
  {
    ms[at.message].segments[at.segment]
  }

  // ---------- the mutators ----------

  function Redrawn(s: Session): Session {
    s.(planGeneration := s.planGeneration + 1, contentGeneration := s.contentGeneration + 1)
  }

  function Above(nextId: nat, id: nat): nat {
    if id >= nextId then id + 1 else nextId
  }

  function AddMessageWithId(s: Session, id: nat, sender: Sender, content: string, status: Status, roleLabel: string, now: int): Session {
    Redrawn(s.(
      nextId := Above(s.nextId, id),
      messages := s.messages + [Entry(id, sender, [TextSegment(content)], status, roleLabel, now)],
      activeAgentId :=
        if sender.UserSender? then s.activeAgentId
        else if status.Active? then Some(id)
        else if s.activeAgentId == Some(id) then None
        else s.activeAgentId))
  }

  predicate HasTurn(s: Session) {
    s.activeAgentId.Some? && LastIndexOf(s.messages, s.activeAgentId.value).Some?
  }

  /** The session with an agent turn open. */
  function EnsureAgentTurn(s: Session, now: int): Session {
    if HasTurn(s) then s
    else
      Redrawn(s.(
        nextId := s.nextId + 1,
        messages := s.messages + [Entry(s.nextId, AgentSender, [], Active, "", now)],
        activeAgentId := Some(s.nextId)))
  }

  /** Which message the open turn is. */
  function TurnIndex(s: Session): nat {
    if HasTurn(s) then LastIndexOf(s.messages, s.activeAgentId.value).value else |s.messages|
  }

  function WithSegments(ms: seq<Entry>, i: nat, segments: seq<Segment>): seq<Entry>
    requires i < |ms|
  {
    ms[i := ms[i].(segments := segments)]
  }

  lemma TurnIndexIsOpen(s: Session, now: int)
    ensures TurnIndex(s) < |EnsureAgentTurn(s, now).messages|
  {}

  function AddTool(s: Session, toolId: nat, block: string, status: Status, now: int): Session {
    var s0 := s.(nextId := Above(s.nextId, toolId));
    var s1, i := EnsureAgentTurn(s0, now), TurnIndex(s0);
    TurnIndexIsOpen(s0, now);
    var segments := s1.messages[i].segments;
    Redrawn(s1.(
      messages := WithSegments(s1.messages, i, segments + [ToolSegment(toolId, block, status)]),
      toolAt := s1.toolAt[toolId := Location(i, |segments|)],
      expanded := if toolId in s1.expanded then s1.expanded else s1.expanded[toolId := false]))
  }

  /** The tool segment of `toolId`, if its location still names one. */
  predicate HasTool(s: Session, toolId: nat) {
    toolId in s.toolAt && HasSegment(s.messages, s.toolAt[toolId]) && SegmentAt(s.messages, s.toolAt[toolId]).ToolSegment?
  }

  function UpdateTool(s: Session, toolId: nat, block: string, status: Status): Session {
    if !HasTool(s, toolId) then s
    else
      var at := s.toolAt[toolId];
      var tool := SegmentAt(s.messages, at);
      var segments := s.messages[at.message].segments;
      Redrawn(s.(messages := WithSegments(s.messages, at.message,
                                          segments[at.segment := tool.(block := block, status := status)])))
  }

  predicate OpensSegment(segments: seq<Segment>) {
    segments == [] || !segments[|segments| - 1].TextSegment?
  }

  function AppendText(segments: seq<Segment>, delta: string): seq<Segment> {
    if OpensSegment(segments) then segments + [TextSegment(delta)]
    else segments[|segments| - 1 := TextSegment(segments[|segments| - 1].text + delta)]
  }

  function AppendToMessage(s: Session, id: nat, delta: string): Session {
    var i := LastIndexOf(s.messages, id);
    if delta == "" || i.None? then s
    else
      var segments := s.messages[i.value].segments;
      s.(messages := WithSegments(s.messages, i.value, AppendText(segments, delta)),
         planGeneration := s.planGeneration + (if OpensSegment(segments) then 1 else 0),
         contentGeneration := s.contentGeneration + 1)
  }

  function SetStatus(s: Session, id: nat, status: Status): Session {
    var i := LastIndexOf(s.messages, id);
    if i.None? || s.messages[i.value].status == status then s
    else
      var m := s.messages[i.value];
      var m' := m.(status := status);
      Redrawn(s.(
        messages := s.messages[i.value := m'],
        activeAgentId :=
          if m.sender.UserSender? then s.activeAgentId
          else if IsActiveAgent(m') then Some(id)
          else if IsActiveAgent(m) && s.activeAgentId == Some(id) then None
          else s.activeAgentId))
  }

  function ChildrenOf(s: Session, parent: nat): seq<Child> {
    if parent in s.children then s.children[parent] else []
  }

  function EffectiveCallId(s: Session, parent: nat, callId: string, toolName: string): string {
    if callId != "" then callId
    else if toolName == "" then "tool-" + ToDecimal(|ChildrenOf(s, parent)| + 1)
    else toolName
  }

  /** The first child with this call id, or the number of children. */
  function ChildIndex(cs: seq<Child>, callId: string): (i: nat)
    ensures i <= |cs|
  {
    if cs == [] || cs[0].callId == callId then 0 else 1 + ChildIndex(cs[1..], callId)
  }

  function UpsertChild(s: Session, parent: nat, callId: string, toolName: string, block: string, status: Status): Session {
    var cs := ChildrenOf(s, parent);
    var id := EffectiveCallId(s, parent, callId, toolName);
    var i := ChildIndex(cs, id);
    var child := Child(id, toolName, block, status);
    s.(children := s.children[parent := if i < |cs| then cs[i := cs[i].(toolName := toolName, block := block, status := status)] else cs + [child]],
       contentGeneration := s.contentGeneration + 1)
  }

  function SetExpanded(s: Session, toolId: nat, expanded: bool): Session {
    if toolId in s.expanded then s.(expanded := s.expanded[toolId := expanded]) else s
  }

  function AppendNotice(s: Session, notice: string, now: int): Session {
    var n := |s.notices|;
    if n > 0 && s.notices[n - 1].notice == notice then
      s.(notices := s.notices[n - 1 := s.notices[n - 1].(repeat := s.notices[n - 1].repeat + 1)],
         contentGeneration := s.contentGeneration + 1)
    else
      Redrawn(s.(nextId := s.nextId + 1, notices := s.notices + [Notice(s.nextId, notice, now, 1)]))
  }

  function Clear(s: Session): Session {
    Redrawn(s.(messages := [], notices := [], children := map[], toolAt := map[], expanded := map[], activeAgentId := None))
  }

  datatype Op =
    | DoAddMessage(sender: Sender, content: string, status: Status, now: int)
    | DoAddMessageWithId(id: nat, sender: Sender, content: string, status: Status, roleLabel: string, now: int)
    | DoAddFreshTool(block: string, status: Status, now: int)
    | DoAddTool(toolId: nat, block: string, status: Status, now: int)
    | DoUpdateTool(toolId: nat, block: string, status: Status)
    | DoAppendText(id: nat, delta: string)
    | DoSetStatus(id: nat, status: Status)
    | DoUpsertChild(id: nat, callId: string, toolName: string, block: string, status: Status)
    | DoSetExpanded(toolId: nat, expanded: bool)
    | DoAppendNotice(notice: string, now: int)
    | DoClear

  function Do(s: Session, op: Op): Session {
    match op
    case DoAddMessage(sender, content, status, now) =>
      AddMessageWithId(s.(nextId := s.nextId + 1), s.nextId, sender, content, status, "", now)
    case DoAddMessageWithId(id, sender, content, status, roleLabel, now) =>
      AddMessageWithId(s, id, sender, content, status, roleLabel, now)
    case DoAddFreshTool(block, status, now) => AddTool(s.(nextId := s.nextId + 1), s.nextId, block, status, now)
    case DoAddTool(toolId, block, status, now) => AddTool(s, toolId, block, status, now)
    case DoUpdateTool(toolId, block, status) => UpdateTool(s, toolId, block, status)
    case DoAppendText(id, delta) => AppendToMessage(s, id, delta)
    case DoSetStatus(id, status) => SetStatus(s, id, status)
    case DoUpsertChild(id, callId, toolName, block, status) => UpsertChild(s, id, callId, toolName, block, status)
    case DoSetExpanded(toolId, expanded) => SetExpanded(s, toolId, expanded)
    case DoAppendNotice(notice, now) => AppendNotice(s, notice, now)
    case DoClear => Clear(s)
  }

  function DoAll(s: Session, ops: seq<Op>): Session {
    if ops == [] then s else Do(DoAll(s, ops[..|ops| - 1]), ops[|ops| - 1])
  }

  // ---------- lists of messages ----------

  lemma LastIndexOfAppend(ms: seq<Entry>, m: Entry, id: nat)
    ensures LastIndexOf(ms + [m], id) == if m.id == id then Some(|ms|) else LastIndexOf(ms, id)
    ensures ActiveAgents(ms + [m]) == ActiveAgents(ms) + (if IsActiveAgent(m) then 1 else 0)
  {
    assert (ms + [m])[..|ms|] == ms;
  }

  /** Replacing a message under the same id leaves the searches alone. */
  lemma {:induction false} LastIndexOfUpdate(ms: seq<Entry>, i: nat, m: Entry, id: nat)
    requires i < |ms| && m.id == ms[i].id
    ensures LastIndexOf(ms[i := m], id) == LastIndexOf(ms, id)
    ensures ActiveAgents(ms[i := m]) + (if IsActiveAgent(ms[i]) then 1 else 0)
         == ActiveAgents(ms) + (if IsActiveAgent(m) then 1 else 0)
    decreases |ms|
  {
    var last := |ms| - 1;
    if i == last {
      assert ms[i := m][..last] == ms[..last];
    } else {
      assert ms[i := m][..last] == ms[..last][i := m];
      LastIndexOfUpdate(ms[..last], i, m, id);
    }
  }

  lemma {:induction false} LastIndexIsLast(ms: seq<Entry>, id: nat)
    ensures LastIndexOf(ms, id).None? ==> forall i :: 0 <= i < |ms| ==> ms[i].id != id
    ensures LastIndexOf(ms, id).Some? ==> forall i :: LastIndexOf(ms, id).value < i < |ms| ==> ms[i].id != id
  {
    if ms == [] || ms[|ms| - 1].id == id {
    } else {
      LastIndexIsLast(ms[..|ms| - 1], id);
    }
  }
}
