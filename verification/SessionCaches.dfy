/** The two generation counters are sound cache keys. */
module SessionCaches {
  import opened ChatTypes
  import opened Numerals
  import opened RenderPlan
  import opened SessionModel

  function PlanFor(s: Session): seq<Item> {
    PlanOf(s.messages, s.notices)
  }

  /** Both counters only grow, the content counter at least whenever the plan counter does. */
  predicate CountersGrow(s: Session, s': Session) {
    && s.planGeneration <= s'.planGeneration
    && s.contentGeneration <= s'.contentGeneration
    && (s.contentGeneration == s'.contentGeneration ==> s.planGeneration == s'.planGeneration)
  }

  /** What is drawn is the same. */
  predicate SameContent(s: Session, s': Session) {
    s'.messages == s.messages && s'.notices == s.notices && s'.children == s.children
  }

  ghost predicate SameShapes(s: Session, s': Session) {
    SameMessageShapes(s.messages, s'.messages) && SameNoticeTimes(s.notices, s'.notices)
  }

  lemma ToolsMoveTheCounters(s: Session, toolId: nat, block: string, status: Status, now: int)
    ensures var s' := AddTool(s, toolId, block, status, now);
            s.planGeneration < s'.planGeneration && s.contentGeneration < s'.contentGeneration
  {
    TurnIndexIsOpen(s.(nextId := Above(s.nextId, toolId)), now);
  }

  /** One mutation: a counter that stood still vouches for what it is a key for. */
  lemma StillCountersAtOneStep(s: Session, op: Op)
    ensures var s' := Do(s, op);
            && CountersGrow(s, s')
            && (s.contentGeneration == s'.contentGeneration ==> SameContent(s, s'))
            && (s.planGeneration == s'.planGeneration ==> SameShapes(s, s'))
  {
    hide AddTool;
    match op
    case DoAddFreshTool(block, status, now) =>
      ToolsMoveTheCounters(s.(nextId := s.nextId + 1), s.nextId, block, status, now);
    case DoAddTool(toolId, block, status, now) => ToolsMoveTheCounters(s, toolId, block, status, now);
    case _ =>
  }

  /** Any stretch of any run of mutations: if the content counter is back at the same
      value, the content is the same, and likewise for the plan counter and the plan. */
  lemma {:induction false} EqualCountersMeanEqualContent(s: Session, ops: seq<Op>)
    ensures var s' := DoAll(s, ops);
            && CountersGrow(s, s')
            && (s.contentGeneration == s'.contentGeneration ==> SameContent(s, s'))
            && (s.planGeneration == s'.planGeneration ==> SameShapes(s, s') && PlanFor(s') == PlanFor(s))
    decreases |ops|
  {
    if ops != [] {
      var before := DoAll(s, ops[..|ops| - 1]);
      EqualCountersMeanEqualContent(s, ops[..|ops| - 1]);
      StillCountersAtOneStep(before, ops[|ops| - 1]);
    }
    var s' := DoAll(s, ops);
    hide DoAll, Do;
    if SameShapes(s, s') {
      PlanDependsOnShapes(s.messages, s'.messages, s.notices, s'.notices, 0, 0);
    }
  }

  // ---------- the cached plan ----------

  datatype Ui = Ui(session: Session, planValid: bool, lastPlanGeneration: nat, plan: seq<Item>)

  datatype UiStep = Mutate(op: Op) | Sync

  function Synced(u: Ui): Ui {
    if u.planValid && u.lastPlanGeneration == u.session.planGeneration then u
    else Ui(u.session, true, u.session.planGeneration, PlanFor(u.session))
  }

  function UiDo(u: Ui, step: UiStep): Ui {
    match step
    case Mutate(op) => u.(session := Do(u.session, op))
    case Sync => Synced(u)
  }

  function UiRun(u: Ui, steps: seq<UiStep>): Ui {
    if steps == [] then u else UiDo(UiRun(u, steps[..|steps| - 1]), steps[|steps| - 1])
  }

  predicate CachedPlanIsRight(u: Ui) {
    u.planValid ==>
      && u.lastPlanGeneration <= u.session.planGeneration
      && (u.lastPlanGeneration == u.session.planGeneration ==> u.plan == PlanFor(u.session))
  }

  /** However mutations and syncs interleave, a plan whose generation still matches is
      the plan of the current transcript. */
  lemma {:induction false} MatchingGenerationMeansCurrentPlan(u: Ui, steps: seq<UiStep>)
    requires CachedPlanIsRight(u)
    ensures CachedPlanIsRight(UiRun(u, steps))
    decreases |steps|
  {
    if steps == [] {
    } else {
      var before := UiRun(u, steps[..|steps| - 1]);
      MatchingGenerationMeansCurrentPlan(u, steps[..|steps| - 1]);
      match steps[|steps| - 1]
      case Sync =>
      case Mutate(op) =>
        assert DoAll(before.session, [op]) == Do(before.session, op);
        EqualCountersMeanEqualContent(before.session, [op]);
    }
  }

  /** So a sync that skips the rebuild shows exactly what a rebuild would. */
  lemma SkippedRebuildsAreInvisible(u: Ui, steps: seq<UiStep>)
    requires !u.planValid
    ensures Synced(UiRun(u, steps)).plan == PlanFor(UiRun(u, steps).session)
    ensures Synced(UiRun(u, steps)).session == UiRun(u, steps).session
  {
    MatchingGenerationMeansCurrentPlan(u, steps);
  }

  /** The header promises that a text append never moves the plan counter. It does,
      exactly when the text opens a new segment. */
  lemma TextAppendsMayMoveThePlanCounter(s: Session, id: nat, delta: string)
    ensures AppendToMessage(s, id, delta).planGeneration != s.planGeneration
       <==> delta != "" && LastIndexOf(s.messages, id).Some?
            && OpensSegment(s.messages[LastIndexOf(s.messages, id).value].segments)
    ensures PlanFor(AppendToMessage(s, id, delta)) == PlanFor(s)
  {
    var s' := AppendToMessage(s, id, delta);
    PlanDependsOnShapes(s.messages, s'.messages, s.notices, s'.notices, 0, 0);
  }
}
