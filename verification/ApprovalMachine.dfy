/** Any number of tool rounds, of the main agent and of sub-agents, that share one
    approval gate and one approval manager, as a step system. */
module ApprovalMachine {
  import opened Numerals
  import opened ToolApproval

  const ASK_USER := "ask_user"

  datatype Tool = Tool(callId: string, name: string, args: string)

  datatype Mode = Build | Plan

  /** What preparing a call found out. */
  datatype Prep = Prep(failed: bool, requiresApproval: bool)

  /** Why a call may go on to the execution check, or that it may not. For a granted
      call the two positions say where in the journal it was requested and where its
      wait returned. */
  datatype Permit =
    | Unneeded
    | Failed
    | Rejected
    | AskUser(id: string)
    | Granted(id: string, requestedAt: nat, returnedAt: nat)

  /** Where a runner is with its current call. */
  datatype Pc =
    | AtLoop
    | AtGate
    | GotGate
    | Minting
    | Fetched(number: nat)
    | Asked(id: string, at: nat)
    | Leaving(permit: Permit)
    | Judged(permit: Permit)
    | Allowed(permit: Permit, checkedAt: nat)
    | Answering(id: string)
    | Finishing
    | Done

  datatype Runner = Runner(tools: seq<Tool>, call: nat, prep: Prep, pc: Pc, stop: bool)

  datatype Event =
    | Requested(runner: nat, call: nat, id: string)
    | Resolved(id: string, approved: bool)
    | Stopped(runner: nat)
    | Returned(runner: nat, call: nat, id: string, approved: bool)
    | ModeAllowed(runner: nat, call: nat)
    | Executed(runner: nat, call: nat, tool: Tool, prep: Prep, permit: Permit, checkedAt: nat)

  /** Who asked under an id, and where the journal says so. */
  datatype Ask = Ask(number: nat, runner: nat, call: nat, at: nat)

  datatype State = State(
    runners: seq<Runner>,
    gate: Option<nat>,
    pending: Pending,
    nextId: nat,
    mode: Mode,
    planTools: set<string>,      // tools the plan mode allows
    asked: map<string, Ask>,     // never erased; kept for the statements
    journal: seq<Event>)

  function Init(planTools: set<string>): State {
    State([], None, map[], 1, Build, planTools, map[], [])
  }

  datatype OtherAction =
    | Spawn(tools: seq<Tool>)
    | RequestStop(stopped: nat)
    | ResolveTool(id: string, approved: bool)
    | ResolveAsk(id: string, response: string)
    | CancelPending
    | SetMode(mode: Mode)

  datatype RunnerAction =
    | Prepare(prep: Prep)
    | LockGate
    | CheckStop
    | FetchId
    | InsertRequest
    | SkipWait
    | ReturnFromWait
    | ReleaseGate
    | Judge
    | Execute
    | ReturnAnswer
    | Finish(generationMoved: bool)

  datatype Action = ByOthers(other: OtherAction) | ByRunner(runner: nat, step: RunnerAction)

  predicate ModeDenies(s: State, tool: Tool) {
    s.mode.Plan? && tool.name !in s.planTools
  }

  predicate Holding(pc: Pc) {
    pc.GotGate? || pc.Minting? || pc.Fetched? || pc.Asked? || pc.Leaving?
  }

  // ---------- steps ----------

  function Logged(s: State, e: Event): State {
    s.(journal := s.journal + [e])
  }

  function To(s: State, r: nat, pc: Pc): State
    requires r < |s.runners|
  {
    s.(runners := s.runners[r := s.runners[r].(pc := pc)])
  }

  function ApplyOther(s: State, a: OtherAction): State {
    match a
    case Spawn(tools) => s.(runners := s.runners + [Runner(tools, 0, Prep(false, false), AtLoop, false)])
    case RequestStop(r) =>
      if r < |s.runners| then Logged(s.(runners := s.runners[r := s.runners[r].(stop := true)]), Stopped(r)) else s
    case ResolveTool(id, approved) =>
      if id in s.pending then Logged(s.(pending := Resolve(s.pending, id, approved, None)), Resolved(id, approved)) else s
    case ResolveAsk(id, response) =>
      if id in s.pending then Logged(s.(pending := Resolve(s.pending, id, true, Some(response))), Resolved(id, true)) else s
    case CancelPending => s.(pending := CancelAll(s.pending))
    case SetMode(mode) => s.(mode := mode)
  }

  predicate StepEnabled(s: State, r: nat, a: RunnerAction)
    requires r < |s.runners|
  {
    var x := s.runners[r];
    match a
    case Prepare(_) => x.pc.AtLoop? && x.call < |x.tools|
    case LockGate => x.pc.AtGate? && s.gate.None?
    case CheckStop => x.pc.GotGate?
    case FetchId => x.pc.Minting?
    case InsertRequest => x.pc.Fetched? && x.call < |x.tools|
    case SkipWait => x.pc.Asked? && x.call < |x.tools| && x.tools[x.call].name == ASK_USER
    case ReturnFromWait =>
      x.pc.Asked? && x.call < |x.tools| && x.tools[x.call].name != ASK_USER && WaitOver(s.pending, x.pc.id, x.stop)
    case ReleaseGate => x.pc.Leaving?
    case Judge => x.pc.Judged? && x.call < |x.tools|
    case Execute => x.pc.Allowed? && x.call < |x.tools|
    case ReturnAnswer => x.pc.Answering? && WaitOver(s.pending, x.pc.id, x.stop)
    case Finish(_) => x.pc.Finishing?
  }

  function ApplyPrepare(s: State, r: nat, prep: Prep): State
    requires r < |s.runners| && StepEnabled(s, r, Prepare(prep))
  {
    var x := s.runners[r];
    var found := if ModeDenies(s, x.tools[x.call]) then Prep(true, false) else prep;
    s.(runners := s.runners[r := x.(prep := found,
                                    pc := if found.failed then Judged(Failed)
                                          else if found.requiresApproval then AtGate
                                          else Judged(Unneeded))])
  }

  function ApplyInsert(s: State, r: nat): State
    requires r < |s.runners| && StepEnabled(s, r, InsertRequest)
  {
    var x := s.runners[r];
    var tool, id, at := x.tools[x.call], IdOf(x.pc.number), |s.journal|;
    var s1 := if id in s.pending then s
              else s.(pending := s.pending[id := PendingApproval(tool.callId, tool.name, tool.args, None, None)]);
    Logged(To(s1.(asked := s.asked[id := Ask(x.pc.number, r, x.call, at)]), r, Asked(id, at)),
           Requested(r, x.call, id))
  }

  function ApplyReturn(s: State, r: nat): State
    requires r < |s.runners| && StepEnabled(s, r, ReturnFromWait)
  {
    var x := s.runners[r];
    var id, approved := x.pc.id, ResolutionOf(s.pending, x.pc.id, x.stop).approved;
    var permit := if approved then Granted(id, x.pc.at, |s.journal|) else Rejected;
    Logged(To(s.(pending := s.pending - {id}), r, Leaving(permit)), Returned(r, x.call, id, approved))
  }

  function ApplyJudge(s: State, r: nat): State
    requires r < |s.runners| && StepEnabled(s, r, Judge)
  {
    var x := s.runners[r];
    var permit := x.pc.permit;
    if permit.Failed? || permit.Rejected? || ModeDenies(s, x.tools[x.call]) then To(s, r, Finishing)
    else Logged(To(s, r, Allowed(permit, |s.journal|)), ModeAllowed(r, x.call))
  }

  function ApplyExecute(s: State, r: nat): State
    requires r < |s.runners| && StepEnabled(s, r, Execute)
  {
    var x := s.runners[r];
    var permit := x.pc.permit;
    Logged(To(s, r, if permit.AskUser? then Answering(permit.id) else Finishing),
           Executed(r, x.call, x.tools[x.call], x.prep, permit, x.pc.checkedAt))
  }

  function ApplyFinish(s: State, r: nat, generationMoved: bool): State
    requires r < |s.runners|
  {
    var x := s.runners[r];
    if generationMoved || x.stop then To(s, r, Done)
    else s.(runners := s.runners[r := x.(call := x.call + 1, pc := AtLoop)])
  }

  function ApplyStep(s: State, r: nat, a: RunnerAction): State
    requires r < |s.runners| && StepEnabled(s, r, a)
  {
    var x := s.runners[r];
    match a
    case Prepare(prep) => ApplyPrepare(s, r, prep)
    case LockGate => To(s.(gate := Some(r)), r, GotGate)
    case CheckStop => if x.stop then To(s.(gate := None), r, Done) else To(s, r, Minting)
    case FetchId => To(s.(nextId := s.nextId + 1), r, Fetched(s.nextId))
    case InsertRequest => ApplyInsert(s, r)
    case SkipWait => To(s, r, Leaving(AskUser(x.pc.id)))
    case ReturnFromWait => ApplyReturn(s, r)
    case ReleaseGate => To(s.(gate := None), r, Judged(x.pc.permit))
    case Judge => ApplyJudge(s, r)
    case Execute => ApplyExecute(s, r)
    case ReturnAnswer => To(s.(pending := s.pending - {x.pc.id}), r, Finishing)
    case Finish(generationMoved) => ApplyFinish(s, r, generationMoved)
  }

  predicate Enabled(s: State, a: Action) {
    a.ByRunner? ==> a.runner < |s.runners| && StepEnabled(s, a.runner, a.step)
  }

  function Apply(s: State, a: Action): State
    requires Enabled(s, a)
  {
    match a
    case ByOthers(other) => ApplyOther(s, other)
    case ByRunner(r, step) => ApplyStep(s, r, step)
  }

  /** The trace can be taken from `s`, one enabled step after the other. */
  predicate Possible(s: State, trace: seq<Action>)
    decreases |trace|
  {
    trace == [] || (Enabled(s, trace[0]) && Possible(Apply(s, trace[0]), trace[1..]))
  }

  function After(s: State, trace: seq<Action>): State
    requires Possible(s, trace)
    decreases |trace|
  {
    if trace == [] then s else After(Apply(s, trace[0]), trace[1..])
  }
}
