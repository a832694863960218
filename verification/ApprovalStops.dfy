/** Which calls a stop still catches: those whose wait has not come back approved. */
module ApprovalStops {
  import opened Numerals
  import opened ToolApproval
  import opened ApprovalMachine
  import opened ApprovalInvariants
  import opened ApprovalSteps
  import opened ApprovalTheorems

  /** The runner's call has been prepared, needs approval, and is no question to the user. */
  predicate NeedsApproval(x: Runner) {
    && x.call < |x.tools| && !x.pc.AtLoop?
    && x.prep.requiresApproval && x.tools[x.call].name != ASK_USER
  }

  /** The wait of the call has returned approved, and the call has not been executed. */
  predicate ReturnedApproved(pc: Pc) {
    (pc.Leaving? || pc.Judged? || pc.Allowed?) && pc.permit.Granted?
  }

  /** From `s`, call `c` of runner `r` is executed by these steps. */
  ghost predicate ExecutedBy(s: State, trace: seq<Action>, r: nat, c: nat)
    requires Possible(s, trace)
  {
    var s' := After(s, trace);
    exists p :: |s.journal| <= p < |s'.journal| && s'.journal[p].Executed? && s'.journal[p].runner == r && s'.journal[p].call == c
  }

  ghost predicate CanStillExecute(s: State, r: nat, c: nat) {
    exists trace :: Possible(s, trace) && ExecutedBy(s, trace, r, c)
  }

  // ---------- calls a stop catches ----------

  /** Places from which a stopped runner never gets to execute a call that needs approval. */
  predicate Caught(pc: Pc) {
    || pc.AtGate? || pc.GotGate? || pc.Minting? || pc.Fetched? || pc.Asked? || PastExecution(pc)
    || ((pc.Leaving? || pc.Judged?) && (pc.permit.Rejected? || pc.permit.Failed?))
  }

  predicate StoppedFor(s: State, r: nat, c: nat) {
    && r < |s.runners| && s.runners[r].stop && s.runners[r].call == c
    && c < |s.runners[r].tools| && s.runners[r].tools[c].name != ASK_USER && Caught(s.runners[r].pc)
  }

  predicate NotExecutedNow(s: State, s': State, r: nat, c: nat) {
    && s.journal <= s'.journal
    && forall p :: |s.journal| <= p < |s'.journal| && s'.journal[p].Executed? ==>
         s'.journal[p].runner != r || s'.journal[p].call != c
  }

  lemma OwnStepKeepsStopped(s: State, a: RunnerAction, r: nat, c: nat)
    requires StoppedFor(s, r, c) && StepEnabled(s, r, a)
    ensures StoppedFor(ApplyStep(s, r, a), r, c) && NotExecutedNow(s, ApplyStep(s, r, a), r, c)
  {
    hide IdOf, ModeDenies;
  }

  lemma OutsideKeepsStopped(s: State, a: OtherAction, r: nat, c: nat)
    requires StoppedFor(s, r, c)
    ensures StoppedFor(ApplyOther(s, a), r, c) && NotExecutedNow(s, ApplyOther(s, a), r, c)
  {
    hide Resolve, CancelAll;
  }

  /** A step of one runner leaves the others where they are, and executes nothing of theirs. */
  lemma RunnersDoNotMeet(s: State, a: RunnerAction, q: nat, r: nat)
    requires q < |s.runners| && r < |s.runners| && q != r && StepEnabled(s, q, a)
    ensures var s' := ApplyStep(s, q, a);
            && |s'.runners| == |s.runners| && s'.runners[r] == s.runners[r] && s.journal <= s'.journal
            && forall p :: |s.journal| <= p < |s'.journal| && s'.journal[p].Executed? ==> s'.journal[p].runner == q
  {
    hide IdOf, ModeDenies, ResolutionOf, WaitOver;
  }

  lemma OthersKeepStopped(s: State, a: Action, r: nat, c: nat)
    requires StoppedFor(s, r, c) && Enabled(s, a) && (a.ByRunner? ==> a.runner != r)
    ensures StoppedFor(Apply(s, a), r, c) && NotExecutedNow(s, Apply(s, a), r, c)
  {
    hide ApplyOther, ApplyStep, StepEnabled, Caught;
    match a
    case ByOthers(other) => OutsideKeepsStopped(s, other, r, c);
    case ByRunner(q, step) => RunnersDoNotMeet(s, step, q, r);
  }

  lemma {:induction false} StoppedStays(s: State, trace: seq<Action>, r: nat, c: nat)
    requires StoppedFor(s, r, c) && Possible(s, trace)
    ensures NotExecutedNow(s, After(s, trace), r, c)
    decreases |trace|
  {
    hide Enabled, Apply, StoppedFor;
    if trace == [] {
    } else {
      var a := trace[0];
      if a.ByRunner? && a.runner == r {
        OwnStepIsStep(s, a);
        OwnStepKeepsStopped(s, a.step, r, c);
      } else {
        OthersKeepStopped(s, a, r, c);
      }
      StoppedStays(Apply(s, a), trace[1..], r, c);
    }
  }

  lemma OwnStepIsStep(s: State, a: Action)
    requires Enabled(s, a) && a.ByRunner?
    ensures a.runner < |s.runners| && StepEnabled(s, a.runner, a.step) && Apply(s, a) == ApplyStep(s, a.runner, a.step)
  {}

  /** A prepared call that needs approval is either granted or caught. */
  lemma GrantedOrCaught(s: State, r: nat)
    requires RunnersOk(s) && r < |s.runners| && NeedsApproval(s.runners[r])
    ensures ReturnedApproved(s.runners[r].pc) || Caught(s.runners[r].pc)
  {
    hide Grant, Verdict;
    assert PcOk(s, r, s.runners[r]);
  }

  // ---------- calls a stop does not catch ----------

  lemma OneStep(s: State, a: Action)
    requires Enabled(s, a)
    ensures Possible(s, [a]) && After(s, [a]) == Apply(s, a)
  {
    hide Enabled, Apply;
    assert [a][1..] == [];
  }

  lemma {:induction false} TraceConcat(s: State, t: seq<Action>, u: seq<Action>)
    requires Possible(s, t) && Possible(After(s, t), u)
    ensures Possible(s, t + u) && After(s, t + u) == After(After(s, t), u)
    decreases |t|
  {
    hide Enabled, Apply;
    if t == [] {
      assert t + u == u;
    } else {
      assert (t + u)[1..] == t[1..] + u;
      TraceConcat(Apply(s, t[0]), t[1..], u);
    }
  }

  /** A trace from `start` that leads to `s`. */
  ghost predicate Leads(start: State, trace: seq<Action>, s: State) {
    Possible(start, trace) && After(start, trace) == s
  }

  lemma NoSteps(s: State)
    ensures Leads(s, [], s)
  {}

  lemma OneMore(start: State, trace: seq<Action>, s: State, a: Action) returns (trace': seq<Action>, s': State)
    requires Leads(start, trace, s) && Enabled(s, a)
    ensures s' == Apply(s, a) && Leads(start, trace', s')
  {
    hide Enabled, Apply;
    trace', s' := trace + [a], Apply(s, a);
    OneStep(s, a);
    TraceConcat(start, trace, [a]);
  }

  /** The steps left to a granted call once the mode is Build: none looks at the stop. */
  lemma GrantedGoesOn(s: State, r: nat) returns (trace: seq<Action>)
    requires r < |s.runners| && ReturnedApproved(s.runners[r].pc) && s.runners[r].call < |s.runners[r].tools|
    ensures Possible(s, trace) && ExecutedBy(s, trace, r, s.runners[r].call)
  {
    hide Leads;
    NoSteps(s);
    var now: State;
    trace, now := OneMore(s, [], s, ByOthers(SetMode(Build)));
    if now.runners[r].pc.Leaving? {
      trace, now := OneMore(s, trace, now, ByRunner(r, ReleaseGate));
    }
    if now.runners[r].pc.Judged? {
      trace, now := OneMore(s, trace, now, ByRunner(r, Judge));
    }
    GrantedExecutes(s, trace, now, r);
    trace := trace + [ByRunner(r, Execute)];
  }

  lemma GrantedExecutes(s: State, trace: seq<Action>, now: State, r: nat)
    requires Leads(s, trace, now) && s.journal <= now.journal
    requires r < |now.runners| && now.runners[r].pc.Allowed? && now.runners[r].call < |now.runners[r].tools|
    ensures Possible(s, trace + [ByRunner(r, Execute)])
    ensures ExecutedBy(s, trace + [ByRunner(r, Execute)], r, now.runners[r].call)
  {
    var a := ByRunner(r, Execute);
    OneStep(now, a);
    TraceConcat(s, trace, [a]);
    hide Possible, After;
    assert Apply(now, a).journal[|now.journal|].Executed?;
  }

  /** Of all prepared calls that need approval, a stop leaves the chance to run to exactly
      those whose wait has already returned approved: the wait is the last place that
      looks at the stop token. */
  lemma StopsCatchAllButTheApproved(planTools: set<string>, trace: seq<Action>, r: nat)
    requires Possible(Init(planTools), trace)
    requires r < |After(Init(planTools), trace).runners| && NeedsApproval(After(Init(planTools), trace).runners[r])
    ensures var s := After(Init(planTools), trace);
            var x := s.runners[r];
            CanStillExecute(ApplyOther(s, RequestStop(r)), r, x.call) <==> ReturnedApproved(x.pc)
  {
    ReachableIsOk(planTools, trace);
    var s := After(Init(planTools), trace);
    hide Possible, After, GateOk, LedgerOk, StopsOk, StopsKnown, PendingOk, ExecutionsOk, OnceOk, RunnersOk, ExecutedBy;
    GrantedOrCaught(s, r);
    var s', x := ApplyOther(s, RequestStop(r)), s.runners[r];
    if ReturnedApproved(x.pc) {
      var go := GrantedGoesOn(s', r);
    } else {
      NeverExecuted(s', r, x.call);
    }
  }

  lemma NeverExecuted(s: State, r: nat, c: nat)
    requires StoppedFor(s, r, c)
    ensures !CanStillExecute(s, r, c)
  {
    forall trace | Possible(s, trace)
      ensures !ExecutedBy(s, trace, r, c)
    {
      StoppedStays(s, trace, r, c);
      hide Possible, After;
    }
  }

  // ---------- it does happen ----------

  lemma ToTheRequest(planTools: set<string>, tool: Tool) returns (trace: seq<Action>, s: State)
    ensures var entry := PendingApproval(tool.callId, tool.name, tool.args, None, None);
            && Leads(Init(planTools), trace, s)
            && s.runners == [Runner([tool], 0, Prep(false, true), Asked(IdOf(1), 0), false)]
            && s.gate == Some(0) && s.mode == Build && s.pending == map[IdOf(1) := entry]
            && s.journal == [Requested(0, 0, IdOf(1))]
  {
    hide Leads, IdOf;
    NoSteps(Init(planTools));
    trace, s := [], Init(planTools);
    trace, s := OneMore(Init(planTools), trace, s, ByOthers(Spawn([tool])));
    trace, s := OneMore(Init(planTools), trace, s, ByRunner(0, Prepare(Prep(false, true))));
    trace, s := OneMore(Init(planTools), trace, s, ByRunner(0, LockGate));
    trace, s := OneMore(Init(planTools), trace, s, ByRunner(0, CheckStop));
    trace, s := OneMore(Init(planTools), trace, s, ByRunner(0, FetchId));
    trace, s := OneMore(Init(planTools), trace, s, ByRunner(0, InsertRequest));
  }

  lemma ToTheApproval(planTools: set<string>, tool: Tool) returns (trace: seq<Action>, s: State)
    requires tool.name != ASK_USER
    ensures Leads(Init(planTools), trace, s)
    ensures s.runners == [Runner([tool], 0, Prep(false, true), Judged(Granted(IdOf(1), 0, 2)), false)] && s.mode == Build
    ensures s.journal == [Requested(0, 0, IdOf(1)), Resolved(IdOf(1), true), Returned(0, 0, IdOf(1), true)]
  {
    hide Leads, IdOf;
    trace, s := ToTheRequest(planTools, tool);
    trace, s := OneMore(Init(planTools), trace, s, ByOthers(ResolveTool(IdOf(1), true)));
    trace, s := OneMore(Init(planTools), trace, s, ByRunner(0, ReturnFromWait));
    trace, s := OneMore(Init(planTools), trace, s, ByRunner(0, ReleaseGate));
  }

  /** From the start: a call is asked for, approved and comes back; then its runner is
      stopped, and the call is executed. */
  lemma ApprovedCallsOutliveALateStop(planTools: set<string>, tool: Tool) returns (trace: seq<Action>)
    requires tool.name != ASK_USER
    ensures Possible(Init(planTools), trace)
    ensures After(Init(planTools), trace).journal
         == [Requested(0, 0, IdOf(1)), Resolved(IdOf(1), true), Returned(0, 0, IdOf(1), true), Stopped(0), ModeAllowed(0, 0),
             Executed(0, 0, tool, Prep(false, true), Granted(IdOf(1), 0, 2), 4)]
  {
    hide Possible, After, IdOf;
    var s: State;
    trace, s := ToTheApproval(planTools, tool);
    trace, s := OneMore(Init(planTools), trace, s, ByOthers(RequestStop(0)));
    trace, s := OneMore(Init(planTools), trace, s, ByRunner(0, Judge));
    trace, s := OneMore(Init(planTools), trace, s, ByRunner(0, Execute));
  }
}
