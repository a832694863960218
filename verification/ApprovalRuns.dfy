/** What the user's and the runners' steps come to over whole runs of the approval protocol. */
module ApprovalRuns {
  import opened Numerals
  import opened ToolApproval
  import opened ApprovalMachine
  import opened ApprovalInvariants
  import opened ApprovalSteps
  import opened ApprovalTheorems
  import opened ApprovalStops
  import opened ApprovalModes
  import opened ApprovalAnswers

  // ---------- the mode ----------

  function LastMode(trace: seq<Action>, mode: Mode): Mode
    decreases |trace|
  {
    if trace == [] then mode
    else
      LastMode(trace[1..], match trace[0]
                           case ByOthers(SetMode(m)) => m
                           case _ => mode)
  }

  lemma RunnersLeaveTheMode(s: State, r: nat, a: RunnerAction)
    requires r < |s.runners| && StepEnabled(s, r, a)
    ensures ApplyStep(s, r, a).mode == s.mode
  {
    hide IdOf, ModeDenies, ResolutionOf, WaitOver;
  }

  /** The mode is the one last set. */
  lemma {:induction false} TheModeIsTheLastSet(s: State, trace: seq<Action>)
    requires Possible(s, trace)
    ensures After(s, trace).mode == LastMode(trace, s.mode)
    decreases |trace|
  {
    if trace == [] {
    } else {
      if trace[0].ByRunner? {
        RunnersLeaveTheMode(s, trace[0].runner, trace[0].step);
      }
      hide ApplyStep;
      TheModeIsTheLastSet(Apply(s, trace[0]), trace[1..]);
    }
  }

  // ---------- one call after the other ----------

  /** Whether the step is the end of a call of runner `r`. */
  function OneFinish(a: Action, r: nat): nat {
    if a.ByRunner? && a.runner == r && a.step.Finish? then 1 else 0
  }

  /** A runner is done with as many calls as it finished; if it is through, the last of
      them is the one it stopped at. */
  predicate CountsCalls(x: Runner, finished: nat) {
    finished == x.call || (x.pc.Done? && finished == x.call + 1)
  }

  lemma OwnCallsAreCounted(s: State, r: nat, a: RunnerAction, finished: nat)
    requires r < |s.runners| && StepEnabled(s, r, a) && CountsCalls(s.runners[r], finished)
    ensures CountsCalls(ApplyStep(s, r, a).runners[r], finished + OneFinish(ByRunner(r, a), r))
  {
    hide IdOf, ModeDenies, ResolutionOf, WaitOver;
  }

  lemma CallsAreCounted(s: State, a: Action, r: nat, finished: nat)
    requires Enabled(s, a) && (r < |s.runners| ==> CountsCalls(s.runners[r], finished)) && (r >= |s.runners| ==> finished == 0)
    requires r < |Apply(s, a).runners|
    ensures CountsCalls(Apply(s, a).runners[r], finished + OneFinish(a, r))
  {
    match a
    case ByOthers(_) => hide Resolve, CancelAll;
    case ByRunner(q, step) =>
      OwnToolsStay(s, q, step, q);
      if q == r {
        OwnCallsAreCounted(s, r, step, finished);
      } else {
        RunnersDoNotMeet(s, step, q, r);
      }
      hide ApplyStep;
  }

  lemma RunnersStay(s: State, a: Action)
    requires Enabled(s, a)
    ensures |s.runners| <= |Apply(s, a).runners|
    ensures a.ByRunner? ==> |s.runners| == |Apply(s, a).runners|
  {
    match a
    case ByOthers(_) => hide Resolve, CancelAll;
    case ByRunner(q, step) =>
      OwnToolsStay(s, q, step, q);
      hide ApplyStep;
  }

  /** How often runner `r` finished a call. */
  function Finishes(trace: seq<Action>, r: nat): nat
    decreases |trace|
  {
    if trace == [] then 0 else OneFinish(trace[0], r) + Finishes(trace[1..], r)
  }

  lemma {:induction false} CallsAlwaysCounted(s: State, trace: seq<Action>, r: nat, finished: nat)
    requires Possible(s, trace)
    requires (r < |s.runners| ==> CountsCalls(s.runners[r], finished)) && (r >= |s.runners| ==> finished == 0)
    ensures r < |After(s, trace).runners| ==> CountsCalls(After(s, trace).runners[r], finished + Finishes(trace, r))
    decreases |trace|
  {
    hide Apply, CountsCalls;
    if trace == [] {
    } else {
      var s' := Apply(s, trace[0]);
      RunnersStay(s, trace[0]);
      if r < |s'.runners| {
        CallsAreCounted(s, trace[0], r, finished);
      }
      NoFinishBefore(s, trace[0], r);
      hide Enabled;
      CallsAlwaysCounted(s', trace[1..], r, finished + OneFinish(trace[0], r));
    }
  }

  lemma NoFinishBefore(s: State, a: Action, r: nat)
    requires Enabled(s, a)
    ensures r >= |s.runners| ==> OneFinish(a, r) == 0
  {}

  /** Calls are taken one after the other, none twice and none left out: the call a runner
      is at has as many before it as the runner has finished, unless it is through, when
      the one it finished last counts as well or it gave up before. */
  lemma CallsAreTakenInOrder(planTools: set<string>, trace: seq<Action>, r: nat)
    requires Possible(Init(planTools), trace) && r < |After(Init(planTools), trace).runners|
    ensures var x := After(Init(planTools), trace).runners[r];
            Finishes(trace, r) == x.call || (x.pc.Done? && Finishes(trace, r) == x.call + 1)
  {
    CallsAlwaysCounted(Init(planTools), trace, r, 0);
    hide Possible, After;
  }

  // ---------- cancellations ----------

  /** The runner is waiting for the user's word on a call. */
  predicate Waiting(x: Runner) {
    x.pc.Asked? && x.call < |x.tools| && x.tools[x.call].name != ASK_USER
  }

  lemma CancelledWaitIsOver(s: State, r: nat)
    requires Inv(s) && VerdictsOk(s) && r < |s.runners| && Waiting(s.runners[r])
    ensures var id := s.runners[r].pc.id;
            && WaitOver(CancelAll(s.pending), id, s.runners[r].stop)
            && (ResolutionOf(CancelAll(s.pending), id, s.runners[r].stop).approved <==>
                  Verdict(s.journal, id) == Some(true) && Stopped(r) !in s.journal)
  {
    hide GateOk, LedgerOk, StopsKnown, PendingOk, ExecutionsOk, OnceOk, Verdict, Grant;
    assert PcOk(s, r, s.runners[r]);
    assert SaysTheVerdict(s, s.runners[r].pc.id);
  }

  /** A cancellation ends every wait there is: each runner that is waiting can return, and
      comes back approved exactly if the user had said yes before and it was not stopped. */
  lemma CancellationsEndEveryWait(planTools: set<string>, trace: seq<Action>, r: nat)
    requires Possible(Init(planTools), trace) && r < |After(Init(planTools), trace).runners|
    requires Waiting(After(Init(planTools), trace).runners[r])
    ensures var s := After(Init(planTools), trace);
            var s1, id := ApplyOther(s, CancelPending), s.runners[r].pc.id;
            && StepEnabled(s1, r, ReturnFromWait)
            && var pc := ApplyStep(s1, r, ReturnFromWait).runners[r].pc;
               && pc.Leaving?
               && (pc.permit.Granted? <==> Verdict(s.journal, id) == Some(true) && Stopped(r) !in s.journal)
               && (!pc.permit.Granted? ==> pc.permit.Rejected?)
  {
    ReachableIsOk(planTools, trace);
    InitOk(planTools);
    VerdictsAlways(Init(planTools), trace);
    var s := After(Init(planTools), trace);
    hide Possible, After, Inv, VerdictsOk, Verdict, CancelAll, ResolutionOf, WaitOver;
    CancelledWaitIsOver(s, r);
  }

  // ---------- stops ----------

  ghost predicate AsksTheUser(s: State, trace: seq<Action>, r: nat)
    requires Possible(s, trace)
  {
    var journal := After(s, trace).journal;
    exists p :: |s.journal| <= p < |journal| && journal[p].Requested? && journal[p].runner == r
  }

  ghost predicate CanStillAsk(s: State, r: nat) {
    exists trace :: Possible(s, trace) && AsksTheUser(s, trace, r)
  }

  /** The runner is behind the last test of the stop in front of a request. */
  predicate AboutToAsk(pc: Pc) {
    pc.Minting? || pc.Fetched?
  }

  predicate StoppedAt(s: State, r: nat, c: nat) {
    r < |s.runners| && s.runners[r].stop && s.runners[r].call == c && !AboutToAsk(s.runners[r].pc)
  }

  predicate NothingAsked(s: State, s': State, r: nat) {
    && s.journal <= s'.journal
    && forall p :: |s.journal| <= p < |s'.journal| && s'.journal[p].Requested? ==> s'.journal[p].runner != r
  }

  lemma OwnStepAsksNothing(s: State, r: nat, a: RunnerAction, c: nat)
    requires StoppedAt(s, r, c) && StepEnabled(s, r, a)
    ensures StoppedAt(ApplyStep(s, r, a), r, c) && NothingAsked(s, ApplyStep(s, r, a), r)
  {
    hide IdOf, ModeDenies, ResolutionOf, WaitOver;
  }

  lemma OthersAskForThemselves(s: State, q: nat, a: RunnerAction, r: nat)
    requires q < |s.runners| && q != r && StepEnabled(s, q, a)
    ensures NothingAsked(s, ApplyStep(s, q, a), r)
  {
    hide IdOf, ModeDenies, ResolutionOf, WaitOver;
  }

  lemma OutsideAsksNothing(s: State, a: OtherAction, r: nat, c: nat)
    requires StoppedAt(s, r, c)
    ensures StoppedAt(ApplyOther(s, a), r, c) && NothingAsked(s, ApplyOther(s, a), r)
  {
    hide Resolve, CancelAll;
  }

  lemma StoppedAsksNothing(s: State, a: Action, r: nat, c: nat)
    requires StoppedAt(s, r, c) && Enabled(s, a)
    ensures StoppedAt(Apply(s, a), r, c) && NothingAsked(s, Apply(s, a), r)
  {
    hide ApplyOther, ApplyStep, StepEnabled, AboutToAsk;
    match a
    case ByOthers(other) => OutsideAsksNothing(s, other, r, c);
    case ByRunner(q, step) =>
      if q == r {
        OwnStepAsksNothing(s, r, step, c);
      } else {
        OthersAskForThemselves(s, q, step, r);
        RunnersDoNotMeet(s, step, q, r);
      }
  }

  lemma {:induction false} StoppedNeverAsks(s: State, trace: seq<Action>, r: nat, c: nat)
    requires StoppedAt(s, r, c) && Possible(s, trace)
    ensures StoppedAt(After(s, trace), r, c) && NothingAsked(s, After(s, trace), r)
    decreases |trace|
  {
    hide Enabled, Apply, StoppedAt;
    if trace == [] {
    } else {
      StoppedAsksNothing(s, trace[0], r, c);
      StoppedNeverAsks(Apply(s, trace[0]), trace[1..], r, c);
    }
  }

  lemma TheRequestComes(s: State, r: nat) returns (trace: seq<Action>)
    requires r < |s.runners| && AboutToAsk(s.runners[r].pc) && s.runners[r].call < |s.runners[r].tools|
    ensures Possible(s, trace) && AsksTheUser(s, trace, r)
  {
    hide Leads, IdOf;
    NoSteps(s);
    var now: State;
    trace, now := [], s;
    if s.runners[r].pc.Minting? {
      trace, now := OneMore(s, trace, now, ByRunner(r, FetchId));
    }
    var p := |now.journal|;
    trace, now := OneMore(s, trace, now, ByRunner(r, InsertRequest));
    assert now.journal[p].Requested? && now.journal[p].runner == r;
    ItAsked(s, trace, now, r, p);
  }

  lemma ItAsked(s: State, trace: seq<Action>, now: State, r: nat, p: nat)
    requires Leads(s, trace, now) && |s.journal| <= p < |now.journal|
    requires now.journal[p].Requested? && now.journal[p].runner == r
    ensures Possible(s, trace) && AsksTheUser(s, trace, r)
  {}

  /** A stopped runner asks the user for nothing more, exactly unless it had passed the test
      of the stop behind the gate; and it takes no further call. */
  lemma StopsAskNobodyExactly(planTools: set<string>, before: seq<Action>, r: nat, later: seq<Action>)
    requires Possible(Init(planTools), before) && r < |After(Init(planTools), before).runners|
    requires Possible(ApplyOther(After(Init(planTools), before), RequestStop(r)), later)
    ensures var s := After(Init(planTools), before);
            var s1 := ApplyOther(s, RequestStop(r));
            && (CanStillAsk(s1, r) <==> AboutToAsk(s.runners[r].pc))
            && r < |After(s1, later).runners| && After(s1, later).runners[r].call == s.runners[r].call
  {
    ReachableIsOk(planTools, before);
    var s := After(Init(planTools), before);
    hide Possible, After, GateOk, LedgerOk, StopsOk, StopsKnown, PendingOk, ExecutionsOk, OnceOk, AsksTheUser;
    var s1 := ApplyOther(s, RequestStop(r));
    assert PcOk(s, r, s.runners[r]);
    hide PcOk, RunnersOk;
    StoppedCalls(s1, later, r);
    if AboutToAsk(s.runners[r].pc) {
      var trace := TheRequestComes(s1, r);
    } else {
      NeverAsks(s1, r, s.runners[r].call);
    }
  }

  lemma NeverAsks(s: State, r: nat, c: nat)
    requires StoppedAt(s, r, c)
    ensures !CanStillAsk(s, r)
  {
    forall trace | Possible(s, trace)
      ensures !AsksTheUser(s, trace, r)
    {
      StoppedNeverAsks(s, trace, r, c);
      hide Possible, After;
    }
  }

  lemma StoppedKeepsCall(s: State, a: Action, r: nat)
    requires r < |s.runners| && s.runners[r].stop && Enabled(s, a)
    ensures r < |Apply(s, a).runners|
    ensures Apply(s, a).runners[r].stop && Apply(s, a).runners[r].call == s.runners[r].call
  {
    match a
    case ByOthers(_) => hide Resolve, CancelAll;
    case ByRunner(q, step) =>
      if q == r {
        OwnStepKeepsCall(s, r, step);
      } else {
        RunnersDoNotMeet(s, step, q, r);
      }
      hide ApplyStep;
  }

  lemma OwnStepKeepsCall(s: State, r: nat, a: RunnerAction)
    requires r < |s.runners| && s.runners[r].stop && StepEnabled(s, r, a)
    ensures r < |ApplyStep(s, r, a).runners|
    ensures ApplyStep(s, r, a).runners[r].stop && ApplyStep(s, r, a).runners[r].call == s.runners[r].call
  {
    hide IdOf, ModeDenies, ResolutionOf, WaitOver;
  }

  lemma {:induction false} StoppedCalls(s: State, trace: seq<Action>, r: nat)
    requires r < |s.runners| && s.runners[r].stop && Possible(s, trace)
    ensures r < |After(s, trace).runners| && After(s, trace).runners[r].call == s.runners[r].call
    decreases |trace|
  {
    hide Enabled, Apply;
    if trace == [] {
    } else {
      StoppedKeepsCall(s, trace[0], r);
      StoppedCalls(Apply(s, trace[0]), trace[1..], r);
    }
  }
}
