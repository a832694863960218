/** What the check of the mode lets through. */
module ApprovalModes {
  import opened Numerals
  import opened ToolApproval
  import opened ApprovalMachine
  import opened ApprovalInvariants
  import opened ApprovalSteps
  import opened ApprovalTheorems
  import opened ApprovalStops

  // ---------- executed calls passed the check ----------

  /** At the step of `trace` that wrote position `m` of the journal, runner `r` was at call
      `c`, which is `tool`, and the mode was Build or `tool` one of the plan tools. */
  ghost predicate CheckedAt(start: State, trace: seq<Action>, planTools: set<string>, r: nat, c: nat, tool: Tool, m: nat) {
    exists n: nat, s ::
      && n < |trace| && Leads(start, trace[..n], s) && trace[n] == ByRunner(r, Judge) && |s.journal| == m
      && r < |s.runners| && s.runners[r].call == c < |s.runners[r].tools| && s.runners[r].tools[c] == tool
      && (s.mode.Build? || tool.name in planTools)
  }

  /** The last step wrote the passing of a check, and the check was passed rightly. */
  predicate PassedNow(s: State, s': State, a: Action)
    requires |s'.journal| == |s.journal| + 1
  {
    var e := s'.journal[|s.journal|];
    e.ModeAllowed? ==>
      && a == ByRunner(e.runner, Judge) && e.runner < |s.runners|
      && var x := s.runners[e.runner];
         x.call == e.call && x.call < |x.tools| && (s.mode.Build? || x.tools[x.call].name in s.planTools)
  }

  predicate JournalStep(s: State, s': State, a: Action) {
    && s'.planTools == s.planTools
    && (s'.journal == s.journal
        || (|s'.journal| == |s.journal| + 1 && s.journal <= s'.journal && PassedNow(s, s', a)))
  }

  lemma RunnerWrites(s: State, r: nat, a: RunnerAction)
    requires r < |s.runners| && StepEnabled(s, r, a)
    ensures JournalStep(s, ApplyStep(s, r, a), ByRunner(r, a))
  {
    hide IdOf, ResolutionOf, WaitOver;
  }

  lemma StepWrites(s: State, a: Action)
    requires Enabled(s, a)
    ensures JournalStep(s, Apply(s, a), a)
  {
    match a
    case ByOthers(other) => hide Resolve, CancelAll;
    case ByRunner(r, step) =>
      RunnerWrites(s, r, step);
      hide ApplyStep, JournalStep;
  }

  /** The tools of a runner are those it was started with. */
  lemma ToolsStay(s: State, a: Action, r: nat)
    requires Enabled(s, a) && r < |s.runners|
    ensures r < |Apply(s, a).runners| && Apply(s, a).runners[r].tools == s.runners[r].tools
  {
    match a
    case ByOthers(other) => hide Resolve, CancelAll;
    case ByRunner(q, step) =>
      OwnToolsStay(s, q, step, r);
      hide ApplyStep;
  }

  lemma OwnToolsStay(s: State, q: nat, a: RunnerAction, r: nat)
    requires q < |s.runners| && StepEnabled(s, q, a) && r < |s.runners|
    ensures |ApplyStep(s, q, a).runners| == |s.runners| && ApplyStep(s, q, a).runners[r].tools == s.runners[r].tools
  {
    hide IdOf, ResolutionOf, WaitOver, ModeDenies;
  }

  lemma CheckedLater(s: State, trace: seq<Action>, planTools: set<string>, r: nat, c: nat, tool: Tool, m: nat)
    requires trace != [] && Enabled(s, trace[0])
    requires CheckedAt(Apply(s, trace[0]), trace[1..], planTools, r, c, tool, m)
    ensures CheckedAt(s, trace, planTools, r, c, tool, m)
  {
    hide Apply, Enabled;
    var n: nat, s' :|
      && n < |trace[1..]| && Leads(Apply(s, trace[0]), trace[1..][..n], s') && trace[1..][n] == ByRunner(r, Judge)
      && |s'.journal| == m
      && r < |s'.runners| && s'.runners[r].call == c < |s'.runners[r].tools| && s'.runners[r].tools[c] == tool
      && (s'.mode.Build? || tool.name in planTools);
    var t := trace[..n + 1];
    assert t[0] == trace[0] && t[1..] == trace[1..][..n];
    assert Leads(s, trace[..n + 1], s');
  }

  lemma CheckedNow(s: State, trace: seq<Action>, r: nat, c: nat, tool: Tool)
    requires trace != [] && trace[0] == ByRunner(r, Judge)
    requires r < |s.runners| && s.runners[r].call == c < |s.runners[r].tools| && s.runners[r].tools[c] == tool
    requires s.mode.Build? || tool.name in s.planTools
    ensures CheckedAt(s, trace, s.planTools, r, c, tool, |s.journal|)
  {
    assert trace[..0] == [];
    NoSteps(s);
    assert Leads(s, trace[..0], s);
  }

  /** The tool of call `c` of runner `r`, whenever there is such a call. */
  predicate IsCall(s: State, r: nat, c: nat, tool: Tool) {
    r < |s.runners| ==> c < |s.runners[r].tools| ==> s.runners[r].tools[c] == tool
  }

  lemma CallWasThis(s: State, a: Action, r: nat, c: nat, tool: Tool)
    requires Enabled(s, a) && IsCall(Apply(s, a), r, c, tool)
    ensures IsCall(s, r, c, tool)
  {
    if r < |s.runners| {
      ToolsStay(s, a, r);
    }
    hide Apply;
  }

  lemma {:induction false} CallWasAlwaysThis(s: State, trace: seq<Action>, r: nat, c: nat, tool: Tool)
    requires Possible(s, trace) && IsCall(After(s, trace), r, c, tool)
    ensures IsCall(s, r, c, tool)
    decreases |trace|
  {
    hide Enabled, Apply, IsCall;
    if trace == [] {
    } else {
      CallWasAlwaysThis(Apply(s, trace[0]), trace[1..], r, c, tool);
      CallWasThis(s, trace[0], r, c, tool);
    }
  }

  lemma {:induction false} JournalGrows(s: State, trace: seq<Action>)
    requires Possible(s, trace)
    ensures s.journal <= After(s, trace).journal && After(s, trace).planTools == s.planTools
    decreases |trace|
  {
    hide Enabled, Apply;
    if trace == [] {
    } else {
      StepWrites(s, trace[0]);
      JournalGrows(Apply(s, trace[0]), trace[1..]);
    }
  }

  lemma {:induction false} ChecksAlways(s: State, trace: seq<Action>, m: nat, tool: Tool)
    requires Possible(s, trace) && |s.journal| <= m < |After(s, trace).journal|
    requires var e := After(s, trace).journal[m]; e.ModeAllowed? && IsCall(After(s, trace), e.runner, e.call, tool)
    ensures var e := After(s, trace).journal[m]; CheckedAt(s, trace, s.planTools, e.runner, e.call, tool, m)
    decreases |trace|
  {
    hide Enabled, Apply, CheckedAt, IsCall;
    if trace == [] {
      assert false;
    } else {
      var a, s', e := trace[0], Apply(s, trace[0]), After(s, trace).journal[m];
      StepWrites(s, a);
      JournalGrows(s', trace[1..]);
      if m < |s'.journal| {
        assert s'.journal[m] == e;
        CallWasAlwaysThis(s, trace, e.runner, e.call, tool);
        ThisIsTheCall(s, e.runner, e.call, tool);
        CheckedNow(s, trace, e.runner, e.call, tool);
      } else {
        ChecksAlways(s', trace[1..], m, tool);
        CheckedLater(s, trace, s.planTools, e.runner, e.call, tool, m);
      }
    }
  }

  lemma ThisIsTheCall(s: State, r: nat, c: nat, tool: Tool)
    requires IsCall(s, r, c, tool) && r < |s.runners| && c < |s.runners[r].tools|
    ensures s.runners[r].tools[c] == tool
  {}

  // ---------- what is executed is the call ----------

  predicate RightTool(s: State, e: Event) {
    e.Executed? ==> e.runner < |s.runners| && e.call < |s.runners[e.runner].tools| && s.runners[e.runner].tools[e.call] == e.tool
  }

  ghost predicate RightTools(s: State) {
    forall p :: 0 <= p < |s.journal| ==> RightTool(s, s.journal[p])
  }

  lemma NewEventIsRight(s: State, a: Action)
    requires Enabled(s, a) && |Apply(s, a).journal| == |s.journal| + 1
    ensures RightTool(Apply(s, a), Apply(s, a).journal[|s.journal|])
  {
    match a
    case ByOthers(other) => hide Resolve, CancelAll;
    case ByRunner(r, step) =>
      RunnerExecutesItsCall(s, r, step);
      hide ApplyStep;
  }

  lemma RunnerExecutesItsCall(s: State, r: nat, a: RunnerAction)
    requires r < |s.runners| && StepEnabled(s, r, a) && |ApplyStep(s, r, a).journal| == |s.journal| + 1
    ensures RightTool(ApplyStep(s, r, a), ApplyStep(s, r, a).journal[|s.journal|])
  {
    hide IdOf, ResolutionOf, WaitOver, ModeDenies;
  }

  lemma RightToolsKept(s: State, a: Action)
    requires Enabled(s, a) && RightTools(s)
    ensures RightTools(Apply(s, a))
  {
    var s' := Apply(s, a);
    StepWrites(s, a);
    if s'.journal != s.journal {
      NewEventIsRight(s, a);
    }
    forall p | 0 <= p < |s'.journal|
      ensures RightTool(s', s'.journal[p])
    {
      if p < |s.journal| {
        assert RightTool(s, s.journal[p]);
        if s.journal[p].Executed? {
          ToolsStay(s, a, s.journal[p].runner);
        }
      }
      hide Apply, Enabled;
    }
  }

  lemma {:induction false} RightToolsAlways(s: State, trace: seq<Action>)
    requires Possible(s, trace) && RightTools(s)
    ensures RightTools(After(s, trace))
    decreases |trace|
  {
    hide Enabled, Apply, RightTools;
    if trace == [] {
    } else {
      RightToolsKept(s, trace[0]);
      RightToolsAlways(Apply(s, trace[0]), trace[1..]);
    }
  }

  /** Plan mode forbids: a call is executed only after a check, made at a step of its own
      runner and at the position the execution names, at which the mode was Build or the
      tool was one of the plan tools; and what is executed is that call. */
  lemma ExecutionsPassTheMode(planTools: set<string>, trace: seq<Action>, p: nat)
    requires Possible(Init(planTools), trace)
    requires p < |After(Init(planTools), trace).journal| && After(Init(planTools), trace).journal[p].Executed?
    ensures var s := After(Init(planTools), trace);
            var e := s.journal[p];
            && e.checkedAt < p
            && e.runner < |s.runners| && e.call < |s.runners[e.runner].tools| && e.tool == s.runners[e.runner].tools[e.call]
            && CheckedAt(Init(planTools), trace, planTools, e.runner, e.call, e.tool, e.checkedAt)
  {
    ReachableIsOk(planTools, trace);
    RightToolsAlways(Init(planTools), trace);
    var s := After(Init(planTools), trace);
    var e := s.journal[p];
    assert Justified(s, p);
    assert RightTool(s, e);
    assert IsCall(s, e.runner, e.call, e.tool);
    hide Inv, Justified, RightTools, CheckedAt, IsCall, Possible, After;
    ChecksAlways(Init(planTools), trace, e.checkedAt, e.tool);
  }

  // ---------- what the check lets through ----------

  predicate ReturnOf(e: Event, r: nat, c: nat) {
    e.Returned? && e.runner == r && e.call == c
  }

  /** The call did not fail when it was prepared, and its wait, if it had one, came back
      with a yes. */
  ghost predicate Clean(s: State, r: nat)
    requires r < |s.runners|
  {
    && !s.runners[r].prep.failed
    && forall k :: 0 <= k < |s.journal| && ReturnOf(s.journal[k], r, s.runners[r].call) ==> s.journal[k].approved
  }

  predicate BeforeReturn(pc: Pc) {
    pc.AtLoop? || pc.AtGate? || pc.GotGate? || pc.Minting? || pc.Fetched? || pc.Asked?
  }

  /** What a return in the journal says about its runner now. */
  predicate ReturnKnown(s: State, e: Event)
    requires e.Returned?
  {
    && e.runner < |s.runners|
    && var x := s.runners[e.runner];
       && e.call <= x.call
       && (e.call == x.call ==>
             && !BeforeReturn(x.pc)
             && (x.pc.Leaving? || x.pc.Judged? ==>
                   if e.approved then x.pc.permit.Granted? else x.pc.permit.Rejected?))
  }

  /** What the permit of a runner rests on. */
  ghost predicate PermitKnown(s: State, r: nat)
    requires r < |s.runners|
  {
    var x := s.runners[r];
    (x.pc.Leaving? || x.pc.Judged?) ==>
      && (x.pc.permit.Failed? <==> x.prep.failed)
      && (x.pc.permit.Rejected? ==>
            exists k :: 0 <= k < |s.journal| && ReturnOf(s.journal[k], r, x.call) && !s.journal[k].approved)
  }

  /** Behind the preparation, and before the check, the call is not a failed one. */
  predicate Unfailed(x: Runner) {
    (x.pc.AtGate? || x.pc.GotGate? || x.pc.Minting? || x.pc.Fetched? || x.pc.Asked?) ==> !x.prep.failed
  }

  ghost predicate ReturnsOk(s: State) {
    && (forall k :: 0 <= k < |s.journal| && s.journal[k].Returned? ==> ReturnKnown(s, s.journal[k]))
    && (forall r :: 0 <= r < |s.runners| ==> PermitKnown(s, r) && Unfailed(s.runners[r]))
  }

  lemma NoFailureNoRefusal(s: State, r: nat)
    requires ReturnsOk(s) && r < |s.runners| && s.runners[r].pc.Judged?
    ensures Clean(s, r) <==> !s.runners[r].pc.permit.Failed? && !s.runners[r].pc.permit.Rejected?
  {
    assert PermitKnown(s, r);
    var x := s.runners[r];
    if !x.pc.permit.Failed? && !x.pc.permit.Rejected? {
      forall k | 0 <= k < |s.journal| && ReturnOf(s.journal[k], r, x.call)
        ensures s.journal[k].approved
      {
        assert ReturnKnown(s, s.journal[k]);
      }
    }
  }

  lemma OwnReturnsStay(s: State, r: nat, a: RunnerAction, e: Event)
    requires r < |s.runners| && StepEnabled(s, r, a) && e.Returned? && e.runner == r && ReturnKnown(s, e)
    ensures ReturnKnown(ApplyStep(s, r, a), e)
  {
    hide IdOf, ResolutionOf, WaitOver, ModeDenies;
  }

  lemma OthersReturnsStay(s: State, a: Action, e: Event)
    requires Enabled(s, a) && e.Returned? && ReturnKnown(s, e) && (a.ByRunner? ==> a.runner != e.runner)
    ensures ReturnKnown(Apply(s, a), e)
  {
    match a
    case ByOthers(other) => hide Resolve, CancelAll;
    case ByRunner(q, step) =>
      RunnersDoNotMeet(s, step, q, e.runner);
      hide ApplyStep;
  }

  lemma NewReturnIsKnown(s: State, r: nat, a: RunnerAction)
    requires r < |s.runners| && StepEnabled(s, r, a) && |ApplyStep(s, r, a).journal| == |s.journal| + 1
    ensures var s' := ApplyStep(s, r, a);
            s'.journal[|s.journal|].Returned? ==> ReturnKnown(s', s'.journal[|s.journal|])
  {
    hide IdOf, ResolutionOf, WaitOver, ModeDenies;
  }

  lemma OthersReturnNothing(s: State, a: OtherAction)
    ensures var s' := ApplyOther(s, a);
            |s'.journal| == |s.journal| + 1 ==> !s'.journal[|s.journal|].Returned?
  {
    hide Resolve, CancelAll;
  }

  lemma ReturnsStayKnown(s: State, a: Action)
    requires Enabled(s, a) && ReturnsOk(s)
    ensures forall k :: 0 <= k < |Apply(s, a).journal| && Apply(s, a).journal[k].Returned? ==>
              ReturnKnown(Apply(s, a), Apply(s, a).journal[k])
  {
    var s' := Apply(s, a);
    StepWrites(s, a);
    hide PermitKnown, ReturnKnown, Unfailed, Apply, Enabled, PassedNow;
    forall k | 0 <= k < |s'.journal| && s'.journal[k].Returned?
      ensures ReturnKnown(s', s'.journal[k])
    {
      if k < |s.journal| {
        assert s'.journal[k] == s.journal[k];
        OneReturnStays(s, a, s.journal[k]);
      } else {
        OneReturnIsNew(s, a);
      }
    }
  }

  lemma OneReturnStays(s: State, a: Action, e: Event)
    requires Enabled(s, a) && e.Returned? && ReturnKnown(s, e)
    ensures ReturnKnown(Apply(s, a), e)
  {
    if a.ByRunner? && a.runner == e.runner {
      OwnReturnsStay(s, a.runner, a.step, e);
    } else {
      OthersReturnsStay(s, a, e);
    }
    hide ApplyStep, ApplyOther, ReturnKnown;
  }

  lemma OneReturnIsNew(s: State, a: Action)
    requires Enabled(s, a) && |Apply(s, a).journal| == |s.journal| + 1
    ensures var s' := Apply(s, a); s'.journal[|s.journal|].Returned? ==> ReturnKnown(s', s'.journal[|s.journal|])
  {
    match a
    case ByOthers(other) => OthersReturnNothing(s, other); hide ApplyOther, ReturnKnown;
    case ByRunner(r, step) => NewReturnIsKnown(s, r, step); hide ApplyStep, ReturnKnown;
  }

  lemma OwnPermitIsKnown(s: State, r: nat, a: RunnerAction)
    requires r < |s.runners| && StepEnabled(s, r, a) && PermitKnown(s, r) && Unfailed(s.runners[r])
    ensures PermitKnown(ApplyStep(s, r, a), r) && Unfailed(ApplyStep(s, r, a).runners[r])
  {
    RunnerWrites(s, r, a);
    if a.ReturnFromWait? {
      var s' := ApplyStep(s, r, a);
      assert ReturnOf(s'.journal[|s.journal|], r, s.runners[r].call);
      hide ResolutionOf, WaitOver;
    } else {
      hide IdOf, ModeDenies;
    }
  }

  lemma PermitsGrow(s: State, s': State, r: nat)
    requires r < |s.runners| && r < |s'.runners| && PermitKnown(s, r) && s.journal <= s'.journal
    requires s'.runners[r] == s.runners[r].(stop := s'.runners[r].stop)
    ensures PermitKnown(s', r)
  {
    var x := s.runners[r];
    if (x.pc.Leaving? || x.pc.Judged?) && x.pc.permit.Rejected? {
      var k :| 0 <= k < |s.journal| && ReturnOf(s.journal[k], r, x.call) && !s.journal[k].approved;
      assert s'.journal[k] == s.journal[k];
    }
  }

  lemma OthersPermitsAreKnown(s: State, a: OtherAction, r: nat)
    requires ReturnsOk(s) && r < |ApplyOther(s, a).runners|
    ensures PermitKnown(ApplyOther(s, a), r) && Unfailed(ApplyOther(s, a).runners[r])
  {
    if r < |s.runners| {
      assert PermitKnown(s, r) && Unfailed(s.runners[r]);
      hide Resolve, CancelAll, PermitKnown;
      PermitsGrow(s, ApplyOther(s, a), r);
    }
  }

  lemma RunnersPermitsAreKnown(s: State, q: nat, a: RunnerAction, r: nat)
    requires ReturnsOk(s) && q < |s.runners| && StepEnabled(s, q, a) && r < |s.runners|
    ensures r < |ApplyStep(s, q, a).runners|
    ensures PermitKnown(ApplyStep(s, q, a), r) && Unfailed(ApplyStep(s, q, a).runners[r])
  {
    OwnToolsStay(s, q, a, r);
    assert PermitKnown(s, r) && Unfailed(s.runners[r]);
    if q == r {
      OwnPermitIsKnown(s, r, a);
    } else {
      RunnersDoNotMeet(s, a, q, r);
      hide ApplyStep, ReturnsOk, PermitKnown;
      PermitsGrow(s, ApplyStep(s, q, a), r);
    }
    hide ApplyStep, ReturnsOk, PermitKnown;
  }

  lemma PermitsStayKnown(s: State, a: Action, r: nat)
    requires Enabled(s, a) && ReturnsOk(s) && r < |Apply(s, a).runners|
    ensures PermitKnown(Apply(s, a), r) && Unfailed(Apply(s, a).runners[r])
  {
    match a
    case ByOthers(other) => OthersPermitsAreKnown(s, other, r); hide ApplyOther, PermitKnown;
    case ByRunner(q, step) =>
      assert r < |s.runners| by {
        OwnToolsStay(s, q, step, q);
      }
      RunnersPermitsAreKnown(s, q, step, r);
      hide ApplyStep, PermitKnown, ReturnsOk;
  }

  lemma ReturnsKept(s: State, a: Action)
    requires Enabled(s, a) && ReturnsOk(s)
    ensures ReturnsOk(Apply(s, a))
  {
    hide Apply, Enabled;
    ReturnsStayKnown(s, a);
    forall r | 0 <= r < |Apply(s, a).runners|
      ensures PermitKnown(Apply(s, a), r) && Unfailed(Apply(s, a).runners[r])
    {
      PermitsStayKnown(s, a, r);
    }
    hide PermitKnown, ReturnKnown, Unfailed;
  }

  lemma {:induction false} ReturnsAlways(s: State, trace: seq<Action>)
    requires Possible(s, trace) && ReturnsOk(s)
    ensures ReturnsOk(After(s, trace))
    decreases |trace|
  {
    hide Enabled, Apply, ReturnsOk;
    if trace == [] {
    } else {
      ReturnsKept(s, trace[0]);
      ReturnsAlways(Apply(s, trace[0]), trace[1..]);
    }
  }

  /** What the check lets through, in every reachable state: a call that did not fail when
      it was prepared and was not refused, exactly if the mode is Build or the tool is one
      of the plan tools. Any other call is over without having been executed. */
  lemma CallsPassExactly(planTools: set<string>, trace: seq<Action>, r: nat)
    requires Possible(Init(planTools), trace) && r < |After(Init(planTools), trace).runners|
    requires StepEnabled(After(Init(planTools), trace), r, Judge)
    ensures var s := After(Init(planTools), trace);
            var x, x' := s.runners[r], ApplyStep(s, r, Judge).runners[r];
            && (x'.pc.Allowed? || x'.pc.Finishing?)
            && (x'.pc.Allowed? <==> Clean(s, r) && (s.mode.Build? || x.tools[x.call].name in planTools))
  {
    ReturnsAlways(Init(planTools), trace);
    JournalGrows(Init(planTools), trace);
    var s := After(Init(planTools), trace);
    hide Possible, After;
    NoFailureNoRefusal(s, r);
    hide Clean, ReturnsOk;
  }

  /** What preparing finds, in every state: a call fails exactly if it fails by itself or
      the mode is Plan and the tool none of the plan tools; a call that does not fail goes
      to the gate exactly if it requires approval. */
  lemma CallsFailExactly(s: State, r: nat, prep: Prep)
    requires r < |s.runners| && StepEnabled(s, r, Prepare(prep))
    ensures var x, x' := s.runners[r], ApplyStep(s, r, Prepare(prep)).runners[r];
            && (x'.prep.failed <==> prep.failed || (s.mode.Plan? && x.tools[x.call].name !in s.planTools))
            && (x'.pc.AtGate? <==> !x'.prep.failed && prep.requiresApproval)
            && (x'.pc.AtGate? || x'.pc.Judged?)
            && (!x'.prep.failed ==> x'.prep == prep)
  {}
}
