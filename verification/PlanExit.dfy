/** Leaving Plan mode through an approved plan: the mode is looked at under the lock, the
    plan is written without it, and the switch is made under the lock again. */
module PlanExit {
  import opened Numerals
  import opened ApprovalMachine

  /** Where a call of `ApplyApprovedPlanExit` is; `seen` counts the facts there were when
      it looked at the mode. */
  datatype Call = Checked(path: string, seen: nat) | Written(path: string, seen: nat)

  datatype Fact =
    | SawPlan(path: string)      // Plan mode with this active path, seen under the lock
    | Wrote(call: nat, path: string)
    | Switched(call: nat, path: string, seen: nat)
    | WasReset

  datatype Plans = Plans(
    mode: Mode,
    activePath: Option<string>,
    reminder: Option<string>,       // the plan a build-switch reminder is to mention
    calls: map<nat, Call>,
    facts: seq<Fact>)               // kept for the statements

  const START := Plans(Build, None, None, map[], [])

  datatype Step =
    | Check(call: nat)
    | Write(call: nat, ok: bool)
    | Switch(call: nat)
    | SetAgentMode(mode: Mode)
    | EnsurePlanSession(created: Option<string>)
    | UseReminder(path: string)
    | Reset

  predicate CanTake(s: Plans, a: Step) {
    match a
    case Check(c) => c !in s.calls
    case Write(c, _) => c in s.calls && s.calls[c].Checked?
    case Switch(c) => c in s.calls && s.calls[c].Written?
    case _ => true
  }

  function Take(s: Plans, a: Step): Plans
    requires CanTake(s, a)
  {
    match a
    case Check(c) =>
      if s.mode.Plan? && s.activePath.Some? then
        s.(calls := s.calls[c := Checked(s.activePath.value, |s.facts|)], facts := s.facts + [SawPlan(s.activePath.value)])
      else s
    case Write(c, ok) =>
      var path := s.calls[c].path;
      if ok then s.(calls := s.calls[c := Written(path, s.calls[c].seen)], facts := s.facts + [Wrote(c, path)])
      else s.(calls := s.calls - {c})
    case Switch(c) =>
      var path := s.calls[c].path;
      s.(mode := Build, reminder := Some(path), calls := s.calls - {c},
         facts := s.facts + [Switched(c, path, s.calls[c].seen)])
    case SetAgentMode(mode) => s.(mode := mode)
    case EnsurePlanSession(created) => if s.mode.Plan? && s.activePath.None? then s.(activePath := created) else s
    case UseReminder(path) => if s.reminder == Some(path) then s.(reminder := None) else s
    case Reset => s.(mode := Build, activePath := None, reminder := None, facts := s.facts + [WasReset])
  }

  predicate CanRun(s: Plans, steps: seq<Step>)
    decreases |steps|
  {
    steps == [] || (CanTake(s, steps[0]) && CanRun(Take(s, steps[0]), steps[1..]))
  }

  function AfterSteps(s: Plans, steps: seq<Step>): Plans
    requires CanRun(s, steps)
    decreases |steps|
  {
    if steps == [] then s else AfterSteps(Take(s, steps[0]), steps[1..])
  }

  lemma {:induction false} RunConcat(s: Plans, t: seq<Step>, u: seq<Step>)
    requires CanRun(s, t) && CanRun(AfterSteps(s, t), u)
    ensures CanRun(s, t + u)
    ensures AfterSteps(s, t + u) == AfterSteps(AfterSteps(s, t), u)
    decreases |t|
  {
    hide CanTake, Take;
    if t == [] {
      assert t + u == u;
    } else {
      assert (t + u)[1..] == t[1..] + u;
      RunConcat(Take(s, t[0]), t[1..], u);
    }
  }

  // ---------- what is announced ----------

  /** `path` was seen as the active plan in Plan mode, and the call wrote it after that. */
  ghost predicate Approved(facts: seq<Fact>, call: nat, path: string, seen: nat) {
    && seen < |facts| && facts[seen] == SawPlan(path)
    && exists j :: seen < j < |facts| && facts[j] == Wrote(call, path)
  }

  ghost predicate CallOk(facts: seq<Fact>, c: nat, call: Call) {
    && call.seen < |facts| && facts[call.seen] == SawPlan(call.path)
    && (call.Written? ==> Approved(facts, c, call.path, call.seen))
  }

  ghost predicate SwitchOk(facts: seq<Fact>, k: nat) {
    k < |facts| && facts[k].Switched? ==> Approved(facts[..k], facts[k].call, facts[k].path, facts[k].seen)
  }

  /** The latest switch since the latest reset that was for `path` is at `k`. */
  ghost predicate AnnouncedAt(facts: seq<Fact>, path: string, k: nat) {
    && k < |facts| && facts[k].Switched? && facts[k].path == path
    && forall i :: k < i < |facts| ==> !facts[i].WasReset?
  }

  ghost predicate Announced(facts: seq<Fact>, path: string) {
    exists k :: AnnouncedAt(facts, path, k)
  }

  ghost predicate CallsOk(s: Plans) {
    forall c :: c in s.calls ==> CallOk(s.facts, c, s.calls[c])
  }

  ghost predicate PlansOk(s: Plans) {
    && CallsOk(s)
    && (s.reminder.Some? ==> Announced(s.facts, s.reminder.value))
    && forall k :: SwitchOk(s.facts, k)
  }

  lemma ApprovedStays(facts: seq<Fact>, fact: Fact, call: nat, path: string, seen: nat)
    requires Approved(facts, call, path, seen)
    ensures Approved(facts + [fact], call, path, seen)
  {
    var j :| seen < j < |facts| && facts[j] == Wrote(call, path);
    assert (facts + [fact])[j] == Wrote(call, path);
  }

  lemma CallStaysOk(facts: seq<Fact>, fact: Fact, c: nat, call: Call)
    requires CallOk(facts, c, call)
    ensures CallOk(facts + [fact], c, call)
  {
    if call.Written? {
      ApprovedStays(facts, fact, c, call.path, call.seen);
    }
    hide Approved;
  }

  lemma AnnouncedStays(facts: seq<Fact>, fact: Fact, path: string)
    requires Announced(facts, path) && !fact.WasReset?
    ensures Announced(facts + [fact], path)
  {
    var k :| AnnouncedAt(facts, path, k);
    assert AnnouncedAt(facts + [fact], path, k);
  }

  lemma SwitchesStayOk(facts: seq<Fact>, fact: Fact)
    requires forall k :: SwitchOk(facts, k)
    requires fact.Switched? ==> Approved(facts, fact.call, fact.path, fact.seen)
    ensures forall k :: SwitchOk(facts + [fact], k)
  {
    hide Approved;
    var more := facts + [fact];
    forall k: nat
      ensures SwitchOk(more, k)
    {
      assert SwitchOk(facts, k);
      if k < |facts| {
        assert more[..k] == facts[..k];
      } else if k == |facts| {
        assert more[..k] == facts;
      }
    }
  }

  lemma FactAdded(s: Plans, fact: Fact)
    requires PlansOk(s)
    requires fact.Switched? ==> Approved(s.facts, fact.call, fact.path, fact.seen)
    requires fact.WasReset? ==> s.reminder.None?
    ensures PlansOk(s.(facts := s.facts + [fact]))
  {
    var s' := s.(facts := s.facts + [fact]);
    hide Approved, SwitchOk, Announced;
    assert CallsOk(s') by {
      hide CallOk;
      forall c | c in s'.calls
        ensures CallOk(s'.facts, c, s'.calls[c])
      {
        CallStaysOk(s.facts, fact, c, s.calls[c]);
      }
    }
    SwitchesStayOk(s.facts, fact);
    if s.reminder.Some? {
      AnnouncedStays(s.facts, fact, s.reminder.value);
    }
  }

  lemma WriteApproves(facts: seq<Fact>, c: nat, call: Call)
    requires CallOk(facts, c, call)
    ensures CallOk(facts + [Wrote(c, call.path)], c, Written(call.path, call.seen))
  {
    assert (facts + [Wrote(c, call.path)])[|facts|] == Wrote(c, call.path);
  }

  lemma SwitchAnnounces(facts: seq<Fact>, call: nat, path: string, seen: nat)
    ensures Announced(facts + [Switched(call, path, seen)], path)
  {
    assert AnnouncedAt(facts + [Switched(call, path, seen)], path, |facts|);
  }

  lemma TakeKeepsPlans(s: Plans, a: Step)
    requires PlansOk(s) && CanTake(s, a)
    ensures PlansOk(Take(s, a))
  {
    hide Approved, SwitchOk, Announced;
    match a
    case Check(c) =>
      if s.mode.Plan? && s.activePath.Some? {
        FactAdded(s, SawPlan(s.activePath.value));
      }
    case Write(c, ok) =>
      if ok {
        FactAdded(s, Wrote(c, s.calls[c].path));
        WriteApproves(s.facts, c, s.calls[c]);
      }
      hide CallOk;
    case Switch(c) =>
      assert CallOk(s.facts, c, s.calls[c]);
      FactAdded(s, Switched(c, s.calls[c].path, s.calls[c].seen));
      SwitchAnnounces(s.facts, c, s.calls[c].path, s.calls[c].seen);
      hide CallOk;
    case Reset =>
      FactAdded(s.(reminder := None), WasReset);
      hide CallOk;
    case _ => hide CallOk;
  }

  lemma {:induction false} PlansAlwaysOk(s: Plans, steps: seq<Step>)
    requires PlansOk(s) && CanRun(s, steps)
    ensures PlansOk(AfterSteps(s, steps))
    decreases |steps|
  {
    hide PlansOk, CanTake, Take;
    if steps == [] {
    } else {
      TakeKeepsPlans(s, steps[0]);
      PlansAlwaysOk(Take(s, steps[0]), steps[1..]);
    }
  }

  lemma NothingYet()
    ensures PlansOk(START)
  {}

  /** However calls, mode changes and resets interleave: every plan the mode was switched
      for was the active plan in Plan mode when the call looked, and the call wrote it
      after that; and a pending reminder mentions a plan that was switched for since the
      latest reset. */
  lemma OnlyWrittenPlansAreAnnounced(steps: seq<Step>, k: nat)
    requires CanRun(START, steps)
    ensures var s := AfterSteps(START, steps);
            && (s.reminder.Some? ==> Announced(s.facts, s.reminder.value))
            && (k < |s.facts| && s.facts[k].Switched? ==>
                  Approved(s.facts[..k], s.facts[k].call, s.facts[k].path, s.facts[k].seen))
  {
    NothingYet();
    PlansAlwaysOk(START, steps);
    hide Approved, Announced, CallsOk;
    assert SwitchOk(AfterSteps(START, steps).facts, k);
  }

  // ---------- resets ----------

  /** What can be said of a state some steps after the reset that is fact `r`; `atReset` are
      the calls that were in progress at it. */
  ghost predicate SinceReset(s: Plans, r: nat, atReset: map<nat, Call>) {
    && r < |s.facts| && s.facts[r] == WasReset
    && (forall c :: c in s.calls ==> OldCall(s.calls[c].seen, r, c, atReset))
    && forall k :: r < k < |s.facts| && s.facts[k].Switched? ==> OldCall(s.facts[k].seen, r, s.facts[k].call, atReset)
  }

  /** A call that looked before the reset was in progress at it. */
  predicate OldCall(seen: nat, r: nat, c: nat, atReset: map<nat, Call>) {
    seen < r <==> c in atReset && atReset[c].seen == seen
  }

  lemma TakeKeepsSince(s: Plans, a: Step, r: nat, atReset: map<nat, Call>)
    requires SinceReset(s, r, atReset) && CanTake(s, a)
    requires forall c :: c in atReset ==> atReset[c].seen < r
    ensures SinceReset(Take(s, a), r, atReset)
  {}

  lemma {:induction false} AlwaysSince(s: Plans, steps: seq<Step>, r: nat, atReset: map<nat, Call>)
    requires SinceReset(s, r, atReset) && CanRun(s, steps)
    requires forall c :: c in atReset ==> atReset[c].seen < r
    ensures SinceReset(AfterSteps(s, steps), r, atReset)
    decreases |steps|
  {
    hide SinceReset, CanTake, Take;
    if steps == [] {
    } else {
      TakeKeepsSince(s, steps[0], r, atReset);
      AlwaysSince(Take(s, steps[0]), steps[1..], r, atReset);
    }
  }

  lemma SwitchesSinceReset(s0: Plans, later: seq<Step>, k: nat)
    requires PlansOk(s0) && CanRun(Take(s0, Reset), later)
    ensures var s, r := AfterSteps(Take(s0, Reset), later), |s0.facts|;
            && r < |s.facts| && s.facts[r] == WasReset
            && (r < k < |s.facts| && s.facts[k].Switched? ==> OldCall(s.facts[k].seen, r, s.facts[k].call, s0.calls))
  {
    hide CanRun, AfterSteps, Approved, SwitchOk;
    assert forall c :: c in s0.calls ==> CallOk(s0.facts, c, s0.calls[c]);
    AlwaysSince(Take(s0, Reset), later, |s0.facts|, s0.calls);
  }

  /** After a reset, a switch announces a plan that its call looked at before the reset
      exactly when that call was in progress at it. */
  lemma OldPlansComeFromOldCalls(before: seq<Step>, later: seq<Step>, k: nat)
    requires CanRun(START, before)
    requires CanRun(Take(AfterSteps(START, before), Reset), later)
    ensures var s0 := AfterSteps(START, before);
            var s, r := AfterSteps(Take(s0, Reset), later), |s0.facts|;
            && r < |s.facts| && s.facts[r] == WasReset
            && (r < k < |s.facts| && s.facts[k].Switched? ==>
                  var c := s.facts[k].call;
                  (s.facts[k].seen < r <==> c in s0.calls && s0.calls[c].seen == s.facts[k].seen))
  {
    NothingYet();
    PlansAlwaysOk(START, before);
    hide CanRun, AfterSteps, PlansOk, CanTake, Take;
    SwitchesSinceReset(AfterSteps(START, before), later, k);
  }

  /** A pending reminder mentions a plan that was looked at after fact `r`. */
  ghost predicate ReminderIsNew(s: Plans, r: nat) {
    s.reminder.Some? ==> exists i :: r < i < |s.facts| && s.facts[i] == SawPlan(s.reminder.value)
  }

  /** Whatever happens from `s` on, reminders are about plans looked at after fact `r`. */
  ghost predicate RemindersStayNew(s: Plans, r: nat) {
    forall later :: CanRun(s, later) ==> ReminderIsNew(AfterSteps(s, later), r)
  }

  lemma ReminderFromSwitch(s: Plans, r: nat, k: nat)
    requires SwitchOk(s.facts, k) && s.reminder.Some? && AnnouncedAt(s.facts, s.reminder.value, k)
    requires r < k && s.facts[k].seen > r
    ensures ReminderIsNew(s, r)
  {
    var seen := s.facts[k].seen;
    assert s.facts[..k][seen] == s.facts[seen];
  }

  lemma NewCallsGiveNewReminders(s0: Plans, later: seq<Step>)
    requires PlansOk(s0) && s0.calls == map[] && CanRun(Take(s0, Reset), later)
    ensures ReminderIsNew(AfterSteps(Take(s0, Reset), later), |s0.facts|)
  {
    TakeKeepsPlans(s0, Reset);
    PlansAlwaysOk(Take(s0, Reset), later);
    hide Take, CanTake, CanRun, AfterSteps, Approved, CallsOk;
    var s, r := AfterSteps(Take(s0, Reset), later), |s0.facts|;
    if s.reminder.Some? {
      var k :| AnnouncedAt(s.facts, s.reminder.value, k);
      SwitchesSinceReset(s0, later, k);
      assert SwitchOk(s.facts, k);
      SeenIsNoReset(s.facts, k, r);
      ReminderFromSwitch(s, r, k);
    }
  }

  lemma SeenIsNoReset(facts: seq<Fact>, k: nat, r: nat)
    requires SwitchOk(facts, k) && k < |facts| && facts[k].Switched? && r < |facts| && facts[r] == WasReset
    ensures facts[k].seen != r
  {
    assert facts[k].seen < k ==> facts[..k][facts[k].seen] == facts[facts[k].seen];
  }

  lemma OneStep(s: Plans, a: Step)
    requires CanTake(s, a)
    ensures CanRun(s, [a]) && AfterSteps(s, [a]) == Take(s, a)
  {
    assert [a][1..] == [];
  }

  lemma TwoSteps(s: Plans, a: Step, b: Step)
    requires CanTake(s, a) && CanTake(Take(s, a), b)
    ensures CanRun(s, [a, b]) && AfterSteps(s, [a, b]) == Take(Take(s, a), b)
  {
    hide CanTake, Take;
    OneStep(Take(s, a), b);
    assert [a, b][1..] == [b];
  }

  lemma OldCallGivesOldReminder(s0: Plans, c: nat) returns (later: seq<Step>)
    requires c in s0.calls
    ensures CanRun(Take(s0, Reset), later)
    ensures var s := AfterSteps(Take(s0, Reset), later);
            && s.reminder == Some(s0.calls[c].path) && s.activePath == None
            && !ReminderIsNew(s, |s0.facts|)
  {
    var s1 := Take(s0, Reset);
    if s0.calls[c].Written? {
      later := [Switch(c)];
      OneStep(s1, Switch(c));
    } else {
      later := [Write(c, true), Switch(c)];
      TwoSteps(s1, Write(c, true), Switch(c));
    }
    hide CanRun, AfterSteps;
  }

  /** After a reset, reminders are about plans looked at after it, whatever happens next,
      exactly when no call was between its sections at the reset. */
  lemma ResetsEndPlansExactly(before: seq<Step>)
    requires CanRun(START, before)
    ensures var s0 := AfterSteps(START, before);
            RemindersStayNew(Take(s0, Reset), |s0.facts|) <==> s0.calls == map[]
  {
    NothingYet();
    PlansAlwaysOk(START, before);
    var s0 := AfterSteps(START, before);
    hide CanRun, AfterSteps, PlansOk, CanTake, Take, ReminderIsNew;
    if s0.calls == map[] {
      forall later | CanRun(Take(s0, Reset), later)
        ensures ReminderIsNew(AfterSteps(Take(s0, Reset), later), |s0.facts|)
      {
        NewCallsGiveNewReminders(s0, later);
      }
    } else {
      var c :| c in s0.calls;
      var later := OldCallGivesOldReminder(s0, c);
    }
  }

  /** It does happen: a plan of the old conversation is announced in the new one. */
  lemma RemindersCanOutliveResets(path: string)
    ensures var steps := [SetAgentMode(Plan), EnsurePlanSession(Some(path)), Check(1), Write(1, true), Reset, Switch(1)];
            && CanRun(START, steps)
            && var s := AfterSteps(START, steps);
            && s.reminder == Some(path) && s.mode == Build && s.activePath == None
            && s.facts == [SawPlan(path), Wrote(1, path), WasReset, Switched(1, path, 0)]
  {
    var s2 := Take(Take(START, SetAgentMode(Plan)), EnsurePlanSession(Some(path)));
    var s4 := Take(Take(s2, Check(1)), Write(1, true));
    TwoSteps(START, SetAgentMode(Plan), EnsurePlanSession(Some(path)));
    TwoSteps(s2, Check(1), Write(1, true));
    TwoSteps(s4, Reset, Switch(1));
    hide CanRun, AfterSteps;
    var first, second, third := [SetAgentMode(Plan), EnsurePlanSession(Some(path))], [Check(1), Write(1, true)], [Reset, Switch(1)];
    RunConcat(s2, second, third);
    RunConcat(START, first, second + third);
    assert first + (second + third)
        == [SetAgentMode(Plan), EnsurePlanSession(Some(path)), Check(1), Write(1, true), Reset, Switch(1)];
  }

  // ---------- as it runs ----------

  datatype Outcome = Outcome(approved: bool, planPath: string, error: string)

  /** A step that call `c` takes itself. */
  predicate IsOf(a: Step, c: nat) {
    a == Check(c) || a == Write(c, true) || a == Write(c, false) || a == Switch(c)
  }

  /** Facts are only added, and none of a switch by `c`. */
  predicate NoSwitchSince(facts: seq<Fact>, facts': seq<Fact>, c: nat) {
    && facts <= facts'
    && forall k :: |facts| <= k < |facts'| && facts'[k].Switched? ==> facts'[k].call != c
  }

  /** What steps of others leave of call `c`. */
  predicate Undisturbed(s: Plans, s': Plans, c: nat) {
    && (c in s'.calls <==> c in s.calls)
    && (c in s.calls ==> s'.calls[c] == s.calls[c])
    && NoSwitchSince(s.facts, s'.facts, c)
  }

  lemma OthersLeaveCalls(s: Plans, a: Step, c: nat)
    requires CanTake(s, a) && !IsOf(a, c)
    ensures Undisturbed(s, Take(s, a), c)
  {}

  class PlanConfig {
    var agentMode: Mode
    var activePlanPath: Option<string>
    var buildSwitchPlanPath: Option<string>
    var calls: map<nat, Call>            // the calls in progress, with what they have in hand
    var facts: seq<Fact>                 // kept for the statements
    var others: seq<seq<Step>>           // what other threads do where they get in
    ghost var steps: seq<Step>           // every step taken so far

    ghost function View(): Plans
      reads this
    {
      Plans(agentMode, activePlanPath, buildSwitchPlanPath, calls, facts)
    }

    /** The state is the one the steps so far lead to. */
    ghost predicate Valid()
      reads this
    {
      CanRun(START, steps) && AfterSteps(START, steps) == View()
    }

    constructor (others: seq<seq<Step>>)
      ensures Valid() && View() == START && steps == [] && this.others == others
    {
      agentMode, activePlanPath, buildSwitchPlanPath, calls, facts := Build, None, None, map[], [];
      this.others := others;
      steps := [];
    }

    ghost method Log(s: Plans, a: Step)
      requires CanRun(START, steps) && AfterSteps(START, steps) == s && CanTake(s, a) && View() == Take(s, a)
      modifies `steps
      ensures Valid() && steps == old(steps) + [a]
    {
      hide CanRun, AfterSteps, CanTake, Take;
      OneStep(s, a);
      RunConcat(START, steps, [a]);
      steps := steps + [a];
    }

    /** The first section: the mode and the active plan are looked at. */
    method LookAtPlan(call: nat) returns (planPath: Option<string>)
      requires Valid() && call !in calls
      modifies `calls, `facts, `steps
      ensures Valid() && View() == Take(old(View()), Check(call)) && steps == old(steps) + [Check(call)]
      ensures planPath == if agentMode.Plan? then activePlanPath else None
    {
      hide CanRun, AfterSteps;
      ghost var s := View();
      planPath := None;
      if agentMode.Plan? && activePlanPath.Some? {
        planPath := activePlanPath;
        calls := calls[call := Checked(planPath.value, |facts|)];
        facts := facts + [SawPlan(planPath.value)];
      }
      Log(s, Check(call));
    }

    /** The plan file is written, without the lock. */
    method WritePlan(call: nat, ok: bool)
      requires Valid() && call in calls && calls[call].Checked?
      modifies `calls, `facts, `steps
      ensures Valid() && View() == Take(old(View()), Write(call, ok)) && steps == old(steps) + [Write(call, ok)]
    {
      hide CanRun, AfterSteps;
      ghost var s := View();
      var path := calls[call].path;
      if ok {
        calls := calls[call := Written(path, calls[call].seen)];
        facts := facts + [Wrote(call, path)];
      } else {
        calls := calls - {call};
      }
      Log(s, Write(call, ok));
    }

    /** The second section: the mode is switched, whatever it is by now. */
    method SwitchToBuild(call: nat)
      requires Valid() && call in calls && calls[call].Written?
      modifies `agentMode, `buildSwitchPlanPath, `calls, `facts, `steps
      ensures Valid() && View() == Take(old(View()), Switch(call)) && steps == old(steps) + [Switch(call)]
    {
      hide CanRun, AfterSteps;
      ghost var s := View();
      var path := calls[call].path;
      agentMode := Build;
      buildSwitchPlanPath := Some(path);
      facts := facts + [Switched(call, path, calls[call].seen)];
      calls := calls - {call};
      Log(s, Switch(call));
    }

    /** One step of another thread; a step out of turn is skipped. */
    method OtherStep(a: Step, ghost call: nat)
      requires Valid() && !IsOf(a, call)
      modifies `agentMode, `activePlanPath, `buildSwitchPlanPath, `calls, `facts, `steps
      ensures Valid() && old(steps) <= steps && Undisturbed(old(View()), View(), call)
      ensures View() == if CanTake(old(View()), a) then Take(old(View()), a) else old(View())
    {
      hide CanRun, AfterSteps;
      ghost var s := View();
      if CanTake(s, a) {
        OthersLeaveCalls(s, a, call);
      }
      match a
      case Check(c) =>
        if c !in calls {
          var _ := LookAtPlan(c);
        }
      case Write(c, ok) =>
        if c in calls && calls[c].Checked? {
          WritePlan(c, ok);
        }
      case Switch(c) =>
        if c in calls && calls[c].Written? {
          SwitchToBuild(c);
        }
      case SetAgentMode(mode) =>
        agentMode := mode;
        Log(s, a);
      case EnsurePlanSession(created) =>
        if agentMode.Plan? && activePlanPath.None? {
          activePlanPath := created;
        }
        Log(s, a);
      case UseReminder(path) =>
        if buildSwitchPlanPath == Some(path) {
          buildSwitchPlanPath := None;
        }
        Log(s, a);
      case Reset =>
        agentMode, activePlanPath, buildSwitchPlanPath := Build, None, None;
        facts := facts + [WasReset];
        Log(s, a);
    }

    /** The lock is free: other threads get in. */
    method Yield(call: nat)
      requires Valid()
      modifies this
      ensures Valid() && old(steps) <= steps && Undisturbed(old(View()), View(), call)
    {
      hide CanRun, AfterSteps, CanTake, Take;
      if others == [] {
        return;
      }
      var turn := others[0];
      others := others[1..];
      for i := 0 to |turn|
        invariant Valid() && old(steps) <= steps && Undisturbed(old(View()), View(), call)
      {
        if !IsOf(turn[i], call) {
          OtherStep(turn[i], call);
        }
      }
    }

    /** With anybody in between: the exit is approved exactly when Plan mode and an active
        plan were found and the plan was written. Then it ends with the switch for that
        plan, although the mode may be another by now; else this call switches nothing. */
    method ApplyApprovedPlanExit(call: nat, writeSucceeds: bool) returns (outcome: Outcome)
      requires Valid() && call !in calls
      modifies this
      ensures Valid() && old(steps) <= steps && call !in calls && old(facts) <= facts
      ensures outcome.approved <==> old(agentMode).Plan? && old(activePlanPath).Some? && writeSucceeds
      ensures outcome.approved <==> outcome.error == ""
      ensures outcome.approved ==>
                && old(activePlanPath) == Some(outcome.planPath) == buildSwitchPlanPath && agentMode.Build?
                && facts != [] && facts[|facts| - 1] == Switched(call, outcome.planPath, |old(facts)|)
      ensures !outcome.approved ==> NoSwitchSince(old(facts), facts, call)
    {
      hide CanRun, AfterSteps;
      var planPath := LookAtPlan(call);
      if planPath.None? {
        return Outcome(false, "", "plan_exit requires an active Plan session.");
      }
      Yield(call);
      WritePlan(call, writeSucceeds);
      if !writeSucceeds {
        return Outcome(false, planPath.value, "Failed to write active plan file.");
      }
      Yield(call);
      SwitchToBuild(call);
      outcome := Outcome(true, planPath.value, "");
    }
  }
}
