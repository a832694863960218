/** Mode, active plan and reminder over whole runs. */
module PlanModes {
  import opened Numerals
  import opened ApprovalMachine
  import opened PlanExit

  // ---------- plans that were seen were active ----------

  /** At the step of `steps` that wrote fact `k` a call looked, the mode was Plan and `path`
      the active plan. */
  ghost predicate SeenAt(start: Plans, steps: seq<Step>, path: string, k: nat) {
    exists n: nat ::
      && n < |steps| && steps[n].Check? && CanRun(start, steps[..n])
      && var s := AfterSteps(start, steps[..n]);
         |s.facts| == k && s.mode.Plan? && s.activePath == Some(path)
  }

  lemma StepWrites(s: Plans, a: Step)
    requires CanTake(s, a)
    ensures var s' := Take(s, a);
            && s.facts <= s'.facts && |s'.facts| <= |s.facts| + 1
            && (|s'.facts| == |s.facts| + 1 && s'.facts[|s.facts|].SawPlan? ==>
                  a.Check? && s.mode.Plan? && s.activePath == Some(s'.facts[|s.facts|].path))
  {}

  lemma {:induction false} FactsGrow(s: Plans, steps: seq<Step>)
    requires CanRun(s, steps)
    ensures s.facts <= AfterSteps(s, steps).facts
    decreases |steps|
  {
    hide CanTake, Take;
    if steps == [] {
    } else {
      StepWrites(s, steps[0]);
      FactsGrow(Take(s, steps[0]), steps[1..]);
    }
  }

  lemma SeenLater(s: Plans, steps: seq<Step>, path: string, k: nat)
    requires steps != [] && CanTake(s, steps[0]) && SeenAt(Take(s, steps[0]), steps[1..], path, k)
    ensures SeenAt(s, steps, path, k)
  {
    hide CanTake, Take;
    var s1 := Take(s, steps[0]);
    var n: nat :|
      && n < |steps[1..]| && steps[1..][n].Check? && CanRun(s1, steps[1..][..n])
      && var s := AfterSteps(s1, steps[1..][..n]);
         |s.facts| == k && s.mode.Plan? && s.activePath == Some(path);
    var t := steps[..n + 1];
    assert t[0] == steps[0] && t[1..] == steps[1..][..n];
    assert CanRun(s, t) && AfterSteps(s, t) == AfterSteps(s1, t[1..]);
    assert steps[n + 1].Check?;
  }

  lemma {:induction false} PlansAlwaysSeen(s: Plans, steps: seq<Step>, k: nat)
    requires CanRun(s, steps) && |s.facts| <= k < |AfterSteps(s, steps).facts| && AfterSteps(s, steps).facts[k].SawPlan?
    ensures SeenAt(s, steps, AfterSteps(s, steps).facts[k].path, k)
    decreases |steps|
  {
    hide CanTake, Take, SeenAt;
    if steps == [] {
      assert false;
    } else {
      var s1, path := Take(s, steps[0]), AfterSteps(s, steps).facts[k].path;
      StepWrites(s, steps[0]);
      FactsGrow(s1, steps[1..]);
      if k < |s1.facts| {
        assert s1.facts[k] == AfterSteps(s, steps).facts[k];
        SeenNow(s, steps, path);
      } else {
        PlansAlwaysSeen(s1, steps[1..], k);
        SeenLater(s, steps, path, k);
      }
    }
  }

  lemma SeenNow(s: Plans, steps: seq<Step>, path: string)
    requires steps != [] && steps[0].Check? && s.mode.Plan? && s.activePath == Some(path)
    ensures SeenAt(s, steps, path, |s.facts|)
  {
    assert steps[..0] == [];
  }

  /** Every plan the mode was ever switched for was, at a moment at which its call looked,
      the active plan in Plan mode. */
  lemma SwitchedPlansWereActive(steps: seq<Step>, k: nat)
    requires CanRun(START, steps) && k < |AfterSteps(START, steps).facts| && AfterSteps(START, steps).facts[k].Switched?
    ensures var fact := AfterSteps(START, steps).facts[k];
            fact.seen < k && SeenAt(START, steps, fact.path, fact.seen)
  {
    OnlyWrittenPlansAreAnnounced(steps, k);
    var facts := AfterSteps(START, steps).facts;
    assert facts[..k][facts[k].seen] == facts[facts[k].seen];
    PlansAlwaysSeen(START, steps, facts[k].seen);
    hide CanRun, AfterSteps;
  }

  // ---------- the mode ----------

  /** What the mode was last set to, by hand, by a plan exit or by a reset. */
  function LastMode(steps: seq<Step>, mode: Mode): Mode
    decreases |steps|
  {
    if steps == [] then mode
    else
      LastMode(steps[1..], match steps[0]
                           case SetAgentMode(m) => m
                           case Switch(_) => Build
                           case Reset => Build
                           case _ => mode)
  }

  lemma {:induction false} TheModeIsTheLastSet(s: Plans, steps: seq<Step>)
    requires CanRun(s, steps)
    ensures AfterSteps(s, steps).mode == LastMode(steps, s.mode)
    decreases |steps|
  {
    if steps == [] {
    } else {
      TheModeIsTheLastSet(Take(s, steps[0]), steps[1..]);
    }
  }

  // ---------- the active plan ----------

  /** The active plan is the first one made in Plan mode since the last reset, and stays. */
  function FirstPlan(s: Plans, steps: seq<Step>): Option<string>
    requires CanRun(s, steps)
    decreases |steps|
  {
    if steps == [] then None
    else if steps[0].EnsurePlanSession? && s.mode.Plan? && steps[0].created.Some? then steps[0].created
    else FirstPlan(Take(s, steps[0]), steps[1..])
  }

  lemma {:induction false} TheActivePlanIsTheFirst(s: Plans, steps: seq<Step>)
    requires CanRun(s, steps) && Reset !in steps
    ensures AfterSteps(s, steps).activePath == if s.activePath.Some? then s.activePath else FirstPlan(s, steps)
    decreases |steps|
  {
    if steps == [] {
    } else {
      TheActivePlanIsTheFirst(Take(s, steps[0]), steps[1..]);
    }
  }

  // ---------- the reminder ----------

  predicate LeavesReminders(a: Step) {
    !a.Switch? && !a.Reset?
  }

  lemma HeadOrTail(steps: seq<Step>, a: Step)
    requires steps != []
    ensures a in steps <==> a == steps[0] || a in steps[1..]
  {
    assert steps == [steps[0]] + steps[1..];
  }

  /** A reminder stays until it is used, under its own path, and then is gone; nothing but
      a plan exit makes one. */
  lemma {:induction false} RemindersStayUntilUsed(s: Plans, steps: seq<Step>)
    requires CanRun(s, steps) && forall a :: a in steps ==> LeavesReminders(a)
    ensures AfterSteps(s, steps).reminder
         == if s.reminder.Some? && UseReminder(s.reminder.value) in steps then None else s.reminder
    decreases |steps|
  {
    if steps == [] {
    } else {
      assert LeavesReminders(steps[0]);
      RemindersStayUntilUsed(Take(s, steps[0]), steps[1..]);
      if s.reminder.Some? {
        HeadOrTail(steps, UseReminder(s.reminder.value));
      }
    }
  }

  /** A plan exit is the switch to Build, and leaves the reminder of the plan it wrote. */
  lemma SwitchesLeaveAReminder(before: seq<Step>, c: nat, steps: seq<Step>)
    requires CanRun(START, before) && CanTake(AfterSteps(START, before), Switch(c))
    requires CanRun(Take(AfterSteps(START, before), Switch(c)), steps)
    requires forall a :: a in steps ==> LeavesReminders(a)
    ensures var s0 := AfterSteps(START, before);
            var s1, path := Take(s0, Switch(c)), s0.calls[c].path;
            var s := AfterSteps(s1, steps);
            && s1.mode.Build? && c !in s1.calls
            && Wrote(c, path) in s0.facts
            && s.reminder == if UseReminder(path) in steps then None else Some(path)
  {
    NothingYet();
    PlansAlwaysOk(START, before);
    var s0 := AfterSteps(START, before);
    hide CanRun, AfterSteps;
    RemindersStayUntilUsed(Take(s0, Switch(c)), steps);
    assert CallOk(s0.facts, c, s0.calls[c]);
  }
}
