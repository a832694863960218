/** What the user says is what comes back. */
module ApprovalAnswers {
  import opened Numerals
  import opened ToolApproval
  import opened ApprovalMachine
  import opened ApprovalInvariants
  import opened ApprovalSteps
  import opened ApprovalTheorems
  import opened ApprovalStops
  import opened ApprovalModes

  // ---------- verdicts ----------

  /** An entry is approved exactly if the user's last word about it was yes. */
  predicate SaysTheVerdict(s: State, id: string)
    requires id in s.pending
  {
    s.pending[id].approved == Some(true) <==> Verdict(s.journal, id) == Some(true)
  }

  ghost predicate VerdictsOk(s: State) {
    forall id :: id in s.pending ==> SaysTheVerdict(s, id)
  }

  /** The return at `k` was approved exactly if the last word so far was yes and no stop
      had been requested. */
  ghost predicate ReturnedRightly(journal: seq<Event>, k: nat)
    requires k < |journal|
  {
    var e := journal[k];
    e.Returned? ==>
      (e.approved <==> Verdict(journal[..k], e.id) == Some(true) && Stopped(e.runner) !in journal[..k])
  }

  ghost predicate AllReturnedRightly(journal: seq<Event>) {
    forall k :: 0 <= k < |journal| ==> ReturnedRightly(journal, k)
  }

  lemma RightlyStays(journal: seq<Event>, e: Event)
    requires AllReturnedRightly(journal) && ReturnedRightly(journal + [e], |journal|)
    ensures AllReturnedRightly(journal + [e])
  {
    var j := journal + [e];
    forall k | 0 <= k < |j|
      ensures ReturnedRightly(j, k)
    {
      if k < |journal| {
        assert j[..k] == journal[..k];
        assert ReturnedRightly(journal, k);
      }
    }
  }

  lemma ReturnIsRight(s: State, r: nat)
    requires Inv(s) && VerdictsOk(s) && r < |s.runners| && StepEnabled(s, r, ReturnFromWait)
    ensures var s' := ApplyReturn(s, r);
            && s'.journal == s.journal + [s'.journal[|s.journal|]] && ReturnedRightly(s'.journal, |s.journal|)
  {
    hide GateOk, LedgerOk, StopsKnown, PendingOk, ExecutionsOk, OnceOk, Verdict, Grant;
    var x, s' := s.runners[r], ApplyReturn(s, r);
    assert PcOk(s, r, x);
    assert SaysTheVerdict(s, x.pc.id);
    assert s'.journal[..|s.journal|] == s.journal;
  }

  lemma RunnerKeepsVerdict(s: State, r: nat, a: RunnerAction, id: string)
    requires Inv(s) && VerdictsOk(s) && r < |s.runners| && StepEnabled(s, r, a) && id in ApplyStep(s, r, a).pending
    ensures SaysTheVerdict(ApplyStep(s, r, a), id)
  {
    hide GateOk, StopsKnown, StopsOk, PendingOk, ExecutionsOk, OnceOk, RunnersOk, Verdict, Grant, IdOf, ModeDenies, ResolutionOf, WaitOver;
    var s' := ApplyStep(s, r, a);
    if s'.journal != s.journal {
      RunnerLogs(s, r, a);
      VerdictAppend(s.journal, s'.journal[|s.journal|], id);
    }
    if id in s.pending {
      assert SaysTheVerdict(s, id);
    } else {
      InsertIsNew(s, r, a, id);
    }
  }

  lemma RunnerLogs(s: State, r: nat, a: RunnerAction)
    requires r < |s.runners| && StepEnabled(s, r, a) && ApplyStep(s, r, a).journal != s.journal
    ensures var s' := ApplyStep(s, r, a);
            && |s'.journal| == |s.journal| + 1 && s'.journal == s.journal + [s'.journal[|s.journal|]]
            && !s'.journal[|s.journal|].Resolved?
            && (s'.journal[|s.journal|].Returned? ==> a.ReturnFromWait?)
  {
    hide IdOf, ModeDenies, ResolutionOf, WaitOver;
  }

  /** What enters the pending map was never resolved. */
  lemma InsertIsNew(s: State, r: nat, a: RunnerAction, id: string)
    requires Inv(s) && r < |s.runners| && StepEnabled(s, r, a) && id in ApplyStep(s, r, a).pending && id !in s.pending
    ensures ApplyStep(s, r, a).pending[id].approved == None && Verdict(s.journal, id) == None
  {
    hide GateOk, StopsKnown, StopsOk, PendingOk, ExecutionsOk, OnceOk, Verdict, Grant, IdOf, ModeDenies, ResolutionOf, WaitOver;
    assert PcOk(s, r, s.runners[r]);
  }

  lemma OthersKeepVerdict(s: State, a: OtherAction, id: string)
    requires VerdictsOk(s) && id in ApplyOther(s, a).pending
    ensures SaysTheVerdict(ApplyOther(s, a), id)
  {
    hide Verdict;
    assert SaysTheVerdict(s, id);
    match a
    case RequestStop(r) => VerdictAppend(s.journal, Stopped(r), id);
    case ResolveTool(other, approved) => VerdictAppend(s.journal, Resolved(other, approved), id);
    case ResolveAsk(other, _) => VerdictAppend(s.journal, Resolved(other, true), id);
    case _ =>
  }

  lemma OthersLogNoReturn(s: State, a: OtherAction)
    ensures var s' := ApplyOther(s, a);
            s'.journal == s.journal
            || (|s'.journal| == |s.journal| + 1 && s'.journal == s.journal + [s'.journal[|s.journal|]]
                && !s'.journal[|s.journal|].Returned?)
  {
    hide Resolve, CancelAll;
  }

  lemma VerdictsKept(s: State, a: Action)
    requires Inv(s) && VerdictsOk(s) && Enabled(s, a)
    ensures VerdictsOk(Apply(s, a))
  {
    hide Inv, VerdictsOk, SaysTheVerdict;
    forall id | id in Apply(s, a).pending
      ensures SaysTheVerdict(Apply(s, a), id)
    {
      match a
      case ByOthers(other) => OthersKeepVerdict(s, other, id); hide ApplyOther;
      case ByRunner(r, step) => RunnerKeepsVerdict(s, r, step, id); hide ApplyStep;
    }
    VerdictsAre(Apply(s, a));
  }

  lemma VerdictsAre(s: State)
    requires forall id :: id in s.pending ==> SaysTheVerdict(s, id)
    ensures VerdictsOk(s)
  {}

  lemma ReturnsStayRight(s: State, a: Action)
    requires Inv(s) && VerdictsOk(s) && Enabled(s, a) && AllReturnedRightly(s.journal)
    ensures AllReturnedRightly(Apply(s, a).journal)
  {
    var s' := Apply(s, a);
    hide Inv, VerdictsOk, AllReturnedRightly;
    if s'.journal != s.journal {
      match a {
        case ByOthers(other) =>
          OthersLogNoReturn(s, other);
          hide ApplyOther;
        case ByRunner(r, step) =>
          RunnerLogs(s, r, step);
          if step.ReturnFromWait? {
            ReturnIsRight(s, r);
          }
          hide ApplyStep;
      }
      RightlyStays(s.journal, s'.journal[|s.journal|]);
    }
  }

  lemma {:induction false} VerdictsAlways(s: State, trace: seq<Action>)
    requires Inv(s) && VerdictsOk(s) && AllReturnedRightly(s.journal) && Possible(s, trace)
    ensures VerdictsOk(After(s, trace)) && AllReturnedRightly(After(s, trace).journal)
    decreases |trace|
  {
    hide Inv, VerdictsOk, AllReturnedRightly, Enabled, Apply;
    if trace == [] {
    } else {
      StepKeepsInv(s, trace[0]);
      VerdictsKept(s, trace[0]);
      ReturnsStayRight(s, trace[0]);
      VerdictsAlways(Apply(s, trace[0]), trace[1..]);
    }
  }

  /** A wait comes back approved exactly if the user's last word about it was yes and no
      stop had been requested of its runner; a cancellation alone is no word. */
  lemma WaitsReturnTheLastWord(planTools: set<string>, trace: seq<Action>, k: nat)
    requires Possible(Init(planTools), trace)
    requires k < |After(Init(planTools), trace).journal| && After(Init(planTools), trace).journal[k].Returned?
    ensures var journal := After(Init(planTools), trace).journal;
            journal[k].approved <==>
              Verdict(journal[..k], journal[k].id) == Some(true) && Stopped(journal[k].runner) !in journal[..k]
  {
    InitOk(planTools);
    VerdictsAlways(Init(planTools), trace);
    hide Possible, After, Verdict;
    assert ReturnedRightly(After(Init(planTools), trace).journal, k);
  }

  // ---------- answers ----------

  /** The user says nothing about `id` again. */
  predicate Settled(a: Action, id: string) {
    a.ByOthers? ==> !(a.other.ResolveTool? && a.other.id == id) && !(a.other.ResolveAsk? && a.other.id == id)
  }

  /** The answer is there, or its entry has gone. */
  predicate AnswerIs(s: State, id: string, response: string) {
    id in s.pending ==> s.pending[id].approved == Some(true) && s.pending[id].response == Some(response)
  }

  lemma EntriesStayGone(s: State, a: Action, id: string)
    requires Inv(s) && Enabled(s, a) && id in s.asked && id !in s.pending
    ensures id in Apply(s, a).asked && id !in Apply(s, a).pending
  {
    hide GateOk, StopsKnown, StopsOk, PendingOk, ExecutionsOk, OnceOk, Verdict, Grant, IdOf, ModeDenies, ResolutionOf, WaitOver;
    match a
    case ByOthers(_) =>
    case ByRunner(r, step) =>
      assert PcOk(s, r, s.runners[r]);
      hide PcOk, RunnersOk;
  }

  lemma RunnersLeaveAnswers(s: State, r: nat, a: RunnerAction, id: string)
    requires r < |s.runners| && StepEnabled(s, r, a) && id in s.pending && id in s.asked
    ensures var s' := ApplyStep(s, r, a);
            id in s'.asked && (id in s'.pending ==> s'.pending[id] == s.pending[id])
  {
    hide IdOf, ModeDenies, ResolutionOf, WaitOver;
  }

  lemma OthersLeaveAnswers(s: State, a: OtherAction, id: string, response: string)
    requires id in s.pending && id in s.asked && Settled(ByOthers(a), id) && AnswerIs(s, id, response)
    ensures id in ApplyOther(s, a).asked && AnswerIs(ApplyOther(s, a), id, response)
  {}

  lemma AnswerStays(s: State, a: Action, id: string, response: string)
    requires Inv(s) && Enabled(s, a) && Settled(a, id) && id in s.asked && AnswerIs(s, id, response)
    ensures id in Apply(s, a).asked && AnswerIs(Apply(s, a), id, response)
  {
    if id !in s.pending {
      EntriesStayGone(s, a, id);
      hide Apply;
    } else {
      match a
      case ByOthers(other) => OthersLeaveAnswers(s, other, id, response); hide *;
      case ByRunner(r, step) => RunnersLeaveAnswers(s, r, step, id); hide Inv, ApplyStep;
    }
  }

  lemma {:induction false} AnswersStay(s: State, trace: seq<Action>, id: string, response: string)
    requires Inv(s) && Possible(s, trace) && id in s.asked && AnswerIs(s, id, response)
    requires forall a :: a in trace ==> Settled(a, id)
    ensures AnswerIs(After(s, trace), id, response)
    decreases |trace|
  {
    hide Inv, AnswerIs, Settled, Enabled, Apply;
    if trace == [] {
    } else {
      AnswerStays(s, trace[0], id, response);
      StepKeepsInv(s, trace[0]);
      AnswersStay(Apply(s, trace[0]), trace[1..], id, response);
    }
  }

  /** The answer the user gives to a question is the one that comes back, whatever happens
      in between, cancellations and other approvals included: as long as the user says
      nothing more about it and the entry is still there, the wait for it returns approved
      with that text, unless a stop was requested; then it returns refused and empty. */
  lemma AnswersComeBack(planTools: set<string>, before: seq<Action>, id: string, response: string,
                        later: seq<Action>, stop: bool)
    requires Possible(Init(planTools), before) && id in After(Init(planTools), before).pending
    requires Possible(ApplyOther(After(Init(planTools), before), ResolveAsk(id, response)), later)
    requires forall a :: a in later ==> Settled(a, id)
    requires id in After(ApplyOther(After(Init(planTools), before), ResolveAsk(id, response)), later).pending
    ensures var s := After(ApplyOther(After(Init(planTools), before), ResolveAsk(id, response)), later);
            && WaitOver(s.pending, id, stop)
            && ResolutionOf(s.pending, id, stop) == if stop then REFUSED else Resolution(true, response)
  {
    ReachableIsOk(planTools, before);
    var s := After(Init(planTools), before);
    hide Possible, After;
    var s1 := ApplyOther(s, ResolveAsk(id, response));
    StepKeepsInv(s, ByOthers(ResolveAsk(id, response)));
    AskedBefore(s, id);
    hide Inv;
    AnswersStay(s1, later, id, response);
  }

  lemma AskedBefore(s: State, id: string)
    requires Inv(s) && id in s.pending
    ensures id in s.asked
  {
    assert EntryOk(s, id);
  }
}
