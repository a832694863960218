/** What the approval protocol promises over all its runs. */
module ApprovalTheorems {
  import opened Numerals
  import opened ToolApproval
  import opened ApprovalMachine
  import opened ApprovalInvariants
  import opened ApprovalSteps

  /** The execution at `p` had its own approval: its call asked under `id` at `i` and
      nobody else ever did, the user's last word when the wait returned at `k` was yes
      and came after the request, no stop had been requested by then, and the mode was
      checked after that. */
  ghost predicate ApprovedAs(journal: seq<Event>, p: nat, id: string, i: nat, k: nat, m: nat)
    requires p < |journal| && journal[p].Executed?
  {
    var e := journal[p];
    && i < k < m < p
    && journal[i] == Requested(e.runner, e.call, id)
    && (forall q :: 0 <= q < |journal| && q != i && journal[q].Requested? ==> journal[q].id != id)
    && Verdict(journal[..i], id) == None
    && journal[k] == Returned(e.runner, e.call, id, true)
    && Verdict(journal[..k], id) == Some(true)
    && Stopped(e.runner) !in journal[..k]
    && journal[m] == ModeAllowed(e.runner, e.call)
  }

  lemma InitOk(planTools: set<string>)
    ensures Inv(Init(planTools))
  {}

  lemma ReachableIsOk(planTools: set<string>, trace: seq<Action>)
    requires Possible(Init(planTools), trace)
    ensures Inv(After(Init(planTools), trace))
  {
    InitOk(planTools);
    InvAlways(Init(planTools), trace);
  }

  /** No unapproved execution. */
  lemma NoUnapprovedExecution(planTools: set<string>, trace: seq<Action>, p: nat)
    requires Possible(Init(planTools), trace)
    requires p < |After(Init(planTools), trace).journal| && After(Init(planTools), trace).journal[p].Executed?
    requires After(Init(planTools), trace).journal[p].prep.requiresApproval
    requires After(Init(planTools), trace).journal[p].tool.name != ASK_USER
    ensures exists id, i, k, m :: ApprovedAs(After(Init(planTools), trace).journal, p, id, i, k, m)
  {
    ReachableIsOk(planTools, trace);
    var s := After(Init(planTools), trace);
    hide After, Possible, StopsOk, StopsKnown, PendingOk, RunnersOk, OnceOk, GateOk;
    assert Justified(s, p);
    var e := s.journal[p];
    assert ApprovedAs(s.journal, p, e.permit.id, e.permit.requestedAt, e.permit.returnedAt, e.checkedAt);
  }

  lemma DifferentExecutions(s: State, p: nat, q: nat)
    requires OnceOk(s) && p != q
    requires p < |s.journal| && s.journal[p].Executed? && q < |s.journal| && s.journal[q].Executed?
    ensures DifferentCalls(s.journal[p], s.journal[q])
  {
    if p < q {
      assert DifferentCalls(s.journal[p], s.journal[q]);
    } else {
      assert DifferentCalls(s.journal[q], s.journal[p]);
    }
  }

  /** One approval lets one call run, once. */
  lemma ApprovalsAreSpentOnce(planTools: set<string>, trace: seq<Action>, id: string,
                              p: nat, i: nat, k: nat, m: nat, q: nat, i': nat, k': nat, m': nat)
    requires Possible(Init(planTools), trace)
    requires p < |After(Init(planTools), trace).journal| && After(Init(planTools), trace).journal[p].Executed?
    requires q < |After(Init(planTools), trace).journal| && After(Init(planTools), trace).journal[q].Executed?
    requires ApprovedAs(After(Init(planTools), trace).journal, p, id, i, k, m)
    requires ApprovedAs(After(Init(planTools), trace).journal, q, id, i', k', m')
    ensures p == q
  {
    ReachableIsOk(planTools, trace);
    var s := After(Init(planTools), trace);
    hide After, Possible, StopsOk, StopsKnown, PendingOk, RunnersOk, LedgerOk, ExecutionsOk, GateOk, Verdict;
    if p != q {
      DifferentExecutions(s, p, q);
    }
  }

  /** At most one entry in the pending map is something other than a question to the
      user; the runner it belongs to is waiting for it and holds the gate. */
  lemma GateExclusion(planTools: set<string>, trace: seq<Action>, id: string, id': string)
    requires Possible(Init(planTools), trace)
    requires id in After(Init(planTools), trace).pending
    requires After(Init(planTools), trace).pending[id].toolName != ASK_USER
    ensures var s := After(Init(planTools), trace);
            && id in s.asked && s.asked[id].runner < |s.runners|
            && s.gate == Some(s.asked[id].runner)
            && s.runners[s.asked[id].runner].pc == Asked(id, s.asked[id].at)
            && (id' in s.pending && s.pending[id'].toolName != ASK_USER ==> id' == id)
  {
    ReachableIsOk(planTools, trace);
    var s := After(Init(planTools), trace);
    hide After, Possible, StopsOk, StopsKnown, RunnersOk, LedgerOk, ExecutionsOk, OnceOk, Verdict;
    assert EntryOk(s, id);
    assert Holding(s.runners[s.asked[id].runner].pc);
    if id' in s.pending && s.pending[id'].toolName != ASK_USER {
      assert EntryOk(s, id');
      assert Holding(s.runners[s.asked[id'].runner].pc);
    }
  }

  /** Whoever gives the gate back leaves no entry of its own behind but questions to
      the user: with the gate free, nothing else is pending. */
  lemma EntriesGoBeforeTheGate(planTools: set<string>, trace: seq<Action>)
    requires Possible(Init(planTools), trace) && After(Init(planTools), trace).gate == None
    ensures forall id :: id in After(Init(planTools), trace).pending ==>
              After(Init(planTools), trace).pending[id].toolName == ASK_USER
  {
    forall id | id in After(Init(planTools), trace).pending
      ensures After(Init(planTools), trace).pending[id].toolName == ASK_USER
    {
      if After(Init(planTools), trace).pending[id].toolName != ASK_USER {
        GateExclusion(planTools, trace, id, id);
      }
    }
  }

  ghost predicate CanMove(s: State, r: nat)
    requires r < |s.runners|
  {
    exists a :: StepEnabled(s, r, a)
  }

  /** The holder of the gate can always go on, unless the user has yet to answer. */
  lemma TheGateIsNeverStuck(planTools: set<string>, trace: seq<Action>)
    requires Possible(Init(planTools), trace) && After(Init(planTools), trace).gate.Some?
    ensures var s := After(Init(planTools), trace);
            var r := s.gate.value;
            && r < |s.runners|
            && (CanMove(s, r)
                || (s.runners[r].pc.Asked? && s.runners[r].pc.id in s.pending
                    && s.pending[s.runners[r].pc.id].approved == None && !s.runners[r].stop))
  {
    ReachableIsOk(planTools, trace);
    var s := After(Init(planTools), trace);
    hide After, Possible, StopsOk, StopsKnown, PendingOk, LedgerOk, ExecutionsOk, OnceOk, Verdict, Grant;
    var r := s.gate.value;
    var x := s.runners[r];
    assert PcOk(s, r, x);
    match x.pc
    case GotGate => assert StepEnabled(s, r, CheckStop);
    case Minting => assert StepEnabled(s, r, FetchId);
    case Fetched(_) => assert StepEnabled(s, r, InsertRequest);
    case Asked(id, _) =>
      if x.tools[x.call].name == ASK_USER {
        assert StepEnabled(s, r, SkipWait);
      } else if s.pending[id].approved.Some? || x.stop {
        assert StepEnabled(s, r, ReturnFromWait);
      }
    case Leaving(_) => assert StepEnabled(s, r, ReleaseGate);
    case _ =>
  }

  /** A cancellation, or a stop of the waiting runner, ends the wait, and no wait that
      ends this way lets the call run. */
  lemma CancellingEndsTheWait(s: State, r: nat, id: string, at: nat)
    requires r < |s.runners| && s.runners[r].pc == Asked(id, at)
    ensures WaitOver(CancelAll(s.pending), id, s.runners[r].stop)
    ensures id in s.pending && s.pending[id].approved == None ==>
              !ResolutionOf(CancelAll(s.pending), id, s.runners[r].stop).approved
    ensures WaitOver(s.pending, id, true) && !ResolutionOf(s.pending, id, true).approved
  {}
}
