/** Each step of the approval protocol keeps the invariant. */
module ApprovalSteps {
  import opened Numerals
  import opened ToolApproval
  import opened ApprovalMachine
  import opened ApprovalInvariants

  // ---------- steps of one runner ----------

  /** Only runner `r` moved. */
  predicate OnlyMoved(s: State, s': State, r: nat) {
    && r < |s.runners| && |s'.runners| == |s.runners|
    && s'.runners == s.runners[r := s'.runners[r]]
    && s'.runners[r].tools == s.runners[r].tools && s'.runners[r].stop == s.runners[r].stop
  }

  /** The gate was left alone, taken when free, or given back by its holder. */
  predicate GateStep(s: State, s': State, r: nat)
    requires r < |s.runners| == |s'.runners|
  {
    var before, after := Holding(s.runners[r].pc), Holding(s'.runners[r].pc);
    || (s'.gate == s.gate && before == after)
    || (s.gate == None && s'.gate == Some(r) && after)
    || (before && s'.gate == None && !after)
  }

  /** The call number grows, or stays with the call no less over than before. */
  predicate CallStep(x: Runner, x': Runner) {
    x'.call > x.call || (x'.call == x.call && (PastExecution(x.pc) ==> PastExecution(x'.pc)))
  }

  /** Nothing was written that speaks about requests, answers or stops. */
  predicate QuietEvent(e: Event) {
    !e.Requested? && !e.Resolved? && !e.Stopped?
  }

  predicate QuietJournal(s: State, s': State) {
    || s'.journal == s.journal
    || (|s'.journal| == |s.journal| + 1 && s'.journal == s.journal + [s'.journal[|s.journal|]] && QuietEvent(s'.journal[|s.journal|]))
  }

  /** Only entries of runner `r` left the pending map, and the one it waited for did if
      the runner moved on from it. */
  predicate PendingStep(s: State, s': State, r: nat)
    requires r < |s.runners|
  {
    var pc := s.runners[r].pc;
    || (s'.pending == s.pending && (pc.Asked? && pc.id in s.pending ==> s.pending[pc.id].toolName == ASK_USER))
    || (pc.Asked? && s'.pending == s.pending - {pc.id})
    || (pc.Answering? && s'.pending == s.pending - {pc.id})
  }

  /** The call was executed now. */
  predicate ExecutedNow(s: State, s': State, r: nat)
    requires r < |s.runners| == |s'.runners|
  {
    && s.runners[r].pc.Allowed? && PastExecution(s'.runners[r].pc) && s'.runners[r].call == s.runners[r].call
    && |s'.journal| == |s.journal| + 1
    && s'.journal[|s.journal|].Executed?
    && s'.journal[|s.journal|].runner == r && s'.journal[|s.journal|].call == s.runners[r].call
  }

  predicate NothingExecuted(s: State, s': State) {
    |s'.journal| == |s.journal| + 1 ==> !s'.journal[|s.journal|].Executed?
  }

  /** Every runner step but the one that files a request. */
  predicate Ordinary(s: State, s': State, r: nat) {
    && OnlyMoved(s, s', r) && GateStep(s, s', r) && CallStep(s.runners[r], s'.runners[r])
    && s'.asked == s.asked && s.nextId <= s'.nextId && QuietJournal(s, s') && PendingStep(s, s', r)
    && (ExecutedNow(s, s', r) || NothingExecuted(s, s'))
  }

  lemma GateKept(s: State, s': State, r: nat)
    requires GateOk(s) && OnlyMoved(s, s', r) && GateStep(s, s', r)
    ensures GateOk(s')
  {}

  lemma OrdinaryJournal(s: State, s': State, id: string, r: nat)
    requires QuietJournal(s, s')
    ensures s.journal <= s'.journal
    ensures Verdict(s'.journal, id) == Verdict(s.journal, id)
    ensures Stopped(r) in s'.journal <==> Stopped(r) in s.journal
  {
    if s'.journal != s.journal {
      VerdictAppend(s.journal, s'.journal[|s.journal|], id);
    }
  }

  lemma OrdinaryKeepsLedger(s: State, s': State, r: nat)
    requires Ordinary(s, s', r) && LedgerOk(s) && StopsOk(s) && StopsKnown(s)
    ensures LedgerOk(s') && StopsOk(s') && StopsKnown(s')
  {
    hide Verdict, GateStep, CallStep, PendingStep, ExecutedNow, NothingExecuted;
    forall id | id !in s'.asked
      ensures Verdict(s'.journal, id) == None
    {
      OrdinaryJournal(s, s', id, 0);
    }
    forall q: nat
      ensures Stopped(q) in s'.journal <==> Stopped(q) in s.journal
    {
      OrdinaryJournal(s, s', "", q);
    }
  }

  lemma OrdinaryKeepsPending(s: State, s': State, r: nat)
    requires Ordinary(s, s', r) && PendingOk(s)
    ensures PendingOk(s')
  {
    hide Verdict, GateStep, CallStep, ExecutedNow, NothingExecuted;
    forall id | id in s'.pending
      ensures EntryOk(s', id)
    {
      assert id in s.pending && s'.pending[id] == s.pending[id] && EntryOk(s, id);
      OrdinaryJournal(s, s', id, 0);
    }
  }

  /** What the others know is not disturbed. */
  lemma OrdinaryKeepsOthers(s: State, s': State, r: nat, q: nat)
    requires Ordinary(s, s', r) && GateOk(s) && RunnersOk(s) && q < |s.runners| && q != r
    ensures PcOk(s', q, s'.runners[q])
  {
    hide Verdict, GateStep, CallStep, ExecutedNow, NothingExecuted;
    OrdinaryJournal(s, s', "", 0);
    assert PcOk(s, q, s.runners[q]) && PcOk(s, r, s.runners[r]);
    PcStays(s, s', q, s.runners[q]);
  }

  lemma OrdinaryKeepsOnce(s: State, s': State, r: nat)
    requires Ordinary(s, s', r) && OnceOk(s)
    ensures OnceOk(s')
  {
    hide Verdict, GateStep, PendingStep;
    OrdinaryJournal(s, s', "", 0);
    forall p | 0 <= p < |s'.journal| && s'.journal[p].Executed?
      ensures ExecutionOver(s', s'.journal[p])
    {
      if p < |s.journal| {
        assert ExecutionOver(s, s.journal[p]);
      }
    }
    forall p, q | 0 <= p < q < |s'.journal| && s'.journal[p].Executed? && s'.journal[q].Executed?
      ensures DifferentCalls(s'.journal[p], s'.journal[q])
    {
      assert ExecutionOver(s, s.journal[p]);
      if q < |s.journal| {
        assert DifferentCalls(s.journal[p], s.journal[q]);
      }
    }
  }

  /** So only the moved runner, and what it may have executed, is left to look at. */
  lemma OrdinaryKeepsInv(s: State, s': State, r: nat)
    requires Inv(s) && Ordinary(s, s', r)
    requires PcOk(s', r, s'.runners[r])
    requires ExecutedNow(s, s', r) ==> Justified(s', |s.journal|)
    ensures Inv(s')
  {
    GateKept(s, s', r);
    OrdinaryKeepsLedger(s, s', r);
    OrdinaryKeepsPending(s, s', r);
    OrdinaryKeepsOnce(s, s', r);
    OrdinaryJournal(s, s', "", 0);
    hide GateOk, LedgerOk, StopsOk, StopsKnown, PendingOk, OnceOk, PcOk, Justified, GateStep, CallStep, PendingStep;
    ExecutionsStay(s, s');
    forall q | 0 <= q < |s'.runners|
      ensures PcOk(s', q, s'.runners[q])
    {
      if q != r {
        OrdinaryKeepsOthers(s, s', r, q);
      }
    }
  }

  // ---------- the moved runner ----------

  lemma PlainStepKeeps(s: State, r: nat, a: RunnerAction)
    requires Inv(s) && r < |s.runners| && StepEnabled(s, r, a)
    requires a.Prepare? || a.LockGate? || a.CheckStop? || a.SkipWait? || a.ReleaseGate? || a.ReturnAnswer? || a.Finish?
    ensures Inv(ApplyStep(s, r, a))
  {
    hide LedgerOk, StopsOk, StopsKnown, PendingOk, ExecutionsOk, OnceOk, Grant, Verdict, Justified;
    var s' := ApplyStep(s, r, a);
    assert PcOk(s, r, s.runners[r]);
    assert Ordinary(s, s', r);
    assert PcOk(s', r, s'.runners[r]);
    OrdinaryKeepsInv(s, s', r);
  }

  lemma FetchKeeps(s: State, r: nat)
    requires Inv(s) && r < |s.runners| && StepEnabled(s, r, FetchId)
    ensures Inv(ApplyStep(s, r, FetchId))
  {
    var s', id := ApplyStep(s, r, FetchId), IdOf(s.nextId);
    if id in s.asked {
      IdOfInjective(s.asked[id].number, s.nextId);
      assert false;
    }
    hide LedgerOk, StopsOk, StopsKnown, PendingOk, ExecutionsOk, OnceOk, Grant, Verdict, Justified, IdOf;
    assert PcOk(s, r, s.runners[r]);
    assert Ordinary(s, s', r);
    OrdinaryKeepsInv(s, s', r);
  }

  /** A wait that returns with approval was granted, in the full sense. */
  lemma ReturnGrants(s: State, r: nat)
    requires Inv(s) && r < |s.runners| && StepEnabled(s, r, ReturnFromWait)
    requires ResolutionOf(s.pending, s.runners[r].pc.id, s.runners[r].stop).approved
    ensures var x := s.runners[r];
            Grant(ApplyReturn(s, r).journal, r, x.call, x.pc.id, x.pc.at, |s.journal|)
  {
    var x, s' := s.runners[r], ApplyReturn(s, r);
    assert PcOk(s, r, x);
    assert EntryOk(s, x.pc.id);
    assert s'.journal[..x.pc.at] == s.journal[..x.pc.at] && s'.journal[..|s.journal|] == s.journal;
  }

  lemma ReturnKeeps(s: State, r: nat)
    requires Inv(s) && r < |s.runners| && StepEnabled(s, r, ReturnFromWait)
    ensures Inv(ApplyStep(s, r, ReturnFromWait))
  {
    var x, s' := s.runners[r], ApplyStep(s, r, ReturnFromWait);
    if ResolutionOf(s.pending, x.pc.id, x.stop).approved {
      ReturnGrants(s, r);
    }
    hide LedgerOk, StopsOk, StopsKnown, PendingOk, ExecutionsOk, OnceOk, Grant, Verdict, Justified, ResolutionOf;
    assert PcOk(s, r, x);
    assert Ordinary(s, s', r);
    assert PcOk(s', r, s'.runners[r]);
    OrdinaryKeepsInv(s, s', r);
  }

  lemma JudgeIsOrdinary(s: State, r: nat)
    requires r < |s.runners| && StepEnabled(s, r, Judge)
    ensures Ordinary(s, ApplyJudge(s, r), r)
  {}

  lemma JudgeKeeps(s: State, r: nat)
    requires Inv(s) && r < |s.runners| && StepEnabled(s, r, Judge)
    ensures Inv(ApplyStep(s, r, Judge))
  {
    hide LedgerOk, StopsOk, StopsKnown, PendingOk, ExecutionsOk, OnceOk, Verdict, Justified, GateOk;
    var x, s' := s.runners[r], ApplyStep(s, r, Judge);
    assert PcOk(s, r, x);
    JudgeIsOrdinary(s, r);
    if s'.journal != s.journal {
      PermitStays(s, s', r, x, x.pc.permit);
    }
    assert PcOk(s', r, s'.runners[r]);
    hide PcOk, Ordinary, RunnersOk;
    OrdinaryKeepsInv(s, s', r);
  }

  lemma ExecuteKeeps(s: State, r: nat)
    requires Inv(s) && r < |s.runners| && StepEnabled(s, r, Execute)
    ensures Inv(ApplyStep(s, r, Execute))
  {
    var x, s' := s.runners[r], ApplyStep(s, r, Execute);
    hide LedgerOk, StopsOk, StopsKnown, PendingOk, ExecutionsOk, OnceOk, Verdict, Grant;
    assert PcOk(s, r, x);
    assert Ordinary(s, s', r);
    PermitStays(s, s', r, x, x.pc.permit);
    assert Justified(s', |s.journal|);
    assert PcOk(s', r, s'.runners[r]);
    OrdinaryKeepsInv(s, s', r);
  }

  // ---------- filing a request ----------

  lemma PendingIsRecorded(s: State)
    requires PendingOk(s)
    ensures forall id :: id in s.pending ==> id in s.asked
  {
    forall id | id in s.pending
      ensures id in s.asked
    {
      assert EntryOk(s, id);
    }
  }

  lemma InsertFrame(s: State, r: nat)
    requires Inv(s) && r < |s.runners| && StepEnabled(s, r, InsertRequest)
    ensures var x, s' := s.runners[r], ApplyInsert(s, r);
            var id := IdOf(x.pc.number);
            && id !in s.asked && id !in s.pending
            && s'.pending == s.pending[id := PendingApproval(x.tools[x.call].callId, x.tools[x.call].name, x.tools[x.call].args, None, None)]
            && Grew(s, s')
  {
    hide LedgerOk, StopsOk, StopsKnown, ExecutionsOk, OnceOk, Grant, Verdict, Justified;
    assert PcOk(s, r, s.runners[r]);
    PendingIsRecorded(s);
  }

  lemma InsertKeepsLedger(s: State, r: nat)
    requires Inv(s) && r < |s.runners| && StepEnabled(s, r, InsertRequest)
    ensures LedgerOk(ApplyInsert(s, r)) && StopsOk(ApplyInsert(s, r)) && StopsKnown(ApplyInsert(s, r))
    ensures GateOk(ApplyInsert(s, r))
  {
    InsertFrame(s, r);
    var x, s' := s.runners[r], ApplyInsert(s, r);
    assert PcOk(s, r, x);
    hide PendingOk, ExecutionsOk, OnceOk, Grant, Verdict, Justified, RunnersOk, IdOf;
    forall id | id !in s'.asked
      ensures Verdict(s'.journal, id) == None
    {
      VerdictAppend(s.journal, Requested(r, x.call, IdOf(x.pc.number)), id);
    }
  }

  lemma InsertKeepsPending(s: State, r: nat)
    requires Inv(s) && r < |s.runners| && StepEnabled(s, r, InsertRequest)
    ensures PendingOk(ApplyInsert(s, r))
  {
    InsertFrame(s, r);
    var x, s' := s.runners[r], ApplyInsert(s, r);
    hide LedgerOk, StopsOk, StopsKnown, ExecutionsOk, OnceOk, Grant, Verdict, Justified, RunnersOk, IdOf;
    forall id | id in s'.pending
      ensures EntryOk(s', id)
    {
      VerdictAppend(s.journal, Requested(r, x.call, IdOf(x.pc.number)), id);
      if id in s.pending {
        assert EntryOk(s, id);
      }
    }
  }

  lemma InsertKeepsRunners(s: State, r: nat)
    requires Inv(s) && r < |s.runners| && StepEnabled(s, r, InsertRequest)
    ensures RunnersOk(ApplyInsert(s, r))
  {
    InsertFrame(s, r);
    var x, s' := s.runners[r], ApplyInsert(s, r);
    var id := IdOf(x.pc.number);
    assert Verdict(s.journal, id) == None;
    hide LedgerOk, StopsOk, StopsKnown, PendingOk, ExecutionsOk, OnceOk, Grant, Verdict, Justified, IdOf;
    assert PcOk(s, r, x);
    assert s'.journal[..|s.journal|] == s.journal;
    assert PcOk(s', r, s'.runners[r]);
    forall q | 0 <= q < |s'.runners|
      ensures PcOk(s', q, s'.runners[q])
    {
      if q != r {
        assert PcOk(s, q, s.runners[q]);
        PcStays(s, s', q, s.runners[q]);
      }
    }
  }

  lemma InsertKeepsOnce(s: State, r: nat)
    requires Inv(s) && r < |s.runners| && StepEnabled(s, r, InsertRequest)
    ensures OnceOk(ApplyInsert(s, r))
  {
    var s' := ApplyInsert(s, r);
    InsertFrame(s, r);
    hide LedgerOk, StopsOk, StopsKnown, PendingOk, RunnersOk, GateOk, ExecutionsOk, Verdict, IdOf;
    forall p | 0 <= p < |s'.journal| && s'.journal[p].Executed?
      ensures ExecutionOver(s', s'.journal[p])
    {
      assert ExecutionOver(s, s.journal[p]);
    }
  }

  lemma InsertKeeps(s: State, r: nat)
    requires Inv(s) && r < |s.runners| && StepEnabled(s, r, InsertRequest)
    ensures Inv(ApplyStep(s, r, InsertRequest))
  {
    var s' := ApplyInsert(s, r);
    InsertFrame(s, r);
    InsertKeepsLedger(s, r);
    InsertKeepsPending(s, r);
    InsertKeepsRunners(s, r);
    hide LedgerOk, StopsOk, StopsKnown, PendingOk, RunnersOk, GateOk, Grant, Verdict, Justified, IdOf;
    ExecutionsStay(s, s');
    InsertKeepsOnce(s, r);
    hide OnceOk;
  }

  lemma RunnerStepKeeps(s: State, r: nat, a: RunnerAction)
    requires Inv(s) && r < |s.runners| && StepEnabled(s, r, a)
    ensures Inv(ApplyStep(s, r, a))
  {
    hide Inv, ApplyStep, StepEnabled;
    match a
    case FetchId => FetchKeeps(s, r);
    case InsertRequest => InsertKeeps(s, r);
    case ReturnFromWait => ReturnKeeps(s, r);
    case Judge => JudgeKeeps(s, r);
    case Execute => ExecuteKeeps(s, r);
    case _ => PlainStepKeeps(s, r, a);
  }

  // ---------- the other threads ----------

  /** The runners stay where they are, with whatever was pending still pending. */
  predicate Outside(s: State, s': State) {
    && s'.gate == s.gate && s'.nextId == s.nextId && s'.asked == s.asked && s'.runners == s.runners
    && s.journal <= s'.journal && |s'.journal| <= |s.journal| + 1
    && (|s'.journal| == |s.journal| + 1 ==> s'.journal[|s.journal|].Resolved?)
    && s'.pending.Keys == s.pending.Keys
    && forall id :: id in s.pending ==> s'.pending[id].toolName == s.pending[id].toolName
  }

  lemma OutsideKeepsRest(s: State, s': State)
    requires Inv(s) && Outside(s, s')
    ensures GateOk(s') && StopsOk(s') && StopsKnown(s') && RunnersOk(s') && ExecutionsOk(s') && OnceOk(s')
  {
    hide LedgerOk, PendingOk, Grant, Verdict, Justified, PcOk;
    ExecutionsStay(s, s');
    forall q | 0 <= q < |s'.runners|
      ensures PcOk(s', q, s'.runners[q])
    {
      assert PcOk(s, q, s.runners[q]);
      PendingWhileAsked(s, q);
      PcStays(s, s', q, s.runners[q]);
    }
    OutsideKeepsOnce(s, s');
  }

  lemma PendingWhileAsked(s: State, q: nat)
    requires q < |s.runners| && PcOk(s, q, s.runners[q])
    ensures s.runners[q].pc.Asked? ==> s.runners[q].pc.id in s.pending
  {}

  lemma OutsideKeepsOnce(s: State, s': State)
    requires OnceOk(s) && Outside(s, s')
    ensures OnceOk(s')
  {
    forall p | 0 <= p < |s'.journal| && s'.journal[p].Executed?
      ensures ExecutionOver(s', s'.journal[p])
    {
      assert ExecutionOver(s, s.journal[p]);
    }
    forall p, q | 0 <= p < q < |s'.journal| && s'.journal[p].Executed? && s'.journal[q].Executed?
      ensures DifferentCalls(s'.journal[p], s'.journal[q])
    {
      assert DifferentCalls(s.journal[p], s.journal[q]);
    }
  }

  lemma ResolveKeeps(s: State, id: string, approved: bool, response: Option<string>)
    requires Inv(s) && id in s.pending
    ensures Inv(Logged(s.(pending := Resolve(s.pending, id, approved, response)), Resolved(id, approved)))
  {
    var s' := Logged(s.(pending := Resolve(s.pending, id, approved, response)), Resolved(id, approved));
    assert EntryOk(s, id);
    OutsideKeepsRest(s, s');
    hide GateOk, StopsOk, StopsKnown, RunnersOk, ExecutionsOk, OnceOk, Verdict;
    forall k | k !in s'.asked
      ensures Verdict(s'.journal, k) == None
    {
      VerdictAppend(s.journal, Resolved(id, approved), k);
    }
    forall k | k in s'.pending
      ensures EntryOk(s', k)
    {
      assert EntryOk(s, k);
      VerdictAppend(s.journal, Resolved(id, approved), k);
    }
  }

  lemma CancelKeeps(s: State)
    requires Inv(s)
    ensures Inv(s.(pending := CancelAll(s.pending)))
  {
    var s' := s.(pending := CancelAll(s.pending));
    OutsideKeepsRest(s, s');
    hide GateOk, StopsOk, StopsKnown, RunnersOk, ExecutionsOk, OnceOk, Verdict;
    forall k | k in s'.pending
      ensures EntryOk(s', k)
    {
      assert EntryOk(s, k);
    }
  }

  lemma SpawnKeeps(s: State, tools: seq<Tool>)
    requires Inv(s)
    ensures Inv(ApplyOther(s, Spawn(tools)))
  {
    var s' := ApplyOther(s, Spawn(tools));
    hide Grant, Verdict, Justified;
    ExecutionsStay(s, s');
    forall q | 0 <= q < |s'.runners|
      ensures PcOk(s', q, s'.runners[q])
    {
      if q < |s.runners| {
        assert PcOk(s, q, s.runners[q]);
        PcStays(s, s', q, s.runners[q]);
      }
    }
    hide PcOk;
    forall id | id in s'.pending
      ensures EntryOk(s', id)
    {
      assert EntryOk(s, id);
    }
    SpawnKeepsOnce(s, tools);
  }

  lemma SpawnKeepsOnce(s: State, tools: seq<Tool>)
    requires OnceOk(s)
    ensures OnceOk(ApplyOther(s, Spawn(tools)))
  {
    var s' := ApplyOther(s, Spawn(tools));
    forall p | 0 <= p < |s'.journal| && s'.journal[p].Executed?
      ensures ExecutionOver(s', s'.journal[p])
    {
      assert ExecutionOver(s, s.journal[p]);
    }
  }

  lemma StopKeeps(s: State, r: nat)
    requires Inv(s) && r < |s.runners|
    ensures Inv(ApplyOther(s, RequestStop(r)))
  {
    var s' := ApplyOther(s, RequestStop(r));
    StopKeepsLedger(s, r);
    StopKeepsOnce(s, r);
    hide LedgerOk, StopsOk, StopsKnown, OnceOk, Grant, Verdict, Justified, PendingOk;
    ExecutionsStay(s, s');
    forall q | 0 <= q < |s'.runners|
      ensures PcOk(s', q, s'.runners[q])
    {
      assert PcOk(s, q, s.runners[q]);
      PcStays(s, s', q, s.runners[q]);
    }
  }

  lemma StopKeepsLedger(s: State, r: nat)
    requires r < |s.runners| && LedgerOk(s) && StopsOk(s) && StopsKnown(s) && PendingOk(s)
    ensures var s' := ApplyOther(s, RequestStop(r));
            LedgerOk(s') && StopsOk(s') && StopsKnown(s') && PendingOk(s')
  {
    var s' := ApplyOther(s, RequestStop(r));
    hide Verdict;
    forall id | id !in s'.asked
      ensures Verdict(s'.journal, id) == None
    {
      VerdictAppend(s.journal, Stopped(r), id);
    }
    forall id | id in s'.pending
      ensures EntryOk(s', id)
    {
      assert EntryOk(s, id);
      VerdictAppend(s.journal, Stopped(r), id);
    }
  }

  lemma StopKeepsOnce(s: State, r: nat)
    requires r < |s.runners| && OnceOk(s)
    ensures OnceOk(ApplyOther(s, RequestStop(r)))
  {
    var s' := ApplyOther(s, RequestStop(r));
    forall p | 0 <= p < |s'.journal| && s'.journal[p].Executed?
      ensures ExecutionOver(s', s'.journal[p])
    {
      assert ExecutionOver(s, s.journal[p]);
    }
  }

  lemma OtherStepKeeps(s: State, a: OtherAction)
    requires Inv(s)
    ensures Inv(ApplyOther(s, a))
  {
    hide GateOk, LedgerOk, StopsOk, StopsKnown, PendingOk, RunnersOk, ExecutionsOk, OnceOk;
    match a
    case Spawn(tools) => SpawnKeeps(s, tools);
    case RequestStop(r) =>
      if r < |s.runners| {
        StopKeeps(s, r);
      }
    case ResolveTool(id, approved) =>
      if id in s.pending {
        ResolveKeeps(s, id, approved, None);
      }
    case ResolveAsk(id, response) =>
      if id in s.pending {
        ResolveKeeps(s, id, true, Some(response));
      }
    case CancelPending => CancelKeeps(s);
    case SetMode(mode) => SetModeKeeps(s, mode);
  }

  lemma SetModeKeeps(s: State, mode: Mode)
    requires Inv(s)
    ensures Inv(s.(mode := mode))
  {
    var s' := s.(mode := mode);
    OutsideKeepsRest(s, s');
    forall id | id in s'.pending
      ensures EntryOk(s', id)
    {
      assert EntryOk(s, id);
    }
  }

  lemma StepKeepsInv(s: State, a: Action)
    requires Inv(s) && Enabled(s, a)
    ensures Inv(Apply(s, a))
  {
    hide Inv, ApplyOther, ApplyStep;
    match a
    case ByOthers(other) => OtherStepKeeps(s, other);
    case ByRunner(r, step) => RunnerStepKeeps(s, r, step);
  }

  lemma {:induction false} InvAlways(s: State, trace: seq<Action>)
    requires Inv(s) && Possible(s, trace)
    ensures Inv(After(s, trace))
    decreases |trace|
  {
    hide Inv, Enabled, Apply;
    if trace == [] {
    } else {
      StepKeepsInv(s, trace[0]);
      InvAlways(Apply(s, trace[0]), trace[1..]);
    }
  }
}
