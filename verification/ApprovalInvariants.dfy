/** What every step of the approval protocol keeps. */
module ApprovalInvariants {
  import opened Numerals
  import opened ToolApproval
  import opened ApprovalMachine

  // ---------- the journal ----------

  /** How the user last resolved `id`. */
  function Verdict(journal: seq<Event>, id: string): Option<bool> {
    if journal == [] then None
    else
      var e := journal[|journal| - 1];
      if e.Resolved? && e.id == id then Some(e.approved) else Verdict(journal[..|journal| - 1], id)
  }

  lemma VerdictAppend(journal: seq<Event>, e: Event, id: string)
    ensures Verdict(journal + [e], id) == if e.Resolved? && e.id == id then Some(e.approved) else Verdict(journal, id)
  {
    assert (journal + [e])[..|journal|] == journal;
  }

  /** Call `c` of runner `r` asked under `id` at position `i` and got a positive answer
      at `k`, with no stop requested by then. */
  ghost predicate Grant(journal: seq<Event>, r: nat, c: nat, id: string, i: nat, k: nat) {
    && i < k < |journal|
    && journal[i] == Requested(r, c, id)
    && Verdict(journal[..i], id) == None
    && journal[k] == Returned(r, c, id, true)
    && Verdict(journal[..k], id) == Some(true)
    && Stopped(r) !in journal[..k]
  }

  lemma GrantStays(journal: seq<Event>, journal': seq<Event>, r: nat, c: nat, id: string, i: nat, k: nat)
    requires Grant(journal, r, c, id, i, k) && journal <= journal'
    ensures Grant(journal', r, c, id, i, k)
  {
    assert journal'[..i] == journal[..i] && journal'[..k] == journal[..k];
  }

  // ---------- the invariant ----------

  /** Exactly one runner, or none, is between locking the gate and releasing it. */
  ghost predicate GateOk(s: State) {
    && (s.gate.Some? ==> s.gate.value < |s.runners|)
    && forall r :: 0 <= r < |s.runners| ==> (Holding(s.runners[r].pc) <==> s.gate == Some(r))
  }

  predicate Recorded(s: State, id: string, r: nat, c: nat, at: nat) {
    id in s.asked && s.asked[id].runner == r && s.asked[id].call == c && s.asked[id].at == at
  }

  /** Every request in the journal is in the ledger and every id in the ledger was
      minted, so no id is requested twice. */
  ghost predicate LedgerOk(s: State) {
    && (forall id :: id in s.asked ==> id == IdOf(s.asked[id].number) && s.asked[id].number < s.nextId)
    && (forall q :: 0 <= q < |s.journal| && s.journal[q].Requested? ==>
          Recorded(s, s.journal[q].id, s.journal[q].runner, s.journal[q].call, q))
    && (forall id :: id !in s.asked ==> Verdict(s.journal, id) == None)
  }

  ghost predicate StopsOk(s: State) {
    forall r: nat :: r < |s.runners| ==> (s.runners[r].stop <==> Stopped(r) in s.journal)
  }

  ghost predicate StopsKnown(s: State) {
    forall r: nat :: Stopped(r) in s.journal ==> r < |s.runners|
  }

  /** An entry that is not a question to the user belongs to a runner that is waiting
      for it, and so holds the gate. */
  ghost predicate EntryOk(s: State, id: string)
    requires id in s.pending
  {
    && id in s.asked && s.asked[id].runner < |s.runners|
    && (s.pending[id].approved == Some(true) ==> Verdict(s.journal, id) == Some(true))
    && (s.pending[id].toolName != ASK_USER ==> s.runners[s.asked[id].runner].pc == Asked(id, s.asked[id].at))
  }

  ghost predicate PendingOk(s: State) {
    forall id :: id in s.pending ==> EntryOk(s, id)
  }

  ghost predicate PermitOk(s: State, r: nat, x: Runner, permit: Permit)
    requires x.call < |x.tools|
  {
    match permit
    case Unneeded => !x.prep.requiresApproval
    case Failed => x.prep.failed
    case Rejected => true
    case AskUser(id) => x.tools[x.call].name == ASK_USER && id in s.asked && s.asked[id].runner == r
    case Granted(id, i, k) => Recorded(s, id, r, x.call, i) && Grant(s.journal, r, x.call, id, i, k)
  }

  ghost predicate PcOk(s: State, r: nat, x: Runner) {
    && (x.pc.AtLoop? || x.pc.Done? || x.call < |x.tools|)
    && (match x.pc
        case Fetched(number) => IdOf(number) !in s.asked && number < s.nextId
        case Asked(id, at) =>
          && Recorded(s, id, r, x.call, at) && at < |s.journal| && s.journal[at] == Requested(r, x.call, id)
          && Verdict(s.journal[..at], id) == None
          && id in s.pending && s.pending[id].toolName == x.tools[x.call].name
        case Leaving(permit) => PermitOk(s, r, x, permit)
        case Judged(permit) => PermitOk(s, r, x, permit)
        case Allowed(permit, at) =>
          && PermitOk(s, r, x, permit) && !permit.Failed? && !permit.Rejected?
          && at < |s.journal| && s.journal[at] == ModeAllowed(r, x.call)
          && (permit.Granted? ==> permit.returnedAt < at)
        case Answering(id) => id in s.asked && s.asked[id].runner == r
        case _ => true)
  }

  ghost predicate RunnersOk(s: State) {
    forall r :: 0 <= r < |s.runners| ==> PcOk(s, r, s.runners[r])
  }

  /** The execution at `p` was checked against the mode, and if it needed approval it had it. */
  ghost predicate Justified(s: State, p: nat)
    requires p < |s.journal| && s.journal[p].Executed?
  {
    var e := s.journal[p];
    && e.checkedAt < p && s.journal[e.checkedAt] == ModeAllowed(e.runner, e.call)
    && (e.prep.requiresApproval && e.tool.name != ASK_USER ==> e.permit.Granted?)
    && (e.permit.Granted? ==>
          && e.permit.returnedAt < e.checkedAt
          && Recorded(s, e.permit.id, e.runner, e.call, e.permit.requestedAt)
          && Grant(s.journal, e.runner, e.call, e.permit.id, e.permit.requestedAt, e.permit.returnedAt))
  }

  ghost predicate ExecutionsOk(s: State) {
    forall p :: 0 <= p < |s.journal| && s.journal[p].Executed? ==> Justified(s, p)
  }

  predicate PastExecution(pc: Pc) {
    pc.Answering? || pc.Finishing? || pc.Done?
  }

  predicate ExecutionOver(s: State, e: Event)
    requires e.Executed?
  {
    && e.runner < |s.runners|
    && (e.call < s.runners[e.runner].call || (e.call == s.runners[e.runner].call && PastExecution(s.runners[e.runner].pc)))
  }

  predicate DifferentCalls(e: Event, e': Event)
    requires e.Executed? && e'.Executed?
  {
    e.runner != e'.runner || e.call != e'.call
  }

  /** No call runs twice. */
  ghost predicate OnceOk(s: State) {
    && (forall p :: 0 <= p < |s.journal| && s.journal[p].Executed? ==> ExecutionOver(s, s.journal[p]))
    && forall p, q :: 0 <= p < q < |s.journal| && s.journal[p].Executed? && s.journal[q].Executed? ==>
         DifferentCalls(s.journal[p], s.journal[q])
  }

  ghost predicate Inv(s: State) {
    && GateOk(s) && LedgerOk(s) && StopsOk(s) && StopsKnown(s)
    && PendingOk(s) && RunnersOk(s) && ExecutionsOk(s) && OnceOk(s)
  }

  // ---------- growth ----------

  ghost predicate Grew(s: State, s': State) {
    && s.journal <= s'.journal && s.nextId <= s'.nextId && |s.runners| <= |s'.runners|
    && forall id :: id in s.asked ==> id in s'.asked && s'.asked[id] == s.asked[id]
  }

  lemma PermitStays(s: State, s': State, r: nat, x: Runner, permit: Permit)
    requires Grew(s, s') && x.call < |x.tools| && PermitOk(s, r, x, permit)
    ensures PermitOk(s', r, x, permit)
  {
    if permit.Granted? {
      GrantStays(s.journal, s'.journal, r, x.call, permit.id, permit.requestedAt, permit.returnedAt);
    }
  }

  /** A runner that did not move keeps its facts, if its own entry was left alone. */
  lemma PcStays(s: State, s': State, r: nat, x: Runner)
    requires Grew(s, s') && PcOk(s, r, x)
    requires x.pc.Fetched? ==> s'.asked == s.asked
    requires x.pc.Asked? ==> x.pc.id in s'.pending && (x.pc.id in s.pending ==> s'.pending[x.pc.id].toolName == s.pending[x.pc.id].toolName)
    ensures PcOk(s', r, x)
  {
    hide Grant;
    match x.pc
    case Leaving(permit) => PermitStays(s, s', r, x, permit);
    case Judged(permit) => PermitStays(s, s', r, x, permit);
    case Allowed(permit, _) => PermitStays(s, s', r, x, permit);
    case Asked(id, at) => assert s'.journal[..at] == s.journal[..at];
    case _ =>
  }

  lemma JustifiedStays(s: State, s': State, p: nat)
    requires Grew(s, s') && p < |s.journal| && s.journal[p].Executed? && Justified(s, p)
    ensures Justified(s', p)
  {
    var e := s.journal[p];
    if e.permit.Granted? {
      GrantStays(s.journal, s'.journal, e.runner, e.call, e.permit.id, e.permit.requestedAt, e.permit.returnedAt);
    }
  }

  lemma ExecutionsStay(s: State, s': State)
    requires Grew(s, s') && ExecutionsOk(s)
    requires |s'.journal| <= |s.journal| + 1
    requires |s'.journal| == |s.journal| + 1 && s'.journal[|s.journal|].Executed? ==> Justified(s', |s.journal|)
    ensures ExecutionsOk(s')
  {
    forall p | 0 <= p < |s'.journal| && s'.journal[p].Executed?
      ensures Justified(s', p)
    {
      if p < |s.journal| {
        JustifiedStays(s, s', p);
      }
    }
  }
}
