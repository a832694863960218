/** Approvals that are waiting for the user's word. */
module ToolApproval {
  import opened Numerals

  datatype PendingApproval = PendingApproval(
    toolCallId: string,
    toolName: string,
    toolArgs: string,
    approved: Option<bool>,
    response: Option<string>)

  datatype Resolution = Resolution(approved: bool, response: string)

  const REFUSED := Resolution(false, "")

  function IdOf(number: nat): string {
    "tool-" + ToDecimal(number)
  }

  lemma IdOfInjective(m: nat, n: nat)
    requires IdOf(m) == IdOf(n)
    ensures m == n
  {
    assert IdOf(m)[5..] == ToDecimal(m) && IdOf(n)[5..] == ToDecimal(n);
    DecimalInjective(m, n);
  }

  // ---------- the pending map ----------

  type Pending = map<string, PendingApproval>

  function Resolve(pending: Pending, id: string, approved: bool, response: Option<string>): Pending {
    if id !in pending then pending
    else
      var entry := pending[id];
      pending[id := entry.(approved := Some(approved), response := if response.Some? then response else entry.response)]
  }

  function Cancelled(entry: PendingApproval): PendingApproval {
    if entry.approved.None? then entry.(approved := Some(false)) else entry
  }

  function CancelAll(pending: Pending): Pending {
    map id | id in pending :: Cancelled(pending[id])
  }

  /** What a waiting runner wakes up for. */
  predicate WaitOver(pending: Pending, id: string, stop: bool) {
    id !in pending || pending[id].approved.Some? || stop
  }

  function ResolutionOf(pending: Pending, id: string, stop: bool): Resolution {
    if id in pending && pending[id].approved.Some? && !stop then
      Resolution(pending[id].approved.value,
                 if pending[id].response.Some? then pending[id].response.value else "")
    else REFUSED
  }

  method CancelEntries(pending: Pending) returns (r: Pending)
    ensures r == CancelAll(pending)
    ensures forall id :: id in pending ==> id in r && r[id].approved.Some?
    ensures forall id :: id in pending && pending[id].approved.Some? ==> r[id] == pending[id]
  {
    r := pending;
    var todo := r.Keys;
    while todo != {}
      invariant todo <= r.Keys == pending.Keys
      invariant forall id :: id in todo ==> r[id] == pending[id]
      invariant forall id :: id in r && id !in todo ==> r[id] == Cancelled(pending[id])
      decreases |todo|
    {
      var id :| id in todo;
      if r[id].approved.None? {
        r := r[id := r[id].(approved := Some(false))];
      }
      todo := todo - {id};
    }
  }

  class ToolApprovalManager {
    var pending: Pending
    var nextApprovalId: nat

    /** Every id that waits was minted here. */
    ghost predicate Valid()
      reads this
    {
      forall id :: id in pending ==> exists n: nat :: n < nextApprovalId && id == IdOf(n)
    }

    constructor ()
      ensures Valid() && pending == map[] && nextApprovalId == 1
    {
      pending, nextApprovalId := map[], 1;
    }

    method RequestApproval(toolCallId: string, toolName: string, toolArgs: string) returns (id: string)
      requires Valid()
      modifies this
      ensures Valid() && id !in old(pending) && id == IdOf(old(nextApprovalId))
      ensures pending == old(pending)[id := PendingApproval(toolCallId, toolName, toolArgs, None, None)]
      ensures nextApprovalId == old(nextApprovalId) + 1
    {
      id := "tool-" + ToDecimal(nextApprovalId);
      if id in pending {
        var n: nat :| n < nextApprovalId && id == IdOf(n);
        IdOfInjective(n, nextApprovalId);
        assert false;
      }
      assert id == IdOf(nextApprovalId);
      nextApprovalId := nextApprovalId + 1;
      if id !in pending {
        pending := pending[id := PendingApproval(toolCallId, toolName, toolArgs, None, None)];
      }
    }

    method ResolveToolApproval(id: string, approved: bool)
      requires Valid()
      modifies `pending
      ensures Valid() && pending == Resolve(old(pending), id, approved, None)
      ensures id in old(pending) ==> pending[id] == old(pending)[id].(approved := Some(approved))
      ensures forall other :: other in old(pending) && other != id ==> other in pending && pending[other] == old(pending)[other]
      ensures pending.Keys == old(pending).Keys
    {
      if id !in pending {
        return;
      }
      pending := pending[id := pending[id].(approved := Some(approved))];
    }

    method ResolveAskUser(id: string, response: string)
      requires Valid()
      modifies `pending
      ensures Valid() && pending == Resolve(old(pending), id, true, Some(response))
      ensures id in old(pending) ==> pending[id].approved == Some(true) && pending[id].response == Some(response)
      ensures forall other :: other in old(pending) && other != id ==> other in pending && pending[other] == old(pending)[other]
      ensures pending.Keys == old(pending).Keys
    {
      if id !in pending {
        return;
      }
      pending := pending[id := pending[id].(approved := Some(true), response := Some(response))];
    }

    /** Everything undecided is refused; what was decided stays as it was. */
    method CancelPending()
      requires Valid()
      modifies `pending
      ensures Valid() && pending == CancelAll(old(pending))
    {
      if pending == map[] {
        return;
      }
      pending := CancelEntries(pending);
    }

    method IsAwaitingApproval() returns (awaiting: bool)
      ensures awaiting <==> exists id :: id in pending && pending[id].approved.None?
    {
      var todo := pending.Keys;
      while todo != {}
        invariant todo <= pending.Keys
        invariant forall id :: id in pending && id !in todo ==> pending[id].approved.Some?
        decreases |todo|
      {
        var id :| id in todo;
        if pending[id].approved.None? {
          return true;
        }
        todo := todo - {id};
      }
      return false;
    }

    /** What follows once the wait is over: the answer counts only if it is there and no
        stop was requested, and the entry is gone in every case. */
    method WaitForResolution(id: string, stop: bool) returns (resolution: Resolution)
      requires Valid() && WaitOver(pending, id, stop)
      modifies `pending
      ensures Valid() && pending == old(pending) - {id}
      ensures resolution == ResolutionOf(old(pending), id, stop)
      ensures resolution.approved <==> !stop && id in old(pending) && old(pending)[id].approved == Some(true)
      ensures !stop && id in old(pending) && old(pending)[id].approved.Some? && old(pending)[id].response.Some? ==>
                resolution.response == old(pending)[id].response.value
      ensures stop || id !in old(pending) || old(pending)[id].approved.None? || old(pending)[id].response.None? ==>
                resolution.response == ""
    {
      if id !in pending || pending[id].approved.None? || stop {
        if id in pending {
          pending := pending - {id};
        }
        return REFUSED;
      }
      resolution := Resolution(pending[id].approved.value,
                               if pending[id].response.Some? then pending[id].response.value else "");
      pending := pending - {id};
    }
  }
}
