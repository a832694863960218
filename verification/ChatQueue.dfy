/** Prompts are served in the order in which they were asked for, and none is lost but
    those a reset drops. */
module ChatQueue {
  import opened ChatTypes
  import opened Compaction
  import opened ChatMachine
  import opened ChatInvariants
  import opened ChatRounds
  import opened ChatEvents
  import opened ChatTheorems

  function PromptsOf(runs: seq<Run>): (prompts: seq<Prompt>)
    ensures |prompts| == |runs|
  {
    seq(|runs|, i requires 0 <= i < |runs| => runs[i].prompt)
  }

  /** The prompts of the runs that are over, of the one under way, and of the queue. */
  function Asked(s: State): seq<Prompt> {
    Begun(s) + s.pending
  }

  function Begun(s: State): seq<Prompt> {
    PromptsOf(s.past) + (if s.worker.Idle? then [] else [s.run.prompt])
  }

  function Contents(prompts: seq<Prompt>): (r: seq<string>)
    ensures |r| == |prompts|
  {
    seq(|prompts|, i requires 0 <= i < |prompts| => prompts[i].content)
  }

  predicate Increasing(prompts: seq<Prompt>) {
    forall i, j :: 0 <= i < j < |prompts| ==> prompts[i].id < prompts[j].id
  }

  predicate Below(prompts: seq<Prompt>, bound: nat) {
    forall i :: 0 <= i < |prompts| ==> prompts[i].id < bound
  }

  /** What a step asks for: a message of the user, or a continuation that finds the
      engine idle. */
  function AskedBy(s: State, a: Action): (asked: seq<string>)
    ensures |asked| <= 1
  {
    match a
    case ByOthers(Submit(content)) => [content]
    case ByOthers(Inject(body)) => if !s.active && s.pending == [] then [body] else []
    case _ => []
  }

  function AskedAlong(s: State, trace: seq<Action>): seq<string>
    requires Possible(s, trace)
    decreases |trace|
  {
    if trace == [] then [] else AskedBy(s, trace[0]) + AskedAlong(Apply(s, trace[0]), trace[1..])
  }

  /** The prompt that enters the queue on a request, if there is one. */
  function Queued(id: nat, asked: seq<string>): seq<Prompt> {
    if asked == [] then [] else [Prompt(id, asked[0])]
  }

  predicate DropsQueue(a: Action) {
    a.ByOthers? && a.other.ResetClearQueue?
  }

  /** The queue and the counter of ids, over a step that neither begins nor ends a run. */
  predicate SameQueue(s: State, s': State) {
    s'.pending == s.pending && s'.nextId >= s.nextId && s'.closing == s.closing
  }

  lemma EntryKeepsQueue(s: State, a: EntryAction)
    requires EntryEnabled(s, a) && !a.Pop?
    ensures SameQueue(s, ApplyEntry(s, a))
  {
    hide Compacted, Removed, Truncated, CompactNow;
    if a.ChooseCompaction? && a.plan.Truncate? {
      CompactNowWorker(s, Truncated(s.history, a.plan.keep), Removed(s.history, a.plan.keep));
    } else if a.ReceiveSummary? {
      var keep := s.worker.keep;
      CompactNowWorker(s, Truncated(s.history, keep), Removed(s.history, keep));
      if a.summary.Written? {
        CompactNowWorker(s, Compacted(s.history, keep, SummaryNote(a.summary.text)), Removed(s.history, keep));
      }
    }
  }

  lemma RoundKeepsQueue(s: State, a: RoundAction)
    requires RoundEnabled(s, a)
    ensures SameQueue(s, ApplyRound(s, a))
  {
    if a.Receive? {
      SinkKeepsQueue(s, s.worker.round, a.event);
    }
    hide Sink;
  }

  lemma SinkKeepsQueue(s: State, round: Round, e: ProviderEvent)
    ensures SameQueue(s, Sink(s, round, e))
  {}

  lemma ToolKeepsQueue(s: State, a: ToolAction)
    requires ToolEnabled(s, a)
    ensures SameQueue(s, ApplyTool(s, a))
  {}

  lemma EndKeepsQueue(s: State, a: EndAction)
    requires EndEnabled(s, a)
    ensures SameQueue(s, ApplyEnd(s, a))
  {}

  lemma QuietQueue(s: State, a: Action)
    requires Enabled(s, a) && Quiet(a)
    ensures SameQueue(s, Apply(s, a))
  {
    hide ApplyEntry, ApplyRound, ApplyTool, ApplyEnd, SameQueue;
    match a
    case AtEntry(e) => EntryKeepsQueue(s, e);
    case InRound(r) => RoundKeepsQueue(s, r);
    case InTools(t) => ToolKeepsQueue(s, t);
    case AtEnd(e) => EndKeepsQueue(s, e);
  }

  lemma QuietKeepsQueue(s: State, a: Action)
    requires Enabled(s, a) && Quiet(a)
    ensures SameQueue(s, Apply(s, a)) && Begun(Apply(s, a)) == Begun(s)
  {
    hide Apply, SameQueue;
    QuietFrame(s, a);
    QuietQueue(s, a);
    SameBegun(s, Apply(s, a));
  }

  lemma SameBegun(s: State, s': State)
    requires QuietStep(s, s')
    ensures Begun(s') == Begun(s)
  {}

  lemma OthersAsk(s: State, a: OtherAction)
    requires OtherEnabled(s, a)
    ensures var s' := ApplyOther(s, a);
            && Begun(s') == Begun(s) && s'.nextId >= s.nextId + |AskedBy(s, ByOthers(a))|
            && s'.pending == if a.ResetClearQueue? then [] else
                 s.pending + Queued(s.nextId, AskedBy(s, ByOthers(a)))
  {
    hide Truncated;
    OthersMoveForward(s, a);
  }

  /** Taking a prompt and being done with it move prompts along, nothing else. */
  lemma PromptsMove(s: State, a: Action)
    requires Enabled(s, a) && !Quiet(a) && !a.ByOthers?
    ensures Asked(Apply(s, a)) == Asked(s) && Apply(s, a).nextId == s.nextId
  {
    var s' := Apply(s, a);
    if a == AtEntry(Pop) {
      assert s.pending == [s.pending[0]] + s.pending[1..];
    } else if a == AtEnd(Drain) {
      assert PromptsOf(s'.past) == PromptsOf(s.past) + [s.run.prompt];
    }
  }

  lemma AskedStep(s: State, a: Action)
    requires Enabled(s, a)
    ensures var s' := Apply(s, a);
            && s'.nextId >= s.nextId + |AskedBy(s, a)|
            && Asked(s') == if DropsQueue(a) then Begun(s) else
                 Asked(s) + Queued(s.nextId, AskedBy(s, a))
  {
    var s' := Apply(s, a);
    if Quiet(a) {
      QuietKeepsQueue(s, a);
      hide Apply;
    } else if a.ByOthers? {
      OthersAsk(s, a.other);
      hide ApplyOther, Begun;
    } else {
      PromptsMove(s, a);
      hide Apply, Asked;
    }
  }

  lemma OrderStep(s: State, a: Action)
    requires Enabled(s, a) && Increasing(Asked(s)) && Below(Asked(s), s.nextId)
    ensures Increasing(Asked(Apply(s, a))) && Below(Asked(Apply(s, a)), Apply(s, a).nextId)
  {
    AskedStep(s, a);
    hide Apply, Enabled, Asked, AskedBy;
    if DropsQueue(a) {
      BegunIsAsked(s);
    }
  }

  lemma BegunIsAsked(s: State)
    ensures Begun(s) <= Asked(s)
  {}

  lemma {:induction false} OrderAlways(s: State, trace: seq<Action>)
    requires Possible(s, trace) && Increasing(Asked(s)) && Below(Asked(s), s.nextId)
    ensures Increasing(Asked(After(s, trace))) && Below(Asked(After(s, trace)), After(s, trace).nextId)
    decreases |trace|
  {
    hide Enabled, Apply, Asked, Increasing, Below;
    if trace == [] {
    } else {
      OrderStep(s, trace[0]);
      OrderAlways(Apply(s, trace[0]), trace[1..]);
    }
  }

  /** First come, first served: after any steps of any threads the prompts of the runs so
      far, then of the one under way, then of the queue, have increasing ids, and ids are
      given out in increasing order. */
  lemma PromptsAreServedInOrder(trace: seq<Action>)
    requires Possible(INIT, trace)
    ensures var s := After(INIT, trace);
            var asked := PromptsOf(s.past) + (if s.worker.Idle? then [] else [s.run.prompt]) + s.pending;
            && (forall i, j :: 0 <= i < j < |asked| ==> asked[i].id < asked[j].id)
            && (forall i :: 0 <= i < |asked| ==> asked[i].id < s.nextId)
  {
    assert Asked(INIT) == [];
    OrderAlways(INIT, trace);
  }

  /** The queue holds what was asked for longest in front, and the runs that are over come
      in their order. */
  lemma OldestFirst(s: State, trace: seq<Action>)
    requires Possible(INIT, trace) && After(INIT, trace) == s
    ensures forall i :: 0 < i < |s.pending| ==> s.pending[0].id < s.pending[i].id
    ensures forall j, k :: 0 <= j < k < |s.past| ==> s.past[j].prompt.id < s.past[k].prompt.id
  {
    assert Asked(INIT) == [];
    OrderAlways(INIT, trace);
    hide Possible, After;
    var front, asked := Begun(s), Asked(s);
    assert forall i :: 0 <= i < |s.pending| ==> asked[|front| + i] == s.pending[i];
    assert forall k :: 0 <= k < |s.past| ==> asked[k] == s.past[k].prompt;
  }

  lemma ContentsOfMore(prompts: seq<Prompt>, id: nat, asked: seq<string>)
    requires |asked| <= 1
    ensures Contents(prompts + Queued(id, asked)) == Contents(prompts) + asked
  {
    var more := Queued(id, asked);
    assert Contents(prompts + more) == Contents(prompts) + Contents(more);
    assert Contents(more) == asked;
  }

  /** No prompt is lost, doubled or changed: from any state, as long as no reset drops the
      queue, what was begun or is queued is what had been before, followed by what was
      asked for since, in that order. */
  lemma {:induction false} NoPromptIsLost(s: State, trace: seq<Action>)
    requires Possible(s, trace) && forall a :: a in trace ==> !DropsQueue(a)
    ensures Contents(Asked(After(s, trace))) == Contents(Asked(s)) + AskedAlong(s, trace)
    decreases |trace|
  {
    hide Enabled, Apply, Asked, AskedBy, Contents;
    if trace == [] {
      assert Contents(Asked(s)) + [] == Contents(Asked(s));
    } else {
      var a, s' := trace[0], Apply(s, trace[0]);
      AskedStep(s, a);
      ContentsOfMore(Asked(s), s.nextId, AskedBy(s, a));
      NoPromptIsLost(s', trace[1..]);
      Joined(Contents(Asked(s)), AskedBy(s, a), AskedAlong(s', trace[1..]));
    }
  }

  lemma Joined(x: seq<string>, y: seq<string>, z: seq<string>)
    ensures (x + y) + z == x + (y + z)
  {}

  /** A reset drops the queue and nothing that was begun. */
  lemma ResetsDropTheQueue(s: State, a: Action)
    requires Enabled(s, a) && DropsQueue(a)
    ensures Asked(Apply(s, a)) == Begun(s) == Begun(Apply(s, a)) && Apply(s, a).pending == []
  {
    AskedStep(s, a);
    OthersAsk(s, a.other);
    hide ApplyOther, Begun;
  }

  /** A reset that did not give up waiting finds no prompt under way: all that was begun
      before is over, for good. */
  lemma DrainedResetsFindNothingUnderWay(before: seq<Action>, t: nat, later: seq<Action>)
    requires Possible(INIT, before) && OtherEnabled(After(INIT, before), ResetWait(t, false))
    requires Possible(ApplyOther(After(INIT, before), ResetWait(t, false)), later)
    ensures var s := After(INIT, before);
            var s' := After(ApplyOther(s, ResetWait(t, false)), later);
            Begun(s) == PromptsOf(s.past) && s.past <= s'.past
  {
    InvariantHoldsInitially();
    InvariantAlways(INIT, before);
    var s := After(INIT, before);
    InvariantKept(s, ByOthers(ResetWait(t, false)));
    hide Possible, After;
    PastStays(ApplyOther(s, ResetWait(t, false)), later);
  }

  lemma {:induction false} PastStays(s: State, trace: seq<Action>)
    requires Generations(s) && Possible(s, trace)
    ensures s.past <= After(s, trace).past
    decreases |trace|
  {
    hide Generations, Enabled, Apply;
    if trace == [] {
    } else {
      GenerationsKept(s, trace[0]);
      PastStays(Apply(s, trace[0]), trace[1..]);
    }
  }

  // ---------- after the destructor ----------

  lemma ClosedStep(s: State, a: Action)
    requires Enabled(s, a) && s.closing
    ensures Apply(s, a).closing && Begun(Apply(s, a)) == Begun(s)
  {
    if Quiet(a) {
      QuietKeepsQueue(s, a);
      hide Apply;
    } else if a.ByOthers? {
      OthersAsk(s, a.other);
      hide Begun, Truncated;
    } else if a == AtEnd(Drain) {
      assert PromptsOf(s.past + [s.run]) == PromptsOf(s.past) + [s.run.prompt];
    }
  }

  /** Once the destructor has told the worker to stop, no further prompt is begun. */
  lemma ClosedEnginesBeginNothing(s: State, trace: seq<Action>)
    requires Possible(ApplyOther(s, StopWorker), trace)
    ensures Begun(After(ApplyOther(s, StopWorker), trace)) == Begun(s)
  {
    ClosedForGood(ApplyOther(s, StopWorker), trace);
  }

  lemma {:induction false} ClosedForGood(s: State, trace: seq<Action>)
    requires Possible(s, trace) && s.closing
    ensures Begun(After(s, trace)) == Begun(s)
    decreases |trace|
  {
    hide Enabled, Apply, Begun;
    if trace == [] {
    } else {
      ClosedStep(s, trace[0]);
      ClosedForGood(Apply(s, trace[0]), trace[1..]);
    }
  }
}
