/** What sub-agents say reaches the conversation. */
module ChatContinuations {
  import opened ChatTypes
  import opened Compaction
  import opened ChatMachine
  import opened ChatInvariants
  import opened ChatRounds
  import opened ChatEvents
  import opened ChatTheorems
  import opened ChatOrphans

  /** The continuations among some messages, as the model reads them: a user's message
      that is complete. */
  function Continued(h: seq<Message>): seq<string> {
    if h == [] then []
    else Continued(h[..|h| - 1]) + OneContinued(h[|h| - 1])
  }

  function OneContinued(m: Message): seq<string> {
    if m.origin.FromSubAgent? && m.role.User? && m.status.Complete? then [m.content] else []
  }

  lemma ContinuedAppend(h: seq<Message>, m: Message)
    ensures Continued(h + [m]) == Continued(h) + OneContinued(m)
  {
    assert (h + [m])[..|h|] == h;
  }

  lemma {:induction false} ContinuedConcat(a: seq<Message>, b: seq<Message>)
    ensures Continued(a + b) == Continued(a) + Continued(b)
    decreases |b|
  {
    if b == [] {
      assert a + b == a;
    } else {
      hide Continued, OneContinued;
      var front, last := b[..|b| - 1], b[|b| - 1];
      ContinuedConcat(a, front);
      ContinuedAppend(front, last);
      ContinuedAppend(a + front, last);
      LastApart(a, b);
      Regroup(Continued(a), Continued(front), OneContinued(last));
    }
  }

  lemma LastApart(a: seq<Message>, b: seq<Message>)
    requires b != []
    ensures var front, last := b[..|b| - 1], b[|b| - 1]; b == front + [last] && a + b == (a + front) + [last]
  {}

  lemma Regroup(x: seq<string>, y: seq<string>, z: seq<string>)
    ensures (x + y) + z == x + (y + z)
  {}

  /** System messages are no continuations. */
  lemma {:induction false} ContinuedOthers(h: seq<Message>)
    ensures Continued(NonSystem(h)) == Continued(h)
  {
    if h == [] {
    } else {
      ContinuedOthers(h[1..]);
      FilterCons(h);
      assert h == [h[0]] + h[1..];
      ContinuedConcat([h[0]], h[1..]);
      ContinuedConcat(IfOther(h[0]), NonSystem(h[1..]));
      ContinuedAppend([], h[0]);
      assert [] + [h[0]] == [h[0]];
      hide NonSystem;
    }
  }

  predicate EndsIn(x: seq<string>, y: seq<string>) {
    |x| <= |y| && x == y[|y| - |x|..]
  }

  lemma CompactionKeepsTheLast(h: seq<Message>, keep: nat, note: Message)
    requires note.role.System?
    ensures EndsIn(Continued(Compacted(h, keep, note)), Continued(h))
  {
    var c, n := Compacted(h, keep, note), Removed(h, keep);
    KeptContents(h, keep, note);
    ContinuedOthers(h);
    ContinuedOthers(c);
    hide Compacted, NonSystem, Continued, CountNonSystem;
    var ns := NonSystem(h);
    assert ns == ns[..n] + ns[n..];
    ContinuedConcat(ns[..n], ns[n..]);
  }

  /** What a step lets sub-agents say to a busy engine. */
  function Told(s: State, a: Action): seq<string> {
    match a
    case ByOthers(Inject(body)) => if s.active || s.pending != [] then [body] else []
    case _ => []
  }

  function ToldAlong(s: State, trace: seq<Action>): seq<string>
    requires Possible(s, trace)
    decreases |trace|
  {
    if trace == [] then [] else Told(s, trace[0]) + ToldAlong(Apply(s, trace[0]), trace[1..])
  }

  /** The step may take messages out of the history. */
  predicate Forgets(a: Action) {
    match a
    case ByOthers(o) => o.CompactManually? || o.ResetClear?
    case AtEntry(e) => e.ChooseCompaction? || e.ReceiveSummary?
    case _ => false
  }

  lemma QuietTells(s: State, a: Action)
    requires Enabled(s, a) && Quiet(a)
    ensures EndsIn(Continued(Apply(s, a).history), Continued(s.history))
    ensures !Forgets(a) ==> Continued(Apply(s, a).history) == Continued(s.history)
  {
    hide Apply, Continued, Compacted, RequestStep;
    var s' := Apply(s, a);
    QuietFrame(s, a);
    if s.worker.BeforePrompt? || s.worker.Summarizing? {
      var keep, note := WorkerCompaction(s, a);
      CompactionKeepsTheLast(s.history, keep, note);
    } else if s'.history != s.history {
      ContinuedAppend(s.history, s'.history[|s'.history| - 1]);
    }
  }

  lemma NothingTold(h: seq<string>)
    ensures h + [] == h && EndsIn(h, h) && EndsIn([], h)
  {}

  lemma OthersTell(s: State, a: OtherAction)
    requires OtherEnabled(s, a)
    ensures EndsIn(Continued(ApplyOther(s, a).history), Continued(s.history) + Told(s, ByOthers(a)))
    ensures !Forgets(ByOthers(a)) ==>
              Continued(ApplyOther(s, a).history) == Continued(s.history) + Told(s, ByOthers(a))
  {
    assert Continued([]) == [];
    hide Continued, Truncated, EndsIn;
    NothingTold(Continued(s.history));
    if a.Inject? {
      SubAgentTells(s, a.body);
      hide *;
    } else if a.CompactManually? {
      CompactionKeepsTheLast(s.history, a.keep, TruncationNote(Removed(s.history, a.keep)));
      TruncationIsCompaction(s.history, a.keep);
    }
  }

  lemma TruncationIsCompaction(h: seq<Message>, keep: nat)
    ensures Truncated(h, keep) == Compacted(h, keep, TruncationNote(Removed(h, keep)))
  {}

  lemma SubAgentTells(s: State, body: string)
    ensures var told := Continued(s.history) + Told(s, ByOthers(Inject(body)));
            Continued(ApplyOther(s, Inject(body)).history) == told && EndsIn(told, told)
  {
    var m := Continuation(s.nextId, body);
    ContinuedAppend(s.history, m);
    assert OneContinued(m) == [body];
    hide Continued, OneContinued;
    NothingTold(Continued(s.history));
  }

  lemma StepTells(s: State, a: Action)
    requires Enabled(s, a)
    ensures EndsIn(Continued(Apply(s, a).history), Continued(s.history) + Told(s, a))
    ensures !Forgets(a) ==> Continued(Apply(s, a).history) == Continued(s.history) + Told(s, a)
  {
    NothingTold(Continued(s.history));
    hide ApplyOther, Continued, EndsIn;
    if a.ByOthers? {
      OthersTell(s, a.other);
    } else if Quiet(a) {
      QuietTells(s, a);
      hide Apply;
    }
  }

  lemma EndsInTransitive(x: seq<string>, y: seq<string>, y': seq<string>, more: seq<string>)
    requires EndsIn(x, y + more) && EndsIn(y, y')
    ensures EndsIn(x, y' + more)
  {
    assert y' + more == y'[..|y'| - |y|] + (y + more);
  }

  /** Sub-agents are never lost on a busy engine, and never mixed up: what stands of them in
      the history is always the latest of what they said, in the order they said it, each as
      a complete message of the user with the words they gave. And all of it stands there as
      long as nothing was compacted or reset. */
  lemma {:induction false} ContinuationsArriveInOrder(s: State, trace: seq<Action>)
    requires Possible(s, trace)
    ensures EndsIn(Continued(After(s, trace).history), Continued(s.history) + ToldAlong(s, trace))
    ensures (forall a :: a in trace ==> !Forgets(a)) ==>
              Continued(After(s, trace).history) == Continued(s.history) + ToldAlong(s, trace)
    decreases |trace|
  {
    hide Continued, Apply, Told, Enabled;
    if trace != [] {
      var a := trace[0];
      var s', rest := Apply(s, a), trace[1..];
      StepTells(s, a);
      ContinuationsArriveInOrder(s', rest);
      var c, told, later := Continued(s.history), Told(s, a), ToldAlong(s', rest);
      EndsInTransitive(Continued(After(s, trace).history), Continued(s'.history), c + told, later);
      Regroup(c, told, later);
    }
  }
}
