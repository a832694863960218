/** What requests to the model carry of other runs than their own. */
module ChatRequests {
  import opened ChatTypes
  import opened Compaction
  import opened ChatMachine
  import opened ChatInvariants
  import opened ChatRounds
  import opened ChatEvents
  import opened ChatTheorems
  import opened ChatOrphans

  // ---------- parts of a run ----------

  /** The calls of the assistant message at `i` are all answered right behind it. */
  predicate AnsweredAt(ms: seq<Message>, i: nat)
    requires i < |ms|
  {
    i + |ms[i].calls| < |ms| && forall q :: i < q <= i + |ms[i].calls| ==> AsksFor(ms, i, q)
  }

  /** No call is left without its results, and no result without its call. */
  ghost predicate ClosedPart(ms: seq<Message>) {
    && (forall i :: 0 <= i < |ms| && ms[i].role.Assistant? ==> AnsweredAt(ms, i))
    && forall j :: 0 <= j < |ms| && ms[j].role.Tool? ==> exists i: nat :: i < j && AsksFor(ms, i, j)
  }

  lemma AsksForInPart(ms: seq<Message>, cut: nat, i: nat, j: nat)
    requires cut <= i && cut <= j && cut <= |ms|
    ensures AsksFor(ms[cut..], i - cut, j - cut) <==> AsksFor(ms, i, j)
  {}

  lemma OpenIsNotEmpty(ms: seq<Message>)
    requires ShapeOf(ms).Open?
    ensures ShapeOf(ms).rest != []
  {}

  lemma RoundStarts(ms: seq<Message>, p: nat)
    requires p < |ms| && ms[p].role.Assistant? && ms[p].calls != [] && !ShapeOf(ms).Broken?
    ensures ShapeOf(ms[..p + 1]) == Open(ms[p].calls)
  {
    PrefixesAreAccepted(ms, p + 1);
    ShapeStep(ms, p);
    hide ShapeOf;
  }

  lemma RoundMoves(ms: seq<Message>, p: nat, rest: seq<ToolCall>)
    requires 0 < p <= |ms| && rest != [] && ShapeOf(ms[..p]) == Open(rest) && !ShapeOf(ms).Broken? && !ShapeOf(ms).Open?
    ensures p < |ms| && ms[p].role.Tool? && ShapeOf(ms[..p + 1]) == Pending(rest[1..])
  {
    assert ms[..|ms|] == ms;
    hide ShapeOf;
    OpenBeforeResults(ms, p);
    PrefixesAreAccepted(ms, p + 1);
    ShapeStep(ms, p);
  }

  /** Behind an assistant message with calls come their results, as far as `ms` goes. */
  lemma {:induction false} RoundRunsOn(ms: seq<Message>, p: nat, t: nat)
    requires p < |ms| && ms[p].role.Assistant? && !ShapeOf(ms).Broken? && !ShapeOf(ms).Open?
    requires t <= |ms[p].calls|
    ensures p + t < |ms| && forall q :: p < q <= p + t ==> ms[q].role.Tool?
    ensures t < |ms[p].calls| ==> ShapeOf(ms[..p + t + 1]) == Open(ms[p].calls[t..])
    decreases t
  {
    hide ShapeOf;
    var calls := ms[p].calls;
    if t == 0 {
      assert calls[0..] == calls;
      if calls != [] {
        RoundStarts(ms, p);
      }
    } else {
      RoundRunsOn(ms, p, t - 1);
      RoundMoves(ms, p + t, calls[t - 1..]);
      assert calls[t - 1..][1..] == calls[t..];
    }
  }

  lemma WholeRoundsAreAnswered(ms: seq<Message>, p: nat)
    requires p < |ms| && ms[p].role.Assistant? && !ShapeOf(ms).Broken? && !ShapeOf(ms).Open?
    ensures AnsweredAt(ms, p)
  {
    RoundRunsOn(ms, p, |ms[p].calls|);
    hide ShapeOf;
  }

  lemma WholePartIsClosed(ms: seq<Message>, cut: nat)
    requires cut <= |ms| && !ShapeOf(ms).Broken? && !ShapeOf(ms).Open? && !ShapeOf(ms[..cut]).Open?
    ensures ClosedPart(ms[cut..])
  {
    hide ShapeOf;
    var part := ms[cut..];
    forall i | 0 <= i < |part| && part[i].role.Assistant?
      ensures AnsweredAt(part, i)
    {
      WholeRoundsAreAnswered(ms, cut + i);
      forall q | i < q <= i + |part[i].calls|
        ensures AsksFor(part, i, q)
      {
        AsksForInPart(ms, cut, cut + i, cut + q);
      }
    }
    CutsSplitOpenRounds(ms, cut);
    forall j | 0 <= j < |part| && part[j].role.Tool?
      ensures exists i: nat :: i < j && AsksFor(part, i, j)
    {
      var i := ResultsFollowTheirCalls(ms, cut + j);
      assert i >= cut;
      AsksForInPart(ms, cut, i, cut + j);
      assert AsksFor(part, i - cut, j);
    }
  }

  lemma OpenEndsAreNotClosed(ms: seq<Message>, cut: nat)
    requires cut < |ms| && ShapeOf(ms).Open? && !ms[cut].role.Tool?
    ensures !ClosedPart(ms[cut..])
  {
    OpenIsNotEmpty(ms);
    hide ShapeOf;
    assert ms[..|ms|] == ms;
    var i := OpenRoundHasItsHead(ms, |ms|);
    var part := ms[cut..];
    assert part[i - cut] == ms[i];
    assert !AnsweredAt(part, i - cut);
  }

  lemma ClosedPartsAreWhole(ms: seq<Message>, cut: nat)
    requires cut < |ms| && !ShapeOf(ms).Broken? && ClosedPart(ms[cut..])
    ensures !ShapeOf(ms).Open? && !ShapeOf(ms[..cut]).Open?
  {
    hide ShapeOf;
    OpenBeforeResults(ms, cut);
    assert ms[cut..][0] == ms[cut];
    assert !ms[cut].role.Tool?;
    if ShapeOf(ms).Open? {
      OpenEndsAreNotClosed(ms, cut);
    }
  }

  /** What is left of a run behind a cut has every call answered and every result's call,
      exactly if nothing is left, or the run did not end in the middle of a tool round and
      the cut did not fall into one. */
  lemma PartIsClosedExactly(ms: seq<Message>, cut: nat)
    requires cut <= |ms| && !ShapeOf(ms).Broken?
    ensures ClosedPart(ms[cut..]) <==> cut == |ms| || (!ShapeOf(ms).Open? && !ShapeOf(ms[..cut]).Open?)
  {
    hide ShapeOf, ClosedPart;
    if cut == |ms| {
      assert ms[cut..] == [];
      NothingIsClosed();
    } else if ClosedPart(ms[cut..]) {
      ClosedPartsAreWhole(ms, cut);
    } else if !ShapeOf(ms).Open? && !ShapeOf(ms[..cut]).Open? {
      WholePartIsClosed(ms, cut);
    }
  }

  lemma NothingIsClosed()
    ensures ClosedPart([])
  {}

  // ---------- what a request carries ----------

  /** The messages of runs in `h` are of runs up to `k`, captured in the epoch of run `k`. */
  ghost predicate OneEpoch(s: State, k: nat, h: seq<Message>)
    requires IsRun(s, k)
  {
    forall m :: m in h && m.origin.FromRun? ==>
      && m.origin.run <= k && RunAt(s, m.origin.run).captured && RunAt(s, m.origin.run).epoch == RunAt(s, k).epoch
  }

  /** What `h` holds of an earlier run is the end of what that run appended. */
  ghost predicate EndsOfRuns(s: State, k: nat, h: seq<Message>)
    requires IsRun(s, k)
  {
    forall j: nat :: j < k ==> IsSuffix(OfRun(h, j), RunAt(s, j).appended)
  }

  ghost predicate RequestSound(s: State, k: nat, q: Request)
    requires IsRun(s, k)
  {
    OneEpoch(s, k, q.history) && EndsOfRuns(s, k, q.history)
  }

  ghost predicate RequestsSound(s: State, k: nat) {
    IsRun(s, k) ==> forall q :: q in RunAt(s, k).requests ==> RequestSound(s, k, q)
  }

  /** Earlier runs are over: their records do not change. */
  predicate SameRecords(s: State, s': State, k: nat)
    requires IsRun(s, k)
  {
    && IsRun(s', k) && RunAt(s', k).captured == RunAt(s, k).captured && RunAt(s', k).epoch == RunAt(s, k).epoch
    && s.past <= s'.past
  }

  lemma SoundStays(s: State, s': State, k: nat, q: Request)
    requires IsRun(s, k) && SameRecords(s, s', k) && RequestSound(s, k, q)
    ensures RequestSound(s', k, q)
  {
    hide OfRun, IsSuffix;
    forall j: nat | j <= k
      ensures RunAt(s', j).captured == RunAt(s, j).captured && RunAt(s', j).epoch == RunAt(s, j).epoch
      ensures j < k ==> RunAt(s', j) == RunAt(s, j)
    {
      EarlierRuns(s, s', k, j);
    }
  }

  lemma EarlierRuns(s: State, s': State, k: nat, j: nat)
    requires IsRun(s, k) && SameRecords(s, s', k) && j <= k
    ensures RunAt(s', j).captured == RunAt(s, j).captured && RunAt(s', j).epoch == RunAt(s, j).epoch
    ensures j < k ==> RunAt(s', j) == RunAt(s, j)
  {
    if j < k {
      assert s'.past[j] == s.past[j];
    }
  }

  /** The request that is built now. */
  lemma NewRequestIsSound(s: State)
    requires Invariant(s) && AllAtEnd(s) && s.worker.RoundStart? && !Stale(s)
    ensures RequestSound(s, |s.past|, Request(s.history, |s.run.appended|))
  {
    hide Projected, RoundsOk, AllRunsOk, EventsOk, PastEnded, OfRun, IsSuffix, AllAtEnd;
    var k := |s.past|;
    forall m | m in s.history && m.origin.FromRun?
      ensures m.origin.run <= k && RunAt(s, m.origin.run).captured && RunAt(s, m.origin.run).epoch == RunAt(s, k).epoch
    {
      assert CurrentSource(s, m.origin.run);
    }
    forall j: nat | j < k
      ensures IsSuffix(OfRun(s.history, j), RunAt(s, j).appended)
    {
      OneAtEnd(s, j);
    }
  }

  lemma OneAtEnd(s: State, j: nat)
    requires AllAtEnd(s)
    ensures EndOfRun(s, j)
  {}

  lemma RequestsFollowThePrompt(r: Run, k: nat, q: Request)
    requires RunOk(r, k) && q in r.requests
    ensures r.appended != []
  {
    assert RequestOk(r, k, q);
  }

  lemma UncapturedRunsHaveNoRequests(s: State)
    requires Generations(s) && AllRunsOk(s) && !s.worker.Idle? && !HasCaptured(s.worker)
    ensures s.run.requests == []
  {
    hide RunOk;
    if s.run.requests != [] {
      RequestsFollowThePrompt(s.run, |s.past|, s.run.requests[0]);
    }
  }

  lemma QuietKeepsRequests(s: State, a: Action, k: nat)
    requires Invariant(s) && AllAtEnd(s) && RequestsSound(s, k) && Enabled(s, a) && Quiet(a)
    ensures RequestsSound(Apply(s, a), k)
  {
    hide Apply, HistoryStep, Generations, Isolated, Projected, RoundsOk, AllRunsOk, EventsOk, PastEnded, AllAtEnd, RequestSound;
    var s' := Apply(s, a);
    QuietFrame(s, a);
    if IsRun(s', k) {
      forall q | q in RunAt(s', k).requests
        ensures RequestSound(s', k, q)
      {
        if q !in RunAt(s, k).requests {
          NewRequestIsSound(s);
        }
        SoundStays(s, s', k, q);
      }
    }
  }

  lemma RequestsKeptSound(s: State, a: Action, k: nat)
    requires Invariant(s) && AllAtEnd(s) && RequestsSound(s, k) && Enabled(s, a)
    ensures RequestsSound(Apply(s, a), k)
  {
    hide Isolated, Projected, RoundsOk, AllRunsOk, EventsOk, PastEnded, AllAtEnd, RequestSound;
    if Quiet(a) {
      QuietKeepsRequests(s, a, k);
      hide Apply;
    } else {
      LoudKeepsRequests(s, a, k);
    }
  }

  lemma LoudKeepsRequests(s: State, a: Action, k: nat)
    requires Generations(s) && AllRunsOk(s) && RequestsSound(s, k) && Enabled(s, a) && !Quiet(a)
    ensures RequestsSound(Apply(s, a), k)
  {
    hide RequestSound, AllRunsOk;
    var s' := Apply(s, a);
    if a.ByOthers? {
      OthersMoveForward(s, a.other);
      hide ApplyOther;
    }
    if a == AtEntry(Capture) {
      UncapturedRunsHaveNoRequests(s);
    }
    if IsRun(s', k) {
      forall q | q in RunAt(s', k).requests
        ensures RequestSound(s', k, q)
      {
        SoundStays(s, s', k, q);
      }
    }
  }

  lemma {:induction false} RequestsAlwaysSound(s: State, trace: seq<Action>, k: nat)
    requires Invariant(s) && AllAtEnd(s) && RequestsSound(s, k) && Possible(s, trace)
    ensures RequestsSound(After(s, trace), k) && AllAtEnd(After(s, trace)) && Invariant(After(s, trace))
    decreases |trace|
  {
    hide Invariant, AllAtEnd, RequestsSound, Enabled, Apply;
    if trace == [] {
    } else {
      InvariantKept(s, trace[0]);
      AllAtEndKept(s, trace[0]);
      RequestsKeptSound(s, trace[0], k);
      RequestsAlwaysSound(Apply(s, trace[0]), trace[1..], k);
    }
  }

  /** Isolation of requests: whatever a request of run `k` carries of any run is of a run
      captured in the same epoch, so after the same clear. */
  lemma RequestsAreIsolated(trace: seq<Action>, k: nat, q: Request)
    requires Possible(INIT, trace) && IsRun(After(INIT, trace), k) && q in RunAt(After(INIT, trace), k).requests
    ensures OneEpoch(After(INIT, trace), k, q.history)
  {
    InvariantHoldsInitially();
    RequestsAlwaysSound(INIT, trace, k);
    hide Possible, After;
    assert RequestSound(After(INIT, trace), k, q);
  }

  /** The part of a run that a request carries is closed exactly if it is the requesting
      run's own, or empty, or that run did not end in the middle of a tool round and no
      compaction had cut into one. */
  lemma RequestsAreClosedExactly(trace: seq<Action>, k: nat, q: Request, j: nat)
    requires Possible(INIT, trace) && IsRun(After(INIT, trace), k) && q in RunAt(After(INIT, trace), k).requests
    ensures var s, part := After(INIT, trace), OfRun(q.history, j);
            && (j > k ==> part == [])
            && (j == k ==> ClosedPart(part))
            && (j < k ==>
                  var ms := RunAt(s, j).appended;
                  && IsSuffix(part, ms)
                  && (ClosedPart(part) <==>
                        part == [] || (!ShapeOf(ms).Open? && !ShapeOf(ms[..|ms| - |part|]).Open?)))
  {
    InvariantHoldsInitially();
    RequestsAlwaysSound(INIT, trace, k);
    var s := After(INIT, trace);
    hide Possible, After, Generations, Isolated, Projected, RoundsOk, EventsOk, PastEnded, AllAtEnd, OfRun, ClosedPart, ShapeOf;
    assert RequestSound(s, k, q);
    var part := OfRun(q.history, j);
    if j > k {
      OfRunMembers(q.history, j);
    } else if j == k {
      assert RunOk(RunAt(s, k), k);
      assert RequestOk(RunAt(s, k), k, q);
      PartIsClosedExactly(part, 0);
      assert part[0..] == part && part[..0] == [];
      ShapeOfNothing();
    } else {
      assert RunOk(RunAt(s, j), j);
      var ms := RunAt(s, j).appended;
      PartIsClosedExactly(ms, |ms| - |part|);
    }
  }

  lemma ShapeOfNothing()
    ensures ShapeOf([]) == Empty
  {}

  // ---------- it does happen ----------

  /** A tool round is cancelled at the approval gate, and its prompt is over. */
  lemma ToTheCancelledRound(prompt: string, call: ToolCall) returns (trace: seq<Action>, s: State)
    ensures Leads(INIT, trace, s) && s.worker.Idle? && !s.active && !s.closing && s.pending == []
    ensures |s.past| == 1 && s.generation == 0 && s.nextId == 4
    ensures s.history == s.past[0].appended == [ActiveUserMessage(1, prompt, 0), AssistantToolRound(2, "", [call], 0)]
  {
    hide Leads;
    trace, s := ToTheTool(prompt, call);
    trace, s := OneMore(INIT, trace, s, ByOthers(StopActive));
    trace, s := OneMore(INIT, trace, s, InTools(AbortAtGate));
    trace, s := OneMore(INIT, trace, s, AtEnd(CheckStopAfterRound));
    trace, s := OneMore(INIT, trace, s, AtEnd(Drain));
  }

  lemma ToTheNextPrompt(prompt: string, call: ToolCall, next: string) returns (trace: seq<Action>, s: State)
    ensures Leads(INIT, trace, s) && s.worker == ReadyToAppend && !Stale(s) && |s.past| == 1
    ensures s.history == s.past[0].appended == [ActiveUserMessage(1, prompt, 0), AssistantToolRound(2, "", [call], 0)]
    ensures s.run.prompt == Prompt(4, next) && s.run.appended == [] && s.run.requests == []
  {
    hide Leads;
    trace, s := ToTheCancelledRound(prompt, call);
    trace, s := OneMore(INIT, trace, s, ByOthers(Submit(next)));
    trace, s := OneMore(INIT, trace, s, AtEntry(Pop));
    trace, s := OneMore(INIT, trace, s, AtEntry(Announce));
    trace, s := OneMore(INIT, trace, s, AtEntry(Capture));
    trace, s := OneMore(INIT, trace, s, AtEntry(Enter(true)));
    trace, s := OneMore(INIT, trace, s, AtEntry(CheckEntry));
    trace, s := OneMore(INIT, trace, s, AtEntry(ChooseCompaction(NoCompaction)));
  }

  /** A run of the engine in which the request of a prompt carries the unanswered call of
      the one before, which was cancelled in the middle of a tool round. */
  lemma OpenRoundsAreCarried(prompt: string, call: ToolCall, next: string) returns (trace: seq<Action>, s: State)
    ensures Possible(INIT, trace) && After(INIT, trace) == s
    ensures s.run.requests == [Request([ActiveUserMessage(1, prompt, 0), AssistantToolRound(2, "", [call], 0),
                                        ActiveUserMessage(4, next, 1)], 1)]
  {
    hide Possible, After;
    trace, s := ToTheNextPrompt(prompt, call, next);
    trace, s := OneMore(INIT, trace, s, AtEntry(AppendPrompt));
    assert s.history == [ActiveUserMessage(1, prompt, 0), AssistantToolRound(2, "", [call], 0), ActiveUserMessage(4, next, 1)];
    assert |s.run.appended| == 1;
    trace, s := OneMore(INIT, trace, s, InRound(BuildRequest));
  }
}
