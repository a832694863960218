/** Where the guarantees of the chat engine end. */
module ChatLimits {
  import opened ChatTypes
  import opened Compaction
  import opened ChatMachine
  import opened ChatInvariants
  import opened ChatTheorems

  function ResetFrom(s: State, t: nat): State
    requires t !in s.resets
  {
    var s1 := ApplyOther(s, ResetBump(t));
    var s2 := ApplyOther(s1, ResetClearQueue(t));
    var s3 := ApplyOther(s2, ResetWait(t, true));
    ApplyOther(s3, ResetClear(t))
  }

  lemma ResetLeaves(s: State, t: nat)
    requires t !in s.resets && s.active
    ensures ResetFrom(s, t) == s.(generation := s.generation + 2, epoch := s.epoch + 1, history := [],
                                  pending := [], stopRequested := true)
  {
    assert s.resets[t := Bumped][t := QueueCleared][t := Waited] - {t} == s.resets;
  }

  function InjectAll(s: State, bodies: seq<string>): State
    decreases |bodies|
  {
    if bodies == [] then s else InjectAll(ApplyOther(s, Inject(bodies[0])), bodies[1..])
  }

  function Continuations(id: nat, bodies: seq<string>): (r: seq<Message>)
    ensures |r| == |bodies|
    decreases |bodies|
  {
    if bodies == [] then [] else [Continuation(id, bodies[0])] + Continuations(id + 1, bodies[1..])
  }

  lemma {:induction false} InjectedWhileActive(s: State, bodies: seq<string>)
    requires s.active
    ensures InjectAll(s, bodies)
         == s.(history := s.history + Continuations(s.nextId, bodies), nextId := s.nextId + |bodies|)
    decreases |bodies|
  {
    if bodies == [] {
      assert s.history + [] == s.history;
    } else {
      var m := Continuation(s.nextId, bodies[0]);
      InjectedWhileActive(ApplyOther(s, Inject(bodies[0])), bodies[1..]);
      Joined(s.history, m, Continuations(s.nextId + 1, bodies[1..]));
    }
  }

  lemma Joined(h: seq<Message>, m: Message, rest: seq<Message>)
    ensures (h + [m]) + rest == h + ([m] + rest)
  {}

  lemma {:induction false} ContinuationsAreNotSystem(id: nat, bodies: seq<string>)
    ensures forall m :: m in Continuations(id, bodies) ==> !m.role.System?
    decreases |bodies|
  {
    if bodies == [] {
    } else {
      ContinuationsAreNotSystem(id + 1, bodies[1..]);
    }
  }

  /** A summary is written into whatever history there is when it comes back: exactly
      if that history is too long by then, and in front of what it holds by then. */
  lemma SummariesAreWrittenIntoWhatIsThere(s: State, text: string)
    requires s.worker.Summarizing?
    ensures EntryEnabled(s, ReceiveSummary(Written(text)))
    ensures var h, h' := s.history, ApplyEntry(s, ReceiveSummary(Written(text))).history;
            && |Systems(h')| == |Systems(h)| + (if Removed(h, s.worker.keep) > 0 then 1 else 0)
            && NonSystem(h') == NonSystem(h)[Removed(h, s.worker.keep)..]
            && (Removed(h, s.worker.keep) == 0 ==> h' == h)
            && (Removed(h, s.worker.keep) > 0 ==> SummaryNote(text) in h')
  {
    hide NonSystem, Systems, CountNonSystem, Survivors, LeadingSystem;
    var h, keep := s.history, s.worker.keep;
    if CountNonSystem(h) > keep {
      CompactionKeepsTheRightMessages(h, keep, SummaryNote(text));
      CompactionOnlyDropsOldMessages(h, keep, SummaryNote(text));
    }
  }

  /** A history without system messages, with a summary in front of its last `keep`
      messages if it is longer. */
  function Summarized(h: seq<Message>, keep: nat, text: string): seq<Message> {
    if |h| > keep then [SummaryNote(text)] + h[|h| - keep..] else h
  }

  /** A reset and then continuations, while the worker stays where it is. */
  lemma RefilledAfterReset(s: State, t: nat, bodies: seq<string>)
    requires s.active && t !in s.resets
    ensures var s1 := InjectAll(ResetFrom(s, t), bodies);
            s1.history == Continuations(s.nextId, bodies) && s1.epoch == s.epoch + 1 && s1.worker == s.worker
  {
    ResetLeaves(s, t);
    hide ResetFrom;
    InjectedWhileActive(ResetFrom(s, t), bodies);
    hide InjectAll, Continuations;
    assert [] + Continuations(s.nextId, bodies) == Continuations(s.nextId, bodies);
  }

  /** The summary of a conversation that a reset has cleared meanwhile still comes back:
      the history then holds nothing but the continuations injected since, and the
      summary is put in front of the last of them exactly when there are too many. */
  lemma SummariesIgnoreResets(s: State, t: nat, bodies: seq<string>, text: string)
    requires s.worker.Summarizing? && s.active && t !in s.resets
    ensures var s1 := InjectAll(ResetFrom(s, t), bodies);
            var said, keep := Continuations(s.nextId, bodies), s.worker.keep;
            && s1.history == said && s1.epoch == s.epoch + 1
            && EntryEnabled(s1, ReceiveSummary(Written(text)))
            && ApplyEntry(s1, ReceiveSummary(Written(text))).history
            == Summarized(said, keep, text)
  {
    hide *;
    RefilledAfterReset(s, t, bodies);
    ContinuationsAreNotSystem(s.nextId, bodies);
    SummaryWithoutSystems(InjectAll(ResetFrom(s, t), bodies), text);
  }

  lemma SummaryWithoutSystems(s: State, text: string)
    requires s.worker.Summarizing? && forall m :: m in s.history ==> !m.role.System?
    ensures EntryEnabled(s, ReceiveSummary(Written(text)))
    ensures ApplyEntry(s, ReceiveSummary(Written(text))).history == Summarized(s.history, s.worker.keep, text)
  {
    hide Compacted, Removed, Truncated;
    CompactedWithoutSystems(s.history, s.worker.keep, SummaryNote(text));
  }

  /** A prompt the worker had taken, but had not yet read the generation for, outlives a
      reset whose wait times out: it is run under the new generation. That is why reset
      isolation counts from the moment the generation was read. */
  lemma PromptsTakenEarlySurviveResets(s: State, t: nat)
    requires (s.worker.Popped? || s.worker.Announced?) && s.active && t !in s.resets
    ensures var s4 := ResetFrom(s, t);
            && s4.worker == s.worker && s4.run.prompt == s.run.prompt && s4.history == [] && s4.stopRequested
            && var s5 := ApplyEntry(if s4.worker.Popped? then ApplyEntry(s4, Announce) else s4, Capture);
            var s6 := ApplyEntry(s5, Enter(true));
            var s7 := ApplyEntry(s6, CheckEntry);
            && s7.worker.BeforePrompt? && s7.run.prompt == s.run.prompt && s7.run.epoch == s.epoch + 1
  {
    ResetLeaves(s, t);
    hide ResetFrom;
  }

  /** A reset supersedes exactly the prompts whose generation had been read. */
  lemma ResetsCatchCapturedPrompts(s: State, t: nat)
    requires Generations(s) && !s.worker.Idle? && t !in s.resets
    ensures Superseded(ResetFrom(s, t), |s.past|) <==> HasCaptured(s.worker)
  {
    ResetLeaves(s, t);
    hide ResetFrom;
  }
}
