/** History compaction: truncation, and summarisation through the model. */
module Compaction {
  import opened ChatTypes
  import opened Numerals
  import opened Strings

  function CountNonSystem(h: seq<Message>): (n: nat)
    ensures n <= |h|
  {
    if h == [] then 0 else (if h[0].role.System? then 0 else 1) + CountNonSystem(h[1..])
  }

  function NonSystem(h: seq<Message>): (r: seq<Message>)
    ensures |r| == CountNonSystem(h)
  {
    if h == [] then [] else (if h[0].role.System? then [] else [h[0]]) + NonSystem(h[1..])
  }

  function Systems(h: seq<Message>): seq<Message> {
    if h == [] then [] else (if h[0].role.System? then [h[0]] else []) + Systems(h[1..])
  }

  /** How many system messages come before the first non-system one. */
  function LeadingSystem(h: seq<Message>): (n: nat)
    ensures n <= |h|
  {
    if h == [] || !h[0].role.System? then 0 else 1 + LeadingSystem(h[1..])
  }

  lemma {:induction false} LeadingSystemIsMaximal(h: seq<Message>)
    ensures forall i :: 0 <= i < LeadingSystem(h) ==> h[i].role.System?
    ensures LeadingSystem(h) < |h| ==> !h[LeadingSystem(h)].role.System?
  {
    if h == [] || !h[0].role.System? {
    } else {
      LeadingSystemIsMaximal(h[1..]);
      forall i | 0 <= i < LeadingSystem(h)
        ensures h[i].role.System?
      {
        if i > 0 {
          assert h[i] == h[1..][i - 1];
        }
      }
    }
  }

  /** The rule compaction promises: system messages stay, and so do the last
      `keep` of the others. It looks at what follows a message, not at a counter. */
  predicate Survives(h: seq<Message>, i: nat, keep: nat)
    requires i < |h|
  {
    h[i].role.System? || CountNonSystem(h[i..]) <= keep
  }

  function Survivors(h: seq<Message>, keep: nat): seq<Message> {
    if h == [] then [] else (if Survives(h, 0, keep) then [h[0]] else []) + Survivors(h[1..], keep)
  }

  function Dropped(h: seq<Message>, keep: nat): seq<Message> {
    if h == [] then [] else (if Survives(h, 0, keep) then [] else [h[0]]) + Dropped(h[1..], keep)
  }

  /** A compacted history: untouched when short enough, else the survivors with
      one note after the leading system messages. */
  function Compacted(h: seq<Message>, keep: nat, note: Message): seq<Message> {
    if CountNonSystem(h) <= keep then h
    else h[..LeadingSystem(h)] + [note] + Survivors(h[LeadingSystem(h)..], keep)
  }

  function TruncationNote(removed: nat): Message {
    Note("[Earlier conversation compacted. " + ToDecimal(removed) + " messages removed.]")
  }

  function SummaryNote(summary: string): Message {
    Note("[Earlier conversation summary]\n" + summary)
  }

  function Removed(h: seq<Message>, keep: nat): nat {
    if CountNonSystem(h) <= keep then 0 else CountNonSystem(h) - keep
  }

  /** What truncation makes of a history. */
  function Truncated(h: seq<Message>, keep: nat): seq<Message> {
    Compacted(h, keep, TruncationNote(Removed(h, keep)))
  }

  /** `c` is made of `a` and `b`, each in its own order. */
  predicate Shuffle(a: seq<Message>, b: seq<Message>, c: seq<Message>)
    decreases |c|
  {
    if c == [] then a == [] && b == []
    else
      || (a != [] && a[0] == c[0] && Shuffle(a[1..], b, c[1..]))
      || (b != [] && b[0] == c[0] && Shuffle(a, b[1..], c[1..]))
  }

  lemma CountAppend(a: seq<Message>, b: seq<Message>)
    ensures CountNonSystem(a + b) == CountNonSystem(a) + CountNonSystem(b)
    ensures NonSystem(a + b) == NonSystem(a) + NonSystem(b)
    ensures Systems(a + b) == Systems(a) + Systems(b)
  {
    hide CountNonSystem, NonSystem, Systems;
    NonSystemAppend(a, b);
    SystemsAppend(a, b);
    assert |NonSystem(a + b)| == |NonSystem(a)| + |NonSystem(b)|;
  }

  function IfSystem(m: Message): seq<Message> {
    if m.role.System? then [m] else []
  }

  function IfOther(m: Message): seq<Message> {
    if m.role.System? then [] else [m]
  }

  lemma FilterCons(h: seq<Message>)
    requires h != []
    ensures NonSystem(h) == IfOther(h[0]) + NonSystem(h[1..])
    ensures Systems(h) == IfSystem(h[0]) + Systems(h[1..])
  {}

  lemma {:induction false} NonSystemAppend(a: seq<Message>, b: seq<Message>)
    ensures NonSystem(a + b) == NonSystem(a) + NonSystem(b)
  {
    if a == [] {
      assert a + b == b;
    } else {
      assert (a + b)[1..] == a[1..] + b;
      NonSystemAppend(a[1..], b);
      FilterCons(a);
      FilterCons(a + b);
      hide NonSystem;
      Assoc(IfOther(a[0]), NonSystem(a[1..]), NonSystem(b));
    }
  }

  lemma {:induction false} SystemsAppend(a: seq<Message>, b: seq<Message>)
    ensures Systems(a + b) == Systems(a) + Systems(b)
  {
    if a == [] {
      assert a + b == b;
    } else {
      assert (a + b)[1..] == a[1..] + b;
      SystemsAppend(a[1..], b);
      FilterCons(a);
      FilterCons(a + b);
      hide Systems;
      Assoc(IfSystem(a[0]), Systems(a[1..]), Systems(b));
    }
  }

  lemma {:induction false} SystemRun(h: seq<Message>)
    requires forall i :: 0 <= i < |h| ==> h[i].role.System?
    ensures CountNonSystem(h) == 0 && NonSystem(h) == [] && Systems(h) == h
  {
    if h == [] {
    } else {
      SystemRun(h[1..]);
    }
  }

  lemma LeadingSystemCount(h: seq<Message>)
    ensures CountNonSystem(h[LeadingSystem(h)..]) == CountNonSystem(h)
    ensures NonSystem(h[LeadingSystem(h)..]) == NonSystem(h)
  {
    var n := LeadingSystem(h);
    LeadingSystemIsMaximal(h);
    SystemRun(h[..n]);
    assert h == h[..n] + h[n..];
    CountAppend(h[..n], h[n..]);
  }

  lemma {:induction false} DroppedContents(h: seq<Message>, keep: nat)
    ensures Dropped(h, keep) == NonSystem(h)[..Removed(h, keep)]
  {
    if h == [] {
    } else {
      DroppedContents(h[1..], keep);
      DroppedCons(h, keep);
      RemovedCons(h, keep);
      FilterCons(h);
      hide Dropped, NonSystem, Removed, CountNonSystem;
    }
  }

  lemma DroppedCons(h: seq<Message>, keep: nat)
    requires h != []
    ensures Dropped(h, keep) == (if h[0].role.System? || CountNonSystem(h) <= keep then [] else [h[0]]) + Dropped(h[1..], keep)
  {
    assert h[0..] == h;
  }

  lemma RemovedCons(h: seq<Message>, keep: nat)
    requires h != []
    ensures Removed(h, keep) == Removed(h[1..], keep) + (if h[0].role.System? || CountNonSystem(h) <= keep then 0 else 1)
    ensures CountNonSystem(h) <= keep ==> Removed(h[1..], keep) == 0
    ensures Removed(h[1..], keep) <= |NonSystem(h[1..])|
  {}

  lemma {:induction false} SurvivorsContents(h: seq<Message>, keep: nat)
    ensures NonSystem(Survivors(h, keep)) == NonSystem(h)[Removed(h, keep)..]
    ensures Systems(Survivors(h, keep)) == Systems(h)
  {
    if h == [] {
    } else {
      SurvivorsContents(h[1..], keep);
      SurvivorsCons(h, keep);
      hide Survivors, Survives;
    }
  }

  /** What the first message adds to the survivors. */
  lemma SurvivorsCons(h: seq<Message>, keep: nat)
    requires h != []
    ensures var rest, stays := Survivors(h[1..], keep), h[0].role.System? || CountNonSystem(h) <= keep;
            && NonSystem(Survivors(h, keep)) == (if stays && !h[0].role.System? then [h[0]] else []) + NonSystem(rest)
            && Systems(Survivors(h, keep)) == (if h[0].role.System? then [h[0]] else []) + Systems(rest)
  {
    assert h[0..] == h;
    var rest := Survivors(h[1..], keep);
    if Survives(h, 0, keep) {
      assert Survivors(h, keep) == [h[0]] + rest;
      assert Survivors(h, keep)[1..] == rest;
    } else {
      assert Survivors(h, keep) == rest;
    }
  }

  lemma {:induction false} SurvivorsAreMembers(h: seq<Message>, keep: nat)
    ensures forall m :: m in Survivors(h, keep) ==> m in h
  {
    if h == [] {
    } else {
      SurvivorsAreMembers(h[1..], keep);
    }
  }

  lemma {:induction false} NonSystemOfNonSystem(h: seq<Message>)
    requires forall m :: m in h ==> !m.role.System?
    ensures NonSystem(h) == h
  {
    if h == [] {
    } else {
      NonSystemOfNonSystem(h[1..]);
    }
  }

  lemma CompactedWithoutSystems(h: seq<Message>, keep: nat, note: Message)
    requires forall m :: m in h ==> !m.role.System?
    ensures Compacted(h, keep, note) == if |h| > keep then [note] + h[|h| - keep..] else h
  {
    hide Survivors, CountNonSystem, NonSystem;
    NonSystemOfNonSystem(h);
    assert CountNonSystem(h) == |NonSystem(h)| == |h|;
    assert h[0..] == h;
    SurvivorsContents(h, keep);
    SurvivorsAreMembers(h, keep);
    NonSystemOfNonSystem(Survivors(h, keep));
  }

  lemma {:induction false} DroppedAndKeptInterleave(h: seq<Message>, keep: nat)
    ensures Shuffle(Dropped(h, keep), Survivors(h, keep), h)
  {
    if h == [] {
    } else {
      DroppedAndKeptInterleave(h[1..], keep);
      if Survives(h, 0, keep) {
        assert Survivors(h, keep) == [h[0]] + Survivors(h[1..], keep);
        assert Dropped(h, keep) == Dropped(h[1..], keep);
      } else {
        assert Dropped(h, keep) == [h[0]] + Dropped(h[1..], keep);
        assert Survivors(h, keep) == Survivors(h[1..], keep);
      }
    }
  }

  lemma {:induction false} SurvivorsAfterSystems(h: seq<Message>, i: nat, keep: nat)
    requires i <= LeadingSystem(h)
    ensures Survivors(h, keep) == h[..i] + Survivors(h[i..], keep)
  {
    if i == 0 {
      assert h[0..] == h && h[..0] == [];
    } else {
      assert Survivors(h, keep) == [h[0]] + Survivors(h[1..], keep);
      SurvivorsAfterSystems(h[1..], i - 1, keep);
      hide Survivors;
      assert h[1..][i - 1..] == h[i..];
      assert h[..i] == [h[0]] + h[1..][..i - 1];
      Assoc([h[0]], h[1..][..i - 1], Survivors(h[i..], keep));
    }
  }

  lemma NothingSurvives(keep: nat)
    ensures Survivors([], keep) == []
  {}

  /** One step of either compacting loop. */
  lemma SurvivorsStep(h: seq<Message>, i: nat, keep: nat)
    requires i < |h|
    ensures CountNonSystem(h[i..]) == (if h[i].role.System? then 0 else 1) + CountNonSystem(h[i + 1..])
    ensures NonSystem(h[i..]) == (if h[i].role.System? then [] else [h[i]]) + NonSystem(h[i + 1..])
    ensures Survivors(h[i..], keep)
         == (if h[i].role.System? || CountNonSystem(h[i..]) <= keep then [h[i]] else []) + Survivors(h[i + 1..], keep)
  {
    assert h[i..][1..] == h[i + 1..];
    assert h[i..][0..] == h[i..];
  }

  lemma NonSystemStep(h: seq<Message>, i: nat, taken: seq<Message>)
    requires i < |h|
    ensures (if h[i].role.System? then taken else taken + [h[i]]) + NonSystem(h[i + 1..]) == taken + NonSystem(h[i..])
  {
    assert h[i..][1..] == h[i + 1..];
    FilterCons(h[i..]);
    hide NonSystem;
    var rest := NonSystem(h[i + 1..]);
    assert [] + rest == rest;
    Assoc(taken, [h[i]], rest);
  }

  /** One step of a loop that skips the first `toSkip` non-system messages agrees
      with the rule: a message is skipped while more than `keep` are still to come. */
  lemma CompactionStep(h: seq<Message>, i: nat, keep: nat, kept: seq<Message>, all: seq<Message>, skipping: bool)
    requires i < |h|
    requires kept + Survivors(h[i..], keep) == all
    requires !h[i].role.System? ==> (skipping <==> CountNonSystem(h[i..]) > keep)
    ensures CountNonSystem(h[i..]) == (if h[i].role.System? then 0 else 1) + CountNonSystem(h[i + 1..])
    ensures (if !h[i].role.System? && skipping then kept else kept + [h[i]]) + Survivors(h[i + 1..], keep) == all
  {
    SurvivorsStep(h, i, keep);
    hide Survivors, CountNonSystem;
    var rest := Survivors(h[i + 1..], keep);
    assert [] + rest == rest;
    Assoc(kept, [h[i]], rest);
  }

  /** Compaction keeps exactly the right messages: every system message, the last
      `keep` others in order, and one note after the leading system messages. */
  lemma CompactionKeepsTheRightMessages(h: seq<Message>, keep: nat, note: Message)
    requires note.role.System?
    requires CountNonSystem(h) > keep
    ensures var c, lead := Compacted(h, keep, note), LeadingSystem(h);
            && NonSystem(c) == NonSystem(h)[CountNonSystem(h) - keep..]
            && CountNonSystem(c) == keep
            && Systems(c) == h[..lead] + [note] + Systems(h[lead..])
            && Systems(h) == h[..lead] + Systems(h[lead..])
  {
    hide NonSystem, Systems, CountNonSystem, Survivors, LeadingSystem;
    var lead := LeadingSystem(h);
    var pre, tail := h[..lead], h[lead..];
    LeadingSystemIsMaximal(h);
    LeadingSystemCount(h);
    CompactedFilters(pre, note, Survivors(tail, keep));
    SurvivorsContents(tail, keep);
    SystemRun(pre);
    assert h == pre + tail;
    CountAppend(pre, tail);
  }

  /** Apart from the note, dropped and kept messages interleave back to the
      original history, and what is dropped is its oldest non-system messages. */
  lemma CompactionOnlyDropsOldMessages(h: seq<Message>, keep: nat, note: Message)
    requires CountNonSystem(h) > keep
    ensures var c, lead := Compacted(h, keep, note), LeadingSystem(h);
            && lead < |c| && c[lead] == note
            && Shuffle(Dropped(h, keep), c[..lead] + c[lead + 1..], h)
            && Dropped(h, keep) == NonSystem(h)[..CountNonSystem(h) - keep]
  {
    var lead := LeadingSystem(h);
    var pre, rest := h[..lead], Survivors(h[lead..], keep);
    var c := Compacted(h, keep, note);
    assert c[..lead] == pre && c[lead + 1..] == rest;
    DroppedContents(h, keep);
    DroppedAndKeptInterleave(h, keep);
    SurvivorsAfterSystems(h, lead, keep);
  }

  lemma CompactedFilters(pre: seq<Message>, note: Message, rest: seq<Message>)
    requires note.role.System?
    requires forall i :: 0 <= i < |pre| ==> pre[i].role.System?
    ensures NonSystem(pre + [note] + rest) == NonSystem(rest) == NonSystem(pre + rest)
    ensures Systems(pre + [note] + rest) == pre + [note] + Systems(rest)
    ensures CountNonSystem(pre + [note] + rest) == CountNonSystem(rest)
  {
    SystemRun(pre + [note]);
    SystemRun(pre);
    CountAppend(pre + [note], rest);
    CountAppend(pre, rest);
  }

  /** Compacting again with the same budget changes nothing. */
  lemma CompactionIsStable(h: seq<Message>, keep: nat, note: Message, note': Message)
    requires note.role.System?
    ensures CountNonSystem(Compacted(h, keep, note))
         == if CountNonSystem(h) < keep then CountNonSystem(h) else keep
    ensures Compacted(Compacted(h, keep, note), keep, note') == Compacted(h, keep, note)
  {
    if CountNonSystem(h) > keep {
      CompactionKeepsTheRightMessages(h, keep, note);
    }
  }

  /** If the history only grew while a summary was being written, the slice that is
      finally dropped extends the slice that was summarised, by exactly as many
      messages as non-system messages arrived meanwhile. */
  lemma GrowthExtendsTheSummarisedSlice(h: seq<Message>, arrived: seq<Message>, keep: nat)
    requires CountNonSystem(h) > keep
    ensures LeadingSystem(h + arrived) == LeadingSystem(h)
    ensures Dropped(h, keep) <= Dropped(h + arrived, keep)
    ensures |Dropped(h + arrived, keep)| == |Dropped(h, keep)| + CountNonSystem(arrived)
  {
    CountAppend(h, arrived);
    DroppedContents(h, keep);
    DroppedContents(h + arrived, keep);
    LeadingSystemAppend(h, arrived);
    var n := CountNonSystem(h) - keep;
    assert (NonSystem(h) + NonSystem(arrived))[..n] == NonSystem(h)[..n];
  }

  lemma {:induction false} LeadingSystemAppend(h: seq<Message>, more: seq<Message>)
    requires CountNonSystem(h) > 0
    ensures LeadingSystem(h + more) == LeadingSystem(h)
  {
    assert (h + more)[1..] == h[1..] + more;
    if !h[0].role.System? {
    } else {
      LeadingSystemAppend(h[1..], more);
    }
  }

  datatype Slice = Slice(leadingSystem: nat, dropCount: nat, dropped: seq<Message>)

  datatype Outcome = Outcome(performed: bool, messagesRemoved: nat, failureReason: string)

  /** What the summarisation request came back with. */
  datatype Summary = Written(text: string) | Failed(reason: string)

  method CountNonSystemMessages(h: seq<Message>) returns (n: nat)
    ensures n == CountNonSystem(h)
  {
    n := 0;
    for i := 0 to |h|
      invariant n == CountNonSystem(h[..i])
    {
      assert h[..i + 1] == h[..i] + [h[i]];
      CountAppend(h[..i], [h[i]]);
      if !h[i].role.System? {
        n := n + 1;
      }
    }
    assert h[..|h|] == h;
  }

  /** The slice truncation would drop, found without changing anything. */
  method SnapshotSlice(h: seq<Message>, keep: nat) returns (r: Slice)
    ensures r.leadingSystem == LeadingSystem(h)
    ensures r.dropCount == Removed(h, keep)
    ensures r.dropped == Dropped(h, keep)
  {
    hide NonSystem, CountNonSystem, LeadingSystem, Dropped;
    LeadingSystemIsMaximal(h);
    var lead := 0;
    while lead < |h| && h[lead].role.System?
      invariant lead <= LeadingSystem(h)
    {
      lead := lead + 1;
    }
    var nonSystem := CountNonSystemMessages(h);
    DroppedContents(h, keep);
    if nonSystem <= keep {
      return Slice(lead, 0, []);
    }
    var dropCount := nonSystem - keep;
    var dropped: seq<Message> := [];
    var consumed, i := 0, lead;
    LeadingSystemCount(h);
    while i < |h| && consumed < dropCount
      invariant lead <= i <= |h|
      invariant consumed == |dropped| <= dropCount
      invariant dropped + NonSystem(h[i..]) == NonSystem(h)
    {
      NonSystemStep(h, i, dropped);
      if !h[i].role.System? {
        dropped := dropped + [h[i]];
        consumed := consumed + 1;
      }
      i := i + 1;
    }
    assert (dropped + NonSystem(h[i..]))[..consumed] == dropped;
    r := Slice(lead, dropCount, dropped);
  }

  /** From `first` on, everything but the first `toRemove` non-system messages. */
  method SkipOldest(h: seq<Message>, first: nat, toRemove: nat, ghost keep: nat) returns (kept: seq<Message>)
    requires first <= |h| && toRemove > 0 && CountNonSystem(h[first..]) == toRemove + keep
    ensures kept == Survivors(h[first..], keep)
  {
    kept := [];
    ghost var all := Survivors(h[first..], keep);
    var removed, i := 0, first;
    while i < |h|
      invariant first <= i <= |h| && removed <= toRemove
      invariant kept + Survivors(h[i..], keep) == all
      invariant CountNonSystem(h[i..]) <= toRemove + keep - removed
      invariant removed < toRemove ==> CountNonSystem(h[i..]) == toRemove + keep - removed
    {
      CompactionStep(h, i, keep, kept, all, removed < toRemove);
      if !h[i].role.System? && removed < toRemove {
        removed := removed + 1;
      } else {
        kept := kept + [h[i]];
      }
      i := i + 1;
    }
  }

  /** The shared conversation vector, with the appends the prompt processor makes
      and the two ways of compacting it. */
  class ChatHistory {
    var messages: seq<Message>

    constructor ()
      ensures messages == []
    {
      messages := [];
    }

    method AppendActiveUserMessage(id: nat, content: string, run: nat)
      modifies this
      ensures messages == old(messages) + [ActiveUserMessage(id, content, run)]
    {
      messages := messages + [Message(id, User, Active, content, [], "", "", FromRun(run))];
    }

    method AppendAssistantToolRound(id: nat, content: string, calls: seq<ToolCall>, run: nat)
      modifies this
      ensures messages == old(messages) + [AssistantToolRound(id, content, calls, run)]
    {
      messages := messages + [Message(id, Assistant, Complete, content, calls, "", "", FromRun(run))];
    }

    method AppendToolResult(id: nat, call: ToolCall, content: string, isError: bool, run: nat)
      modifies this
      ensures messages == old(messages) + [ToolResultMessage(id, call, content, isError, run)]
    {
      var status := if isError then Error else Complete;
      messages := messages + [Message(id, Tool, status, content, [], call.id, call.name, FromRun(run))];
    }

    method AppendFinalAssistantMessage(id: nat, content: string, run: nat)
      modifies this
      ensures messages == old(messages) + [FinalAssistantMessage(id, content, run)]
    {
      messages := messages + [Message(id, Assistant, Complete, content, [], "", "", FromRun(run))];
    }

    /** Rebuilds the vector, counting the messages it skips. */
    method CompactHistory(keep: nat)
      modifies this
      ensures messages == Truncated(old(messages), keep)
    {
      var nonSystem := CountNonSystemMessages(messages);
      if nonSystem <= keep {
        return;
      }
      LeadingSystemCount(messages);
      var first := LeadingSystem(messages);
      var kept := SkipOldest(messages, first, nonSystem - keep, keep);
      messages := messages[..first] + [TruncationNote(nonSystem - keep)] + kept;
    }

    /** Drops the first `dropCount` non-system messages after the leading system
        ones, and puts the summary in their place. */
    method ReplaceSliceWithSummary(leadingSystem: nat, dropCount: nat, summary: string, ghost keep: nat)
      requires leadingSystem == LeadingSystem(messages)
      requires CountNonSystem(messages) > keep && dropCount == CountNonSystem(messages) - keep
      modifies this
      ensures messages == Compacted(old(messages), keep, SummaryNote(summary))
    {
      hide CountNonSystem, Survivors, LeadingSystem, SummaryNote;
      var h := messages;
      var compacted: seq<Message> := [];
      for i := 0 to leadingSystem
        invariant compacted == h[..i]
      {
        compacted := compacted + [h[i]];
      }
      compacted := compacted + [SummaryNote(summary)];
      ghost var start, kept, all := compacted, [], Survivors(h[leadingSystem..], keep);
      ghost var nonSystem := CountNonSystem(h);
      var skipped := 0;
      LeadingSystemCount(h);
      for i := leadingSystem to |h|
        invariant skipped <= dropCount
        invariant compacted == start + kept && kept + Survivors(h[i..], keep) == all
        invariant CountNonSystem(h[i..]) <= nonSystem - skipped
        invariant skipped < dropCount ==> CountNonSystem(h[i..]) == nonSystem - skipped
      {
        CompactionStep(h, i, keep, kept, all, skipped < dropCount);
        kept := if !h[i].role.System? && skipped < dropCount then kept else kept + [h[i]];
        if !h[i].role.System? && skipped < dropCount {
          skipped := skipped + 1;
        } else {
          compacted := compacted + [h[i]];
        }
      }
      NothingSurvives(keep);
      assert kept == all;
      messages := compacted;
    }

    method RunTruncate(keep: nat) returns (outcome: Outcome)
      modifies this
      ensures messages == Truncated(old(messages), keep)
      ensures outcome == Outcome(Removed(old(messages), keep) > 0, Removed(old(messages), keep), "")
    {
      var before := CountNonSystemMessages(messages);
      if before <= keep {
        return Outcome(false, 0, "");
      }
      CompactHistory(keep);
      outcome := Outcome(true, before - keep, "");
    }

    /** Snapshot, a long call without the lock, and a replacement that recomputes
        the slice. `atRelock` is the history as other threads left it when the lock
        is taken again; `sent` is the slice the model was asked to summarise. */
    method RunSummarize(keep: nat, atRelock: seq<Message>, summary: Summary)
      returns (outcome: Outcome, sent: seq<Message>)
      modifies this
      ensures sent == Dropped(old(messages), keep)
      ensures Removed(old(messages), keep) == 0 ==> messages == old(messages) && outcome == Outcome(false, 0, "")
      ensures Removed(old(messages), keep) > 0 ==>
                && outcome.performed == (Removed(atRelock, keep) > 0)
                && outcome.messagesRemoved == Removed(atRelock, keep)
                && match summary
                   case Written(text) =>
                     messages == Compacted(atRelock, keep, SummaryNote(text)) && outcome.failureReason == ""
                   case Failed(reason) =>
                     messages == Truncated(atRelock, keep) && outcome.failureReason != ""
    {
      var boundaries := SnapshotSlice(messages, keep);
      sent := boundaries.dropped;
      if boundaries.dropCount == 0 {
        return Outcome(false, 0, ""), sent;
      }
      messages := atRelock;
      match summary
      case Failed(reason) =>
        outcome := RunTruncate(keep);
        outcome := outcome.(failureReason := if reason == "" then "summarization failed" else reason);
      case Written(text) =>
        var current := SnapshotSlice(messages, keep);
        if current.dropCount == 0 {
          return Outcome(false, 0, ""), sent;
        }
        ReplaceSliceWithSummary(current.leadingSystem, current.dropCount, text, keep);
        outcome := Outcome(true, current.dropCount, "");
    }
  }
}
