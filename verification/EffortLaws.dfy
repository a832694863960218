/** What setting and clearing an effort does to the file, for every file. */
module EffortLaws {
  import opened Ascii
  import opened Numerals
  import opened TomlLines
  import opened TomlSyntax
  import opened TomlEditor
  import opened TomlLaws
  import opened TomlEffort

  /** The effort that block number `index` assigns. */
  function EffortOf(content: string, index: nat): Option<string> {
    var ls := Split(content);
    var s := BlockAt(ls, 0, index);
    if s == |ls| || EffortAt(ls, s) == BlockEnd(ls, s) then None else AssignedValue(ls[EffortAt(ls, s)].text, "effort")
  }

  /** The assignment replaces another, or the line before it is ended. */
  predicate OwnLine(ls: seq<Line>, s: nat)
    requires s < |ls|
  {
    EffortAt(ls, s) < BlockEnd(ls, s) || ls[InsertAt(ls, s) - 1].newline != ""
  }

  /** The assignment can be read, although there may be blanks before it. */
  predicate Readable(ls: seq<Line>, s: nat)
    requires s < |ls|
  {
    OwnLine(ls, s) || TrimLeft(ls[InsertAt(ls, s) - 1].text) == ""
  }

  // ---------- an assignment glued to other text ----------

  lemma {:induction false} TrimLeftConcat(t: string, text: string)
    requires text != "" && !IsSpace(text[0])
    ensures TrimLeft(t + text) == if TrimLeft(t) == "" then text else TrimLeft(t) + text
  {
    if t == "" {
      assert t + text == text;
    } else if IsSpace(t[0]) {
      assert (t + text)[1..] == t[1..] + text;
      TrimLeftConcat(t[1..], text);
    }
  }

  /** No proper start of "effort" goes on with another "effort". */
  lemma NoOverlap(t: string, text: string)
    requires 0 < |t| < 6 && |text| >= 6 && text[0] == 'e'
    ensures !("effort" <= t + text)
  {
    var l := t + text;
    assert l[|t|] == 'e';
    assert "effort"[1] == 'f' && "effort"[2] == 'f' && "effort"[3] == 'o' && "effort"[4] == 'r' && "effort"[5] == 't';
  }

  lemma GluedIsNoAssignment(t: string, text: string)
    requires TrimLeft(t) != "" && !IsAssignment(t, "effort")
    requires |text| >= 6 && text[0] == 'e'
    ensures !IsAssignment(t + text, "effort")
  {
    TrimLeftConcat(t, text);
    hide TrimLeft;
    var l := TrimLeft(t);
    assert !AssignsEffort(l);
    GluedAssignsNothing(l, text);
  }

  /** What `IsAssignment` asks of a line behind its blanks. */
  predicate AssignsEffort(l: string) {
    && l != "" && l[0] != '#' && "effort" <= l
    && var rest := TrimLeft(l[|"effort"|..]);
       rest != "" && rest[0] == '='
  }

  lemma GluedAssignsNothing(l: string, text: string)
    requires l != "" && !AssignsEffort(l) && |text| >= 6 && text[0] == 'e'
    ensures !AssignsEffort(l + text)
  {
    if |l| < 6 {
      NoOverlap(l, text);
      hide TrimLeft;
    } else if "effort" <= l {
      assert (l + text)[6..] == l[6..] + text;
      TrimLeftConcat(l[6..], text);
      hide TrimLeft;
    } else {
      NoOtherStart("effort", l, text);
      hide TrimLeft;
    }
  }

  lemma NoOtherStart(key: string, l: string, text: string)
    requires |key| <= |l| && !(key <= l)
    ensures !(key <= l + text)
  {
    assert (l + text)[..|key|] == l[..|key|];
  }

  lemma BlanksDoNotMatter(t: string, text: string)
    requires TrimLeft(t) == "" && PlainKey("effort") && IsAssignment(text, "effort") && text[0] == 'e'
    ensures IsAssignment(t + text, "effort") && !IsAnyHeader(t + text)
    ensures AssignedValue(t + text, "effort") == AssignedValue(text, "effort")
  {
    hide IsAnyHeader, ReadBasic, BlankOrComment;
    TrimLeftConcat(t, text);
    assert TrimLeft(text) == text;
    hide TrimLeft;
    AssignmentsAreNotHeaders(t + text, "effort");
  }

  lemma EffortAssignment(v: string)
    ensures var text := Assignment("effort", v);
            && |text| >= 6 && text[0] == 'e' && NoBreaks(text) && IsAssignment(text, "effort") && PlainKey("effort")
            && !IsAnyHeader(text)
            && AssignedValue(text, "effort") == if NoDel(v) then Some(v) else None
  {
    PlainKeys();
    AssignmentFacts("effort", v);
    AssignedReadsBack("effort", v);
  }

  // ---------- the three ways of setting ----------

  /** Replacing the block's assignment. */
  lemma ReplacedEffort(ls: seq<Line>, s: nat, index: nat, text: string)
    requires Loose(ls) && Tight(ls) && s < |ls| && BlockAt(ls, 0, index) == s && EffortAt(ls, s) < BlockEnd(ls, s)
    requires text != "" && NoBreaks(text) && IsAssignment(text, "effort") && PlainKey("effort")
    ensures var e := EffortAt(ls, s);
            var m := Replaced(ls, e, text);
            && Split(Join(m)) == m && BlockAt(m, 0, index) == s
            && EffortAt(m, s) == e < BlockEnd(m, s)
  {
    hide Split, Join, Is, IsAssignment, Seek, Tight, Loose, NoBreaks, PlainKey;
    var e := EffortAt(ls, s);
    var m := Replaced(ls, e, text);
    IsKey(ls[e].text, "effort");
    IsKey(text, "effort");
    OnlyAKey(ls[e].text, "effort", AnyHeader);
    OnlyAKey(text, "effort", AnyHeader);
    ReplacedSplits(ls, e, text);
    ReplacedSeek(ls, AnyHeader, s + 1, |ls|, e, text);
    ReplacedSeek(ls, Key("effort"), s + 1, BlockEnd(ls, s), e, text);
    BlockPrefix(ls, m, 0, index);
  }

  /** Inserting it as a line of its own. */
  lemma InsertedEffort(ls: seq<Line>, s: nat, index: nat, text: string)
    requires Loose(ls) && Tight(ls) && s < |ls| && BlockAt(ls, 0, index) == s && EffortAt(ls, s) == BlockEnd(ls, s)
    requires ls[InsertAt(ls, s) - 1].newline != ""
    requires text != "" && NoBreaks(text) && IsAssignment(text, "effort")
    ensures var k, line := InsertAt(ls, s), Line(text, DetectNewline(ls));
            var m := Absorbed(ls, k, line);
            && Split(Join(Inserted(ls, k, line))) == m && k < |m| && m[k].text == text
            && BlockAt(m, 0, index) == s < |m| && EffortAt(m, s) == k < BlockEnd(m, s)
  {
    hide Split, Join, Is, IsAssignment, Seek, Tight, Loose, NoBreaks, IsNewline, DetectNewline, InsertAt;
    var k, line := InsertAt(ls, s), Line(text, DetectNewline(ls));
    NewlineIsNewline(ls);
    InsertedSplits(ls, k, line);
    var m := Absorbed(ls, k, line);
    assert m[..k] == ls[..k];
    InsertedIsFound(ls, m, s, text);
    assert forall j :: 0 <= j <= s ==> m[j] == ls[j];
    BlockPrefix(ls, m, 0, index);
  }

  lemma {:induction false} BlockIsOne(ls: seq<Line>, i: nat, index: nat)
    requires i <= |ls| && BlockAt(ls, i, index) < |ls|
    ensures Is(SettingsBlock, ls[BlockAt(ls, i, index)].text)
    decreases |ls| - i
  {
    hide Is, Seek;
    var r := Seek(ls, SettingsBlock, i, |ls|);
    if index == 0 {
    } else {
      BlockIsOne(ls, r + 1, index - 1);
    }
  }

  lemma BlankIsNoBlock(text: string)
    requires TrimLeft(text) == ""
    ensures !Is(SettingsBlock, text)
  {
    NothingIsAHeader(text);
  }

  /** Glued to blanks, it is the block's effort all the same. */
  lemma GluedBlankIsFound(ls: seq<Line>, s: nat, text: string, nl: string)
    requires s < |ls| - 1 && EffortAt(ls, s) == BlockEnd(ls, s) && InsertAt(ls, s) == |ls|
    requires IsAssignment(ls[|ls| - 1].text + text, "effort") && !IsAnyHeader(ls[|ls| - 1].text + text)
    ensures var m := Glued(ls, text, nl);
            EffortAt(m, s) == |ls| - 1 < BlockEnd(m, s)
  {
    hide IsAssignment, IsAnyHeader, Seek, InsertAt;
    var m, last := Glued(ls, text, nl), |ls| - 1;
    NoHeaderBefore(ls, s);
    assert forall j :: s < j < last ==> m[j] == ls[j];
    SeekAtLeast(m, AnyHeader, s + 1, |m|, |m|);
    SeekIs(m, Key("effort"), s + 1, BlockEnd(m, s), last);
  }

  /** Glued to anything else, it is not. */
  lemma NoGluedEffort(ls: seq<Line>, s: nat, text: string, nl: string)
    requires s < |ls| && EffortAt(ls, s) == BlockEnd(ls, s) && InsertAt(ls, s) == |ls|
    requires TrimLeft(ls[|ls| - 1].text) != "" && |text| >= 6 && text[0] == 'e'
    ensures var m := Glued(ls, text, nl);
            EffortAt(m, s) == BlockEnd(m, s)
  {
    hide IsAssignment, IsAnyHeader, Seek, InsertAt, TrimLeft;
    var m, last := Glued(ls, text, nl), |ls| - 1;
    NoHeaderBefore(ls, s);
    EffortIsGlued(ls, s, text, nl);
    if s < last {
      IsKey(ls[last].text, "effort");
      IsKey(m[last].text, "effort");
      GluedIsNoAssignment(ls[last].text, text);
    }
  }

  /** Lengthening the last line. */
  lemma GluedEffort(ls: seq<Line>, s: nat, index: nat, text: string, nl: string)
    requires Loose(ls) && Tight(ls) && s < |ls| && BlockAt(ls, 0, index) == s && EffortAt(ls, s) == BlockEnd(ls, s)
    requires ls[InsertAt(ls, s) - 1].newline == ""
    requires |text| >= 6 && text[0] == 'e' && IsAssignment(text, "effort") && PlainKey("effort")
    ensures InsertAt(ls, s) == |ls|
    ensures var m := Glued(ls, text, nl);
            var s' := BlockAt(m, 0, index);
            if TrimLeft(ls[|ls| - 1].text) == "" then
              s' == s && EffortAt(m, s) == |ls| - 1 < BlockEnd(m, s)
              && AssignedValue(m[|ls| - 1].text, "effort") == AssignedValue(text, "effort")
            else s' < |m| ==> s' == s && EffortAt(m, s) == BlockEnd(m, s)
  {
    hide Is, IsAssignment, Seek, Tight, BlockAt, InsertAt, TrimLeft, IsAnyHeader, AssignedValue, ArrayHeader, EffortAt;
    EndedBefore(ls, InsertAt(ls, s) - 1);
    var m, last := Glued(ls, text, nl), |ls| - 1;
    if TrimLeft(ls[last].text) == "" {
      BlockIsOne(ls, 0, index);
      BlankIsNoBlock(ls[last].text);
      BlanksDoNotMatter(ls[last].text, text);
      assert forall j :: 0 <= j < last ==> m[j] == ls[j];
      BlockPrefix(ls, m, 0, index);
      GluedBlankIsFound(ls, s, text, nl);
    } else if BlockAt(m, 0, index) < |m| {
      GluedBlock(ls, s, index, text, nl);
      NoGluedEffort(ls, s, text, nl);
    }
  }

  lemma EffortWithin(ls: seq<Line>, s: nat)
    requires s < |ls|
    ensures EffortAt(ls, s) <= BlockEnd(ls, s) <= |ls|
  {
    hide Is;
  }

  // ---------- reading back ----------

  /** What the block says after an effort was set, for every file, block and effort: the
      new effort, unless it holds a DEL, or the assignment was glued to a last line
      without a break that holds more than blanks. */
  lemma EffortReadsBack(content: string, provider: string, model: string, effort: string, index: nat)
    ensures var ls := Split(content);
            var s := BlockAt(ls, 0, index);
            var edited := WithEffort(content, provider, model, Some(effort), Some(index));
            && (edited.Some? <==> s < |ls|)
            && (edited.Some? ==>
                  EffortOf(edited.value, index) == if NoDel(effort) && Readable(ls, s) then Some(effort) else None)
  {
    hide Split, Join, Is, IsAssignment, Seek, Tight, Loose, NoBreaks, IsNewline, DetectNewline, Assignment,
         PlainKey, BlockAt, EffortAt, BlockEnd, InsertAt, AssignedValue, TrimLeft, NoDel, Absorbed;
    var ls := Split(content);
    var s, text := BlockAt(ls, 0, index), Assignment("effort", effort);
    if s < |ls| {
      SplitIsTight(content);
      EffortAssignment(effort);
      NewlineIsNewline(ls);
      EffortWithin(ls, s);
      if EffortAt(ls, s) < BlockEnd(ls, s) {
        ReplacedEffort(ls, s, index, text);
      } else if ls[InsertAt(ls, s) - 1].newline != "" {
        InsertedEffort(ls, s, index, text);
      } else {
        GluedEffort(ls, s, index, text, DetectNewline(ls));
        GluedSplits(ls, text, DetectNewline(ls));
      }
    }
  }

  // ---------- setting twice ----------

  lemma SetTwiceGlued(content: string, s: nat, index: nat, a: string, b: string)
    requires var ls := Split(content);
             && BlockAt(ls, 0, index) == s < |ls| && EffortAt(ls, s) == BlockEnd(ls, s)
             && ls[InsertAt(ls, s) - 1].newline == ""
    requires |a| >= 6 && a[0] == 'e' && NoBreaks(a) && IsAssignment(a, "effort") && PlainKey("effort") && b != ""
    ensures var ls := Split(content);
            var nl := DetectNewline(ls);
            var m := Glued(ls, a, nl);
            && Split(Join(SetEffort(ls, nl, s, a))) == m
            && (BlockAt(m, 0, index) < |m| ==>
                  |Join(SetEffort(m, DetectNewline(m), BlockAt(m, 0, index), b))| != |Join(SetEffort(ls, nl, s, b))|)
  {
    hide Split, Is, Join, IsAssignment, Seek, Loose, NoBreaks, DetectNewline, PlainKey, BlockAt, EffortAt, BlockEnd,
         InsertAt, TrimLeft, AssignedValue;
    var ls := Split(content);
    var nl := DetectNewline(ls);
    var m, last := Glued(ls, a, nl), |ls| - 1;
    SplitIsTight(content);
    NewlineIsNewline(ls);
    GluedEffort(ls, s, index, a, nl);
    GluedSplits(ls, a, nl);
    JoinInserted(ls, |ls|, Line(b, nl));
    assert ls[|ls|..] == [];
    JoinNothing();
    if BlockAt(m, 0, index) < |m| {
      if EffortAt(m, s) < BlockEnd(m, s) {
        JoinReplaced(m, last, b);
        JoinAround(ls, last);
        assert m[last + 1..] == [] && ls[last + 1..] == [] && m[..last] == ls[..last];
      } else {
        JoinInserted(m, InsertAt(m, s), Line(b, DetectNewline(m)));
        JoinAround(ls, last);
        JoinAround(m, last);
        assert m[last + 1..] == [] && ls[last + 1..] == [] && m[..last] == ls[..last];
      }
    }
  }

  lemma SetTwiceReplaced(content: string, s: nat, index: nat, a: string, b: string)
    requires var ls := Split(content);
             BlockAt(ls, 0, index) == s < |ls| && EffortAt(ls, s) < BlockEnd(ls, s)
    requires a != "" && NoBreaks(a) && IsAssignment(a, "effort") && PlainKey("effort")
    ensures var ls := Split(content);
            var m := Split(Join(SetEffort(ls, DetectNewline(ls), s, a)));
            && BlockAt(m, 0, index) == s < |m|
            && SetEffort(m, DetectNewline(m), s, b) == SetEffort(ls, DetectNewline(ls), s, b)
  {
    hide Split, Is, Join, IsAssignment, Seek, Loose, Tight, NoBreaks, DetectNewline, PlainKey, BlockAt, EffortAt,
         BlockEnd, InsertAt, Replaced;
    var ls := Split(content);
    SplitIsTight(content);
    EffortWithin(ls, s);
    ReplacedEffort(ls, s, index, a);
    ReplacedTwice(ls, EffortAt(ls, s), a, b);
    assert |Replaced(ls, EffortAt(ls, s), a)| == |ls| by {
      ReplacedLength(ls, EffortAt(ls, s), a);
    }
  }

  lemma ReplacedLength(ls: seq<Line>, n: nat, text: string)
    requires n < |ls|
    ensures |Replaced(ls, n, text)| == |ls|
  {}

  lemma SetTwiceOnItsLine(content: string, s: nat, index: nat, a: string, b: string)
    requires var ls := Split(content);
             && BlockAt(ls, 0, index) == s < |ls| && EffortAt(ls, s) == BlockEnd(ls, s)
             && ls[InsertAt(ls, s) - 1].newline != ""
    requires a != "" && NoBreaks(a) && IsAssignment(a, "effort")
    requires b != "" && NoBreaks(b) && IsAssignment(b, "effort")
    ensures var ls := Split(content);
            var m := Split(Join(SetEffort(ls, DetectNewline(ls), s, a)));
            && BlockAt(m, 0, index) == s < |m|
            && Join(SetEffort(m, DetectNewline(m), s, b)) == Join(SetEffort(ls, DetectNewline(ls), s, b))
  {
    hide Split, Is, Join, IsAssignment, Seek, Loose, Tight, NoBreaks, DetectNewline, BlockAt, EffortAt, BlockEnd,
         InsertAt, Replaced,
         Inserted, Absorbed;
    var ls := Split(content);
    var k, nl := InsertAt(ls, s), DetectNewline(ls);
    SplitIsTight(content);
    InsertedEffort(ls, s, index, a);
    InsertedEffort(ls, s, index, b);
    AbsorbedText(ls, k, nl, a, b);
    JoinSplit(Join(Inserted(ls, k, Line(b, nl))));
  }

  /** Setting one effort and then another on the same block leaves the file as setting the
      other alone would, exactly unless the assignment had to go behind a last line that
      lacks its break. */
  lemma TheLastEffortWins(content: string, provider: string, model: string, a: string, b: string, index: nat)
    ensures var ls := Split(content);
            var s := BlockAt(ls, 0, index);
            s < |ls| ==>
              var once := WithEffort(content, provider, model, Some(a), Some(index));
              && once.Some?
              && (OwnLine(ls, s) <==>
                    WithEffort(once.value, provider, model, Some(b), Some(index))
                      == WithEffort(content, provider, model, Some(b), Some(index)))
  {
    hide Split, Join, Is, IsAssignment, Seek, Tight, Loose, NoBreaks, IsNewline, DetectNewline, Assignment,
         PlainKey, BlockAt, EffortAt, BlockEnd, InsertAt, AssignedValue, SetEffort, Glued;
    var ls := Split(content);
    var s := BlockAt(ls, 0, index);
    var ta, tb := Assignment("effort", a), Assignment("effort", b);
    if s < |ls| {
      EffortWithin(ls, s);
      EffortAssignment(a);
      EffortAssignment(b);
      if EffortAt(ls, s) < BlockEnd(ls, s) {
        SetTwiceReplaced(content, s, index, ta, tb);
      } else if ls[InsertAt(ls, s) - 1].newline != "" {
        SetTwiceOnItsLine(content, s, index, ta, tb);
      } else {
        SetTwiceGlued(content, s, index, ta, tb);
      }
    }
  }

  // ---------- everything else stays ----------

  /** What an edit may do: replace the text of the effort's line, add one line, take the
      effort's line out, append a block, or nothing. */
  ghost predicate EffortPatch(gone: string, added: string, after: string, text: Option<string>, block: string, nl: string) {
    || (text.Some? && IsAssignment(gone, "effort") && NoBreaks(gone) && added == text.value)
    || (text.Some? && gone == "" && added == text.value + nl)
    || (text.None? && added == "" && exists line, end :: gone == line + end && IsAssignment(line, "effort") && NoBreaks(line)
                                                        && (end == "" || IsNewline(end)))
    || (text.Some? && gone == "" && after == "" && exists gap :: gap in ["", nl, nl + nl] && added == gap + block)
    || (text.None? && gone == "" && added == "")
  }

  ghost predicate OnlyPatched(content: string, edited: string, text: Option<string>, block: string, nl: string) {
    exists before, gone, added, after ::
      Patch(content, edited, before, gone, added, after) && EffortPatch(gone, added, after, text, block, nl)
  }

  lemma PatchShows(content: string, edited: string, text: Option<string>, block: string, nl: string,
                   before: string, gone: string, added: string, after: string)
    requires Patch(content, edited, before, gone, added, after) && EffortPatch(gone, added, after, text, block, nl)
    ensures OnlyPatched(content, edited, text, block, nl)
  {}

  function EffortText(effort: Option<string>): Option<string> {
    if effort.None? then None else Some(Assignment("effort", effort.value))
  }

  /** Bytes outside the touched line or the appended block are unchanged, whether an effort
      is set, cleared or appended. */
  lemma OnlyTheEffortChanges(content: string, provider: string, model: string, effort: Option<string>, index: Option<nat>)
    ensures var edited := WithEffort(content, provider, model, effort, index);
            var nl := DetectNewline(Split(content));
            var block := if effort.None? then "" else Join(NewBlock(provider, model, effort.value, nl));
            edited.Some? ==> OnlyPatched(content, edited.value, EffortText(effort), block, nl)
  {
    hide Split, Join, Is, Assignment, DetectNewline, Closed, NewBlock, Seek, BlockAt, SetEffort, ClearEffort,
         OnlyPatched;
    var ls := Split(content);
    var nl := DetectNewline(ls);
    JoinSplit(content);
    if index.Some? {
      var s := BlockAt(ls, 0, index.value);
      if s < |ls| {
        if effort.Some? {
          SetIsPatch(content, s, Assignment("effort", effort.value), Join(NewBlock(provider, model, effort.value, nl)));
        } else {
          ClearIsPatch(content, s, nl);
        }
      }
    } else if effort.Some? {
      AppendIsPatch(content, NewBlock(provider, model, effort.value, nl), Assignment("effort", effort.value));
    } else {
      NothingIsPatch(content, nl);
    }
  }

  lemma NothingIsPatch(content: string, nl: string)
    ensures OnlyPatched(content, content, None, "", nl)
  {
    assert content == content + ("" + "");
    PatchShows(content, content, None, "", nl, content, "", "", "");
  }

  lemma AppendIsPatch(content: string, block: seq<Line>, text: string)
    ensures var ls := Split(content);
            var nl := DetectNewline(ls);
            OnlyPatched(content, Join(Closed(ls, nl) + block), Some(text), Join(block), nl)
  {
    hide Split, Join, DetectNewline, Closed, OnlyPatched;
    var ls := Split(content);
    var nl := DetectNewline(ls);
    JoinSplit(content);
    var gap := JoinClosed(ls, nl);
    JoinConcat(Closed(ls, nl), block);
    assert gap in ["", nl, nl + nl];
    assert content == content + ("" + "") && (content + gap) + Join(block) == content + ((gap + Join(block)) + "");
    PatchShows(content, Join(Closed(ls, nl) + block), Some(text), Join(block), nl, content, "", gap + Join(block), "");
  }

  lemma EffortLineIsPlain(ls: seq<Line>, e: nat)
    requires Loose(ls) && e < |ls| && Is(Key("effort"), ls[e].text)
    ensures NoBreaks(ls[e].text) && IsAssignment(ls[e].text, "effort")
    ensures ls[e].newline == "" || IsNewline(ls[e].newline)
  {}

  lemma SetIsPatch(content: string, s: nat, text: string, block: string)
    requires s < |Split(content)|
    ensures var ls := Split(content);
            var nl := DetectNewline(ls);
            OnlyPatched(content, Join(SetEffort(ls, nl, s, text)), Some(text), block, nl)
  {
    hide Split, Join, Is, DetectNewline, Seek, OnlyPatched, InsertAt, NoBreaks, IsAssignment;
    var ls := Split(content);
    var nl, e, k := DetectNewline(ls), EffortAt(ls, s), InsertAt(ls, s);
    SplitIsTight(content);
    JoinSplit(content);
    var edited := Join(SetEffort(ls, nl, s, text));
    if e < BlockEnd(ls, s) {
      EffortLineIsPlain(ls, e);
      JoinAround(ls, e);
      JoinReplaced(ls, e, text);
      PatchShows(content, edited, Some(text), block, nl, Join(ls[..e]), ls[e].text, text, ls[e].newline + Join(ls[e + 1..]));
    } else {
      JoinInserted(ls, k, Line(text, nl));
      assert "" + Join(ls[k..]) == Join(ls[k..]);
      PatchShows(content, edited, Some(text), block, nl, Join(ls[..k]), "", text + nl, Join(ls[k..]));
    }
  }

  lemma ClearIsPatch(content: string, s: nat, nl: string)
    requires s < |Split(content)|
    ensures OnlyPatched(content, Join(ClearEffort(Split(content), s)), None, "", nl)
  {
    hide Split, Join, Is, Seek, OnlyPatched, NoBreaks, IsAssignment;
    var ls := Split(content);
    var e := EffortAt(ls, s);
    SplitIsTight(content);
    JoinSplit(content);
    if e < BlockEnd(ls, s) {
      EffortLineIsPlain(ls, e);
      JoinAround(ls, e);
      JoinConcat(ls[..e], ls[e + 1..]);
      var gone, after := ls[e].text + ls[e].newline, Join(ls[e + 1..]);
      assert ls[e].text + (ls[e].newline + after) == gone + after && after == "" + after;
      PatchShows(content, Join(ClearEffort(ls, s)), None, "", nl, Join(ls[..e]), gone, "", after);
    } else {
      NothingIsPatch(content, nl);
    }
  }

  // ---------- where a new effort goes ----------

  /** Line `j` is the first of the block at `s` that assigns the model. */
  predicate ModelLine(ls: seq<Line>, s: nat, j: nat)
    requires s < |ls|
  {
    && s < j < BlockEnd(ls, s) && IsAssignment(ls[j].text, "model")
    && forall i :: s < i < j ==> !IsAssignment(ls[i].text, "model")
  }

  /** An effort that was not there is put right behind the model of its block; in a block
      without a model it is the last line. All other lines stay, in their order. */
  lemma TheEffortFollowsTheModel(ls: seq<Line>, nl: string, s: nat, text: string, j: nat)
    requires s < |ls| && forall i :: s < i < BlockEnd(ls, s) ==> !IsAssignment(ls[i].text, "effort")
    ensures var m := SetEffort(ls, nl, s, text);
            && (ModelLine(ls, s, j) ==> m == ls[..j + 1] + [Line(text, nl)] + ls[j + 1..])
            && ((forall i :: s < i < BlockEnd(ls, s) ==> !IsAssignment(ls[i].text, "model")) ==>
                  m == ls[..BlockEnd(ls, s)] + [Line(text, nl)] + ls[BlockEnd(ls, s)..])
  {
    NoEffortThere(ls, s);
    hide IsAssignment, EffortAt, InsertAt, BlockEnd;
    if ModelLine(ls, s, j) {
      BehindTheModel(ls, s, j);
    }
    if forall i :: s < i < BlockEnd(ls, s) ==> !IsAssignment(ls[i].text, "model") {
      BehindTheBlock(ls, s);
    }
    hide ModelLine;
  }

  lemma NoEffortThere(ls: seq<Line>, s: nat)
    requires s < |ls| && forall i :: s < i < BlockEnd(ls, s) ==> !IsAssignment(ls[i].text, "effort")
    ensures EffortAt(ls, s) == BlockEnd(ls, s)
  {
    hide IsAssignment;
    SeekIs(ls, Key("effort"), s + 1, BlockEnd(ls, s), BlockEnd(ls, s));
  }

  lemma BehindTheModel(ls: seq<Line>, s: nat, j: nat)
    requires s < |ls| && ModelLine(ls, s, j)
    ensures InsertAt(ls, s) == j + 1
  {
    hide IsAssignment;
    SeekIs(ls, Key("model"), s + 1, BlockEnd(ls, s), j);
  }

  lemma BehindTheBlock(ls: seq<Line>, s: nat)
    requires s < |ls| && forall i :: s < i < BlockEnd(ls, s) ==> !IsAssignment(ls[i].text, "model")
    ensures InsertAt(ls, s) == BlockEnd(ls, s)
  {
    hide IsAssignment;
    SeekIs(ls, Key("model"), s + 1, BlockEnd(ls, s), BlockEnd(ls, s));
  }
}
