/** Setting and clearing the effort of one `[[provider.model_settings]]` block, and the
    two editors as they run. */
module TomlEffort {
  import opened Ascii
  import opened Numerals
  import opened TomlLines
  import opened TomlSyntax
  import opened TomlEditor
  import opened TomlLaws

  const SETTINGS_HEADER := "[[" + SETTINGS_NAME + "]]"

  /** The header of block number `index`, counted from line `i`, or the number of lines. */
  function BlockAt(ls: seq<Line>, i: nat, index: nat): (s: nat)
    requires i <= |ls|
    ensures i <= s <= |ls|
    decreases |ls| - i
  {
    var r := Seek(ls, SettingsBlock, i, |ls|);
    if r == |ls| || index == 0 then r else BlockAt(ls, r + 1, index - 1)
  }

  function BlockEnd(ls: seq<Line>, s: nat): nat
    requires s < |ls|
  {
    Seek(ls, AnyHeader, s + 1, |ls|)
  }

  /** The effort assignment of the block at `s`, or the block's end. */
  function EffortAt(ls: seq<Line>, s: nat): nat
    requires s < |ls|
  {
    Seek(ls, Key("effort"), s + 1, BlockEnd(ls, s))
  }

  /** Behind the model assignment of the block, or at the block's end. */
  function InsertAt(ls: seq<Line>, s: nat): (k: nat)
    requires s < |ls|
    ensures s < k <= |ls| && k <= BlockEnd(ls, s)
  {
    var m := Seek(ls, Key("model"), s + 1, BlockEnd(ls, s));
    if m < BlockEnd(ls, s) then m + 1 else m
  }

  function SetEffort(ls: seq<Line>, nl: string, s: nat, text: string): seq<Line>
    requires s < |ls|
  {
    var e := EffortAt(ls, s);
    if e < BlockEnd(ls, s) then Replaced(ls, e, text) else Inserted(ls, InsertAt(ls, s), Line(text, nl))
  }

  function ClearEffort(ls: seq<Line>, s: nat): seq<Line>
    requires s < |ls|
  {
    var e := EffortAt(ls, s);
    if e < BlockEnd(ls, s) then ls[..e] + ls[e + 1..] else ls
  }

  function NewBlock(provider: string, model: string, effort: string, nl: string): seq<Line> {
    [Line(SETTINGS_HEADER, nl), Line(Assignment("provider", provider), nl),
     Line(Assignment("model", model), nl), Line(Assignment("effort", effort), nl)]
  }

  /** The edited text; None if the matching entry is not a block of its own. */
  function WithEffort(content: string, provider: string, model: string, effort: Option<string>, index: Option<nat>): Option<string> {
    var ls := Split(content);
    var nl := DetectNewline(ls);
    if index.None? then
      Some(if effort.None? then content else Join(Closed(ls, nl) + NewBlock(provider, model, effort.value, nl)))
    else
      var s := BlockAt(ls, 0, index.value);
      if s == |ls| then None
      else if effort.None? then Some(Join(ClearEffort(ls, s)))
      else Some(Join(SetEffort(ls, nl, s, Assignment("effort", effort.value))))
  }

  // ---------- setting and clearing again ----------

  /** Block headers are found from the lines up to them alone. */
  lemma {:induction false} BlockPrefix(ls: seq<Line>, m: seq<Line>, i: nat, index: nat)
    requires i <= |ls| && i <= |m| && BlockAt(ls, i, index) < |ls|
    requires BlockAt(ls, i, index) < |m|
    requires forall j :: i <= j <= BlockAt(ls, i, index) ==> m[j].text == ls[j].text
    ensures BlockAt(m, i, index) == BlockAt(ls, i, index)
    decreases |ls| - i
  {
    hide Is, Seek;
    var r := Seek(ls, SettingsBlock, i, |ls|);
    SeekSkips(ls, SettingsBlock, i, |ls|);
    SeekIs(m, SettingsBlock, i, |m|, r);
    if index <= 0 {
    } else {
      BlockPrefix(ls, m, r + 1, index - 1);
    }
  }

  /** The line after which the assignment goes. */
  lemma NoHeaderBefore(ls: seq<Line>, s: nat)
    requires s < |ls|
    ensures forall j :: s < j < InsertAt(ls, s) ==> !Is(AnyHeader, ls[j].text)
    ensures EffortAt(ls, s) == BlockEnd(ls, s) ==> forall j :: s < j < InsertAt(ls, s) ==> !Is(Key("effort"), ls[j].text)
  {
    hide Is;
    SeekSkips(ls, AnyHeader, s + 1, |ls|);
    SeekSkips(ls, Key("effort"), s + 1, BlockEnd(ls, s));
  }

  /** The inserted assignment is the block's effort from then on. */
  lemma InsertedIsFound(ls: seq<Line>, m: seq<Line>, s: nat, text: string)
    requires s < |ls| && EffortAt(ls, s) == BlockEnd(ls, s)
    requires InsertAt(ls, s) < |m| && m[..InsertAt(ls, s)] == ls[..InsertAt(ls, s)] && m[InsertAt(ls, s)].text == text
    requires IsAssignment(text, "effort")
    ensures EffortAt(m, s) == InsertAt(ls, s) < BlockEnd(m, s)
  {
    hide Is, IsAssignment, PlainKey, Seek, InsertAt;
    var k := InsertAt(ls, s);
    PlainKeys();
    OnlyAKey(text, "effort", AnyHeader);
    NoHeaderBefore(ls, s);
    assert forall j :: s < j < k ==> m[j] == ls[j];
    SeekAtLeast(m, AnyHeader, s + 1, |m|, k + 1);
    SeekIs(m, Key("effort"), s + 1, BlockEnd(m, s), k);
  }

  /** The line before the new assignment is ended, and the new line does not read as one
      with an empty line behind it. */
  predicate Separate(ls: seq<Line>, s: nat)
    requires s < |ls|
  {
    var k := InsertAt(ls, s);
    && ls[k - 1].newline != ""
    && !(DetectNewline(ls) == "\r" && k < |ls| && ls[k] == Line("", "\n"))
  }

  lemma ClearInserted(ls: seq<Line>, s: nat, text: string)
    requires Loose(ls) && Tight(ls) && s < |ls| && EffortAt(ls, s) == BlockEnd(ls, s)
    requires ls[InsertAt(ls, s) - 1].newline != ""
    requires text != "" && NoBreaks(text) && IsAssignment(text, "effort")
    ensures var k, line := InsertAt(ls, s), Line(text, DetectNewline(ls));
            var m := Split(Join(Inserted(ls, k, line)));
            && s < |m| && (forall j :: 0 <= j <= s ==> m[j] == ls[j])
            && ClearEffort(m, s) == if Separate(ls, s) then ls else ls[..k] + ls[k + 1..]
  {
    hide Split, Join, Is, IsAssignment, Seek, Tight, NoBreaks, IsNewline, DetectNewline;
    var k, line := InsertAt(ls, s), Line(text, DetectNewline(ls));
    NewlineIsNewline(ls);
    InsertedSplits(ls, k, line);
    var m := Absorbed(ls, k, line);
    assert m[..k] == ls[..k];
    InsertedIsFound(ls, m, s, text);
    if k < |ls| && Fuse(line, ls[k]) {
      assert m[k + 1..] == ls[k + 1..];
    } else {
      assert m[k + 1..] == ls[k..] && ls == ls[..k] + ls[k..];
    }
  }

  /** With the new text glued to the last line, clearing does not bring the old text back. */
  lemma ClearGlued(ls: seq<Line>, s: nat, index: nat, text: string, nl: string)
    requires Loose(ls) && Tight(ls) && s < |ls| && BlockAt(ls, 0, index) == s && EffortAt(ls, s) == BlockEnd(ls, s)
    requires InsertAt(ls, s) == |ls| && ls[|ls| - 1].newline == "" && text != ""
    ensures var glued := Glued(ls, text, nl);
            BlockAt(glued, 0, index) < |glued| ==>
              |Join(ClearEffort(glued, BlockAt(glued, 0, index)))| != |Join(ls)|
  {
    hide Is, Seek, Join, Loose, Tight, EffortAt, BlockEnd, BlockAt, InsertAt;
    var glued, last := Glued(ls, text, nl), |ls| - 1;
    var s' := BlockAt(glued, 0, index);
    GluedLength(ls, text, nl);
    if s' < |glued| {
      GluedBlock(ls, s, index, text, nl);
      EffortIsGlued(ls, s, text, nl);
      var e := EffortAt(glued, s');
      if e < BlockEnd(glued, s') {
        assert glued[..e] == ls[..e] && glued[..e] + glued[e + 1..] == ls[..e];
      }
    }
  }

  /** If the block has an effort now, it is the glued line. */
  lemma EffortIsGlued(ls: seq<Line>, s: nat, text: string, nl: string)
    requires s < |ls| && EffortAt(ls, s) == BlockEnd(ls, s) && InsertAt(ls, s) == |ls|
    ensures var glued := Glued(ls, text, nl);
            EffortAt(glued, s) < BlockEnd(glued, s) ==> EffortAt(glued, s) == |ls| - 1
  {
    hide Is, Seek;
    var glued, last := Glued(ls, text, nl), |ls| - 1;
    NoHeaderBefore(ls, s);
    if s < last {
      SeekAtLeast(glued, AnyHeader, s + 1, |glued|, last);
      SeekAtLeast(glued, Key("effort"), s + 1, BlockEnd(glued, s), last);
    }
  }

  lemma GluedLength(ls: seq<Line>, text: string, nl: string)
    requires Tight(ls) && ls != [] && ls[|ls| - 1].newline == "" && text != ""
    ensures |Join(Glued(ls, text, nl))| > |Join(ls)| > |Join(ls[..|ls| - 1])|
  {
    var glued, last := Glued(ls, text, nl), |ls| - 1;
    JoinAround(ls, last);
    JoinAround(glued, last);
    assert glued[..last] == ls[..last];
  }

  /** The block is found where it was, or not at all. */
  lemma GluedBlock(ls: seq<Line>, s: nat, index: nat, text: string, nl: string)
    requires s < |ls| && BlockAt(ls, 0, index) == s && BlockAt(Glued(ls, text, nl), 0, index) < |ls|
    ensures BlockAt(Glued(ls, text, nl), 0, index) == s
  {
    var glued := Glued(ls, text, nl);
    var s' := BlockAt(glued, 0, index);
    if s < |ls| - 1 {
      BlockPrefix(ls, glued, 0, index);
    } else if s' < |ls| - 1 {
      BlockPrefix(glued, ls, 0, index);
    }
  }

  /** The entry is a block of its own and says nothing about effort. */
  predicate HasBlankBlock(ls: seq<Line>, index: nat) {
    var s := BlockAt(ls, 0, index);
    s < |ls| && EffortAt(ls, s) == BlockEnd(ls, s)
  }

  /** Setting an effort on a matched block that had none and clearing it again restores
      the file, exactly if the assignment was written as a line of its own. */
  lemma SetThenClearRestores(content: string, provider: string, model: string, effort: string, index: nat)
    ensures var ls := Split(content);
            var edited := WithEffort(content, provider, model, Some(effort), Some(index));
            HasBlankBlock(ls, index) ==>
              && edited.Some?
              && (WithEffort(edited.value, provider, model, None, Some(index)) == Some(content)
                  <==> Separate(ls, BlockAt(ls, 0, index)))
  {
    hide Split, Join, Is, IsAssignment, Seek, Tight, Loose, NoBreaks, IsNewline, DetectNewline, Assignment, Closed,
         PlainKey, ClearEffort, SetEffort, BlockAt, EffortAt, BlockEnd, InsertAt;
    if HasBlankBlock(Split(content), index) {
      var ls := Split(content);
      var s, text := BlockAt(ls, 0, index), Assignment("effort", effort);
      PlainKeys();
      AssignmentFacts("effort", effort);
      SplitIsTight(content);
      JoinSplit(content);
      if ls[InsertAt(ls, s) - 1].newline != "" {
        RestoredIfSeparate(content, s, index, text);
      } else {
        LostIfGlued(content, s, index, text);
      }
    }
  }

  lemma RestoredIfSeparate(content: string, s: nat, index: nat, text: string)
    requires var ls := Split(content);
             && s == BlockAt(ls, 0, index) < |ls| && EffortAt(ls, s) == BlockEnd(ls, s)
             && ls[InsertAt(ls, s) - 1].newline != ""
    requires text != "" && NoBreaks(text) && IsAssignment(text, "effort")
    ensures var ls := Split(content);
            var m := Split(Join(SetEffort(ls, DetectNewline(ls), s, text)));
            && BlockAt(m, 0, index) == s < |m|
            && (Join(ClearEffort(m, s)) == content <==> Separate(ls, s))
  {
    hide Split, Join, Is, IsAssignment, Seek, Tight, Loose, NoBreaks, DetectNewline, ClearEffort, InsertAt;
    var ls := Split(content);
    var k, line := InsertAt(ls, s), Line(text, DetectNewline(ls));
    SplitIsTight(content);
    JoinSplit(content);
    ClearInserted(ls, s, text);
    BlockPrefix(ls, Split(Join(Inserted(ls, k, line))), 0, index);
    if !Separate(ls, s) {
      LineDropped(ls, k);
    }
  }

  lemma LineDropped(ls: seq<Line>, k: nat)
    requires k < |ls| && ls[k].newline != ""
    ensures |Join(ls[..k] + ls[k + 1..])| < |Join(ls)|
  {
    JoinAround(ls, k);
    JoinConcat(ls[..k], ls[k + 1..]);
  }

  lemma LostIfGlued(content: string, s: nat, index: nat, text: string)
    requires var ls := Split(content);
             && s == BlockAt(ls, 0, index) < |ls| && EffortAt(ls, s) == BlockEnd(ls, s)
             && ls[InsertAt(ls, s) - 1].newline == ""
    requires text != "" && NoBreaks(text)
    ensures var ls := Split(content);
            var m := Split(Join(SetEffort(ls, DetectNewline(ls), s, text)));
            BlockAt(m, 0, index) < |m| ==> Join(ClearEffort(m, BlockAt(m, 0, index))) != content
  {
    hide Split, Join, Is, Seek, Tight, NoBreaks, DetectNewline, ClearEffort, InsertAt, IsNewline;
    var ls := Split(content);
    SplitIsTight(content);
    JoinSplit(content);
    NewlineIsNewline(ls);
    EndedBefore(ls, InsertAt(ls, s) - 1);
    GluedSplits(ls, text, DetectNewline(ls));
    ClearGlued(ls, s, index, text, DetectNewline(ls));
  }

  // ---------- appending a block ----------

  function CountBlocks(ls: seq<Line>): nat {
    if ls == [] then 0 else (if Is(SettingsBlock, ls[0].text) then 1 else 0) + CountBlocks(ls[1..])
  }

  lemma {:induction false} BlockBehind(a: seq<Line>, b: seq<Line>, i: nat)
    requires i <= |a| && b != [] && Is(SettingsBlock, b[0].text)
    ensures BlockAt(a + b, i, CountBlocks(a[i..])) == |a|
    decreases |a| - i
  {
    hide Is;
    if i < |a| {
      assert (a + b)[i] == a[i] && a[i..][1..] == a[i + 1..];
      BlockBehind(a, b, i + 1);
    } else {
      assert a[i..] == [] && (a + b)[i] == b[0];
    }
  }

  lemma {:induction false} MergingKeepsBlocks(ls: seq<Line>)
    ensures CountBlocks(MergeOpen(ls)) == CountBlocks(ls)
    decreases |ls|
  {
    if ls == [] {
    } else {
      hide Is;
      NoBlockInEmptyLine();
      var n := if |ls| >= 2 && Fuse(ls[0], ls[1]) then 2 else 1;
      MergingKeepsBlocks(ls[n..]);
      assert MergeOpen(ls)[1..] == MergeOpen(ls[n..]);
      assert n == 2 ==> ls[1..][1..] == ls[2..];
    }
  }

  lemma NoBlockInEmptyLine()
    ensures !Is(SettingsBlock, "")
  {
    EmptyLine("");
  }

  lemma {:induction false} CountConcat(a: seq<Line>, b: seq<Line>)
    ensures CountBlocks(a + b) == CountBlocks(a) + CountBlocks(b)
  {
    hide Is;
    if a == [] {
      assert a + b == b;
    } else {
      assert (a + b)[1..] == a[1..] + b;
      CountConcat(a[1..], b);
    }
  }

  lemma ClosingKeepsBlocks(ls: seq<Line>, nl: string)
    ensures CountBlocks(Closed(ls, nl)) == CountBlocks(ls)
  {
    NoBlockInEmptyLine();
    hide Is;
    if ls != [] {
      var k := |ls| - 1;
      var last := ls[k];
      var ended := last.(newline := if last.newline == "" then nl else last.newline);
      CountConcat(ls[..k], [last]);
      CountConcat(ls[..k], [ended]);
      assert ls == ls[..k] + [last] && ls[k := ended] == ls[..k] + [ended];
      assert [last][1..] == [] && [ended][1..] == [] && [Line("", nl)][1..] == [];
      CountConcat(ls[k := ended], [Line("", nl)]);
    }
  }

  lemma ArrayHeaderOf(name: string)
    requires name != "" && !IsSpace(name[0]) && !IsSpace(name[|name| - 1]) && ']' !in name
    ensures ArrayHeader("[[" + name + "]]") == Some(name)
  {
    hide Find, TrimLeft, TrimRight, Trim;
    var l, n := "[[" + name + "]]", |name| + 2;
    TrimTight(l);
    assert l[n..n + 2] == "]]" && l[2..n] == name && l[n + 2..] == "" && "[[" <= l;
    assert forall j :: 2 <= j < n ==> l[j] == name[j - 2];
    FindsAt(l, "]]", n);
    TrimTight(name);
    EmptyTrim();
  }

  lemma SettingsHeaderIsOne()
    ensures Is(SettingsBlock, SETTINGS_HEADER) && SETTINGS_HEADER != "" && NoBreaks(SETTINGS_HEADER)
  {
    hide ArrayHeader;
    assert ']' !in SETTINGS_NAME;
    ArrayHeaderOf(SETTINGS_NAME);
    NoBreakInHeader(SETTINGS_NAME);
  }

  lemma NoBreakInHeader(name: string)
    requires NoBreaks(name)
    ensures NoBreaks("[[" + name + "]]")
  {}

  /** A block appended for an entry that had none is the next block of the file, and
      says the effort it was written with. */
  lemma AppendedBlockIsFound(content: string, provider: string, model: string, effort: string)
    ensures var edited := WithEffort(content, provider, model, Some(effort), None);
            && edited.Some?
            && var m := Split(edited.value);
            var s := BlockAt(m, 0, CountBlocks(Split(content)));
            && s < |m| && EffortAt(m, s) < BlockEnd(m, s)
            && AssignedValue(m[EffortAt(m, s)].text, "effort") == if NoDel(effort) then Some(effort) else None
  {
    hide Split, Join, Is, IsAssignment, Seek, Tight, Loose, NoBreaks, IsNewline, DetectNewline, Assignment, Closed,
         PlainKey, BlockAt, AssignedValue, MergeOpen, CountBlocks, SETTINGS_HEADER;
    var ls := Split(content);
    var nl, block := DetectNewline(ls), NewBlock(provider, model, effort, DetectNewline(ls));
    SplitIsTight(content);
    NewlineIsNewline(ls);
    SettingsHeaderIsOne();
    BlockIsBlock(provider, model, effort, nl);
    ExtendedSplits(ls, nl, block);
    var a := MergeOpen(Closed(ls, nl));
    MergingKeepsBlocks(Closed(ls, nl));
    ClosingKeepsBlocks(ls, nl);
    assert a[0..] == a;
    BlockBehind(a, block, 0);
    EffortOfNewBlock(a, provider, model, effort, nl);
    AssignedReadsBack("effort", effort);
  }

  lemma BlockIsBlock(provider: string, model: string, effort: string, nl: string)
    ensures IsBlock(NewBlock(provider, model, effort, nl), nl)
    ensures PlainKey("effort")
  {
    hide Assignment, SETTINGS_HEADER, NoBreaks, IsAssignment, IsAnyHeader, Is, PlainKey;
    SettingsHeaderIsOne();
    PlainKeys();
    OtherPlainKeys();
    AssignmentFacts("provider", provider);
    AssignmentFacts("model", model);
    AssignmentFacts("effort", effort);
  }

  lemma OtherPlainKeys()
    ensures PlainKey("provider") && PlainKey("model")
  {}

  lemma EffortOfNewBlock(a: seq<Line>, provider: string, model: string, effort: string, nl: string)
    ensures var m, s := a + NewBlock(provider, model, effort, nl), |a|;
            EffortAt(m, s) == s + 3 < BlockEnd(m, s)
  {
    hide IsAnyHeader, IsAssignment, Assignment, Seek, PlainKey, NoBreaks, SETTINGS_HEADER;
    PlainKeys();
    OtherPlainKeys();
    var m, s := a + NewBlock(provider, model, effort, nl), |a|;
    AssignmentFacts("provider", provider);
    AssignmentFacts("model", model);
    AssignmentFacts("effort", effort);
    OtherKeys(provider, model);
    SeekIs(m, AnyHeader, s + 1, |m|, s + 4);
    SeekIs(m, Key("effort"), s + 1, s + 4, s + 3);
  }

  lemma OtherKeys(provider: string, model: string)
    ensures !IsAssignment(Assignment("provider", provider), "effort")
    ensures !IsAssignment(Assignment("model", model), "effort")
  {
    assert Assignment("provider", provider)[0] == 'p' && Assignment("model", model)[0] == 'm';
  }

  // ---------- as it runs ----------

  method FindFirst(lines: seq<Line>, k: Kind, start: nat, end: nat) returns (r: nat)
    requires start <= end <= |lines|
    ensures r == Seek(lines, k, start, end)
  {
    hide Is;
    r := start;
    while r < end && !Is(k, lines[r].text)
      invariant start <= r <= end && Seek(lines, k, r, end) == Seek(lines, k, start, end)
    {
      r := r + 1;
    }
  }

  method CloseLines(lines: seq<Line>, newline: string) returns (closed: seq<Line>)
    ensures closed == Closed(lines, newline)
  {
    closed := lines;
    if |closed| > 0 {
      var k := |closed| - 1;
      if closed[k].newline == "" {
        closed := closed[k := closed[k].(newline := newline)];
      }
      if closed[k].text != "" {
        closed := closed + [Line("", newline)];
      }
    }
  }

  method WithThemeName(content: string, themeName: string) returns (edited: string)
    ensures edited == WithTheme(content, themeName)
    ensures var ls := Split(content);
            ThemeName(edited) == if NoDel(themeName) && !Unended(ls) && !NameElsewhere(ls) then Some(themeName) else None
  {
    hide ThemeName, NoDel, Unended, NameElsewhere, Split, Join, Seek, DetectNewline, Closed, Quote, Is, ReadBasic;
    ThemeReadsBack(content, themeName);
    var lines := SplitPreservingNewlines(content);
    var newline := FirstNewline(lines);
    var quoted := QuoteTomlString(themeName);
    var assignment := "name" + " = " + quoted;
    var themeStart := FindFirst(lines, ThemeTable, 0, |lines|);
    if themeStart == |lines| {
      var closed := CloseLines(lines, newline);
      edited := JoinLines(closed + [Line("[theme]", newline), Line(assignment, newline)]);
      return;
    }
    var themeEnd := FindFirst(lines, PlainTable, themeStart + 1, |lines|);
    var nameAt := FindFirst(lines, Key("name"), themeStart + 1, themeEnd);
    if nameAt < themeEnd {
      lines := lines[nameAt := lines[nameAt].(text := assignment)];
    } else {
      lines := lines[..themeStart + 1] + [Line(assignment, newline)] + lines[themeStart + 1..];
    }
    edited := JoinLines(lines);
  }

  method FindModelSettingsBlock(lines: seq<Line>, target: nat) returns (block: Option<(nat, nat)>)
    ensures var s := BlockAt(lines, 0, target);
            block == if s < |lines| then Some((s, BlockEnd(lines, s))) else None
  {
    hide Is, Seek;
    var entry, i := 0, 0;
    while true
      invariant i <= |lines| && entry <= target
      invariant BlockAt(lines, i, target - entry) == BlockAt(lines, 0, target)
      decreases |lines| - i
    {
      i := FindFirst(lines, SettingsBlock, i, |lines|);
      SeekAgain(lines, i);
      if i == |lines| {
        return None;
      }
      if entry == target {
        var end := FindFirst(lines, AnyHeader, i + 1, |lines|);
        return Some((i, end));
      }
      entry := entry + 1;
      i := i + 1;
    }
  }

  lemma SeekAgain(lines: seq<Line>, i: nat)
    requires i <= |lines| && (i < |lines| ==> Is(SettingsBlock, lines[i].text))
    ensures Seek(lines, SettingsBlock, i, |lines|) == i
  {}

  method WithProviderModelEffort(content: string, provider: string, model: string, effort: Option<string>, index: Option<nat>)
    returns (edited: string, failed: bool)
    ensures failed <==> WithEffort(content, provider, model, effort, index).None?
    ensures edited == if failed then content else WithEffort(content, provider, model, effort, index).value
  {
    hide Split, Join, Seek, DetectNewline, Closed, Quote, BlockAt, Is;
    failed := false;
    var lines := SplitPreservingNewlines(content);
    var newline := FirstNewline(lines);
    if index.None? {
      if effort.None? {
        return content, false;
      }
      var closed := CloseLines(lines, newline);
      var p := QuoteTomlString(provider);
      var m := QuoteTomlString(model);
      var e := QuoteTomlString(effort.value);
      assert "provider" + " = " + p == "provider = " + p && "model" + " = " + m == "model = " + m && "effort" + " = " + e == "effort = " + e;
      edited := JoinLines(closed + [Line(SETTINGS_HEADER, newline), Line("provider = " + p, newline),
                                    Line("model = " + m, newline), Line("effort = " + e, newline)]);
      return;
    }
    var block := FindModelSettingsBlock(lines, index.value);
    if block.None? {
      return content, true;
    }
    var (blockStart, blockEnd) := block.value;
    var assignment := "";
    if effort.Some? {
      var e := QuoteTomlString(effort.value);
      assignment := "effort = " + e;
      assert assignment == Assignment("effort", effort.value);
    }
    var effortAt := FindFirst(lines, Key("effort"), blockStart + 1, blockEnd);
    if effortAt < blockEnd {
      if effort.Some? {
        lines := lines[effortAt := lines[effortAt].(text := assignment)];
      } else {
        lines := lines[..effortAt] + lines[effortAt + 1..];
      }
      edited := JoinLines(lines);
      return;
    }
    if effort.None? {
      edited := JoinLines(lines);
      return;
    }
    var modelAt := FindFirst(lines, Key("model"), blockStart + 1, blockEnd);
    var insertAt := if modelAt < blockEnd then modelAt + 1 else blockEnd;
    lines := lines[..insertAt] + [Line(assignment, newline)] + lines[insertAt..];
    edited := JoinLines(lines);
  }
}
