/** Laws of editing the theme name. */
module TomlLaws {
  import opened Ascii
  import opened Numerals
  import opened Strings
  import opened TomlLines
  import opened TomlSyntax
  import opened TomlEditor

  // ---------- bytes around an edit ----------

  lemma JoinAround(ls: seq<Line>, n: nat)
    requires n < |ls|
    ensures Join(ls) == Join(ls[..n]) + (ls[n].text + (ls[n].newline + Join(ls[n + 1..])))
  {
    assert ls == ls[..n] + ls[n..] && ls[n..][1..] == ls[n + 1..];
    JoinConcat(ls[..n], ls[n..]);
  }

  lemma JoinReplaced(ls: seq<Line>, n: nat, text: string)
    requires n < |ls|
    ensures Join(Replaced(ls, n, text)) == Join(ls[..n]) + (text + (ls[n].newline + Join(ls[n + 1..])))
  {
    var ls' := Replaced(ls, n, text);
    JoinAround(ls', n);
    assert ls'[..n] == ls[..n] && ls'[n + 1..] == ls[n + 1..];
  }

  lemma JoinAt(ls: seq<Line>, k: nat)
    requires k <= |ls|
    ensures Join(ls) == Join(ls[..k]) + Join(ls[k..])
  {
    assert ls == ls[..k] + ls[k..];
    JoinConcat(ls[..k], ls[k..]);
  }

  lemma JoinOnto(line: Line, rest: seq<Line>)
    ensures Join([line] + rest) == (line.text + line.newline) + Join(rest)
  {
    assert ([line] + rest)[1..] == rest;
  }

  lemma JoinInserted(ls: seq<Line>, k: nat, line: Line)
    requires k <= |ls|
    ensures Join(Inserted(ls, k, line)) == Join(ls[..k]) + ((line.text + line.newline) + Join(ls[k..]))
    ensures Join(ls) == Join(ls[..k]) + Join(ls[k..])
  {
    hide Join;
    JoinAt(ls, k);
    JoinOnto(line, ls[k..]);
    assert Inserted(ls, k, line) == ls[..k] + ([line] + ls[k..]);
    JoinConcat(ls[..k], [line] + ls[k..]);
  }

  lemma JoinEnded(ls: seq<Line>, nl: string)
    requires ls != []
    ensures var last := ls[|ls| - 1];
            Join(ls[|ls| - 1 := last.(newline := last.newline + nl)]) == Join(ls) + nl
  {
    var k := |ls| - 1;
    var ended := ls[k := ls[k].(newline := ls[k].newline + nl)];
    JoinAround(ls, k);
    JoinAround(ended, k);
    assert ended[..k] == ls[..k] && ls[k + 1..] == [] && ended[k + 1..] == [];
    hide Join;
    EndedBytes(Join(ls[..k]), ls[k].text, ls[k].newline, nl);
    assert Join([]) == "" by {
      JoinNothing();
    }
  }

  lemma JoinNothing()
    ensures Join([]) == ""
  {}

  lemma EndedBytes(before: string, text: string, newline: string, nl: string)
    ensures before + (text + ((newline + nl) + "")) == (before + (text + (newline + ""))) + nl
  {}

  lemma JoinClosed(ls: seq<Line>, nl: string) returns (gap: string)
    ensures Join(Closed(ls, nl)) == Join(ls) + gap
    ensures gap == "" || gap == nl || gap == nl + nl
  {
    if ls == [] {
      gap := "";
      return;
    }
    var last := ls[|ls| - 1];
    var rest := if last.newline == "" then nl else "";
    JoinEnded(ls, rest);
    var ended := ls[|ls| - 1 := last.(newline := last.newline + rest)];
    assert last.newline + "" == last.newline && "" + nl == nl;
    assert Join([Line("", nl)]) == nl by {
      JoinOnto(Line("", nl), []);
      assert [Line("", nl)] + [] == [Line("", nl)] && ("" + nl) + "" == nl;
    }
    hide Join;
    gap := if last.text == "" then rest else rest + nl;
    if last.text != "" {
      JoinConcat(ended, [Line("", nl)]);
      Assoc(Join(ls), rest, nl);
    }
  }

  // ---------- the header that is not ended ----------

  /** Appending to an unended last line lengthens that line. */
  function Glued(ls: seq<Line>, text: string, nl: string): seq<Line>
    requires ls != []
  {
    ls[|ls| - 1 := Line(ls[|ls| - 1].text + text, nl)]
  }

  lemma GluedSplits(ls: seq<Line>, text: string, nl: string)
    requires Loose(ls) && Tight(ls) && ls != [] && ls[|ls| - 1].newline == ""
    requires text != "" && NoBreaks(text) && IsNewline(nl)
    ensures Join(Inserted(ls, |ls|, Line(text, nl))) == Join(ls) + (text + nl)
    ensures Split(Join(ls) + (text + nl)) == Glued(ls, text, nl)
  {
    var k := |ls| - 1;
    var glued := Glued(ls, text, nl);
    JoinInserted(ls, |ls|, Line(text, nl));
    assert ls[..|ls|] == ls && ls[|ls|..] == [];
    assert Join(ls) + ((text + nl) + "") == Join(ls) + (text + nl);
    assert Join(glued) == Join(ls) + (text + nl) by {
      JoinAround(ls, k);
      JoinAround(glued, k);
      assert glued[..k] == ls[..k] && ls[k + 1..] == [] && glued[k + 1..] == [];
      GluedBytes(Join(ls[..k]), ls[k].text, text, nl);
    }
    forall i | 0 <= i < |glued| - 1
      ensures !Fuse(glued[i], glued[i + 1])
    {
      assert !Fuse(ls[i], ls[i + 1]);
    }
    TightSplitsBack(glued);
  }

  lemma GluedBytes(before: string, x: string, text: string, nl: string)
    ensures before + (x + ("" + "")) + (text + nl) == before + ((x + text) + (nl + ""))
  {}

  /** Behind a header glued to the assignment, no name is found. */
  lemma GluedHasNoName(ls: seq<Line>, text: string, nl: string)
    requires ls != [] && ThemeAt(ls) == |ls| - 1
    ensures ThemeNameOf(Glued(ls, text, nl)) == None
    ensures ThemeAt(Glued(ls, text, nl)) >= |ls| - 1
  {
    hide Is;
    var glued := Glued(ls, text, nl);
    SeekSkips(ls, ThemeTable, 0, |ls|);
    SeekAtLeast(glued, ThemeTable, 0, |ls|, |ls| - 1);
  }

  lemma {:induction false} SeekAtLeast(ls: seq<Line>, k: Kind, i: nat, end: nat, m: nat)
    requires i <= m <= end <= |ls| && forall j :: i <= j < m ==> !Is(k, ls[j].text)
    ensures Seek(ls, k, i, end) >= m
    decreases end - i
  {
    hide Is;
    if i >= m {
    } else {
      SeekAtLeast(ls, k, i + 1, end, m);
    }
  }

  // ---------- reading back ----------

  /** What the `[theme]` table says after the edit, for every file and every name: the
      new name, unless the name holds a DEL, the header was the unended last line, or
      the editor took a name below a `[[...]]` header for the theme's. */
  lemma ThemeReadsBack(content: string, name: string)
    ensures var ls := Split(content);
            ThemeName(WithTheme(content, name))
              == if NoDel(name) && !Unended(ls) && !NameElsewhere(ls) then Some(name) else None
  {
    hide Split, Join, Loose, Tight, Merge, MergeOpen, Closed, NoDel, ThemeNameOf, TableHeader, ArrayHeader,
         IsAssignment, Assignment, PlainKey, DetectNewline, NoBreaks, IsNewline, Seek;
    var ls, text := Split(content), Assignment("name", name);
    var nl := DetectNewline(ls);
    PlainKeys();
    AssignmentFacts("name", name);
    SplitIsTight(content);
    NewlineIsNewline(ls);
    var s := ThemeAt(ls);
    if s == |ls| {
      ExtendedTheme(ls, nl, name);
      ExtendedReadsBack(ls, nl, name);
    } else if NameAt(ls, s) < EditEnd(ls, s) {
      ReplacedTheme(content, text);
      ReplacedReadsBack(ls, name);
      NameIsNotUnended(ls);
    } else if Unended(ls) {
      EndedBefore(ls, s);
      GluedSplits(ls, text, nl);
      GluedHasNoName(ls, text, nl);
    } else {
      InsertedTheme(ls, nl, name);
    }
  }

  /** Only the last line may lack its break. */
  lemma EndedBefore(ls: seq<Line>, s: nat)
    requires Loose(ls) && s < |ls|
    ensures ls[s].newline == "" ==> s == |ls| - 1
  {}

  lemma ReplacedTheme(content: string, text: string)
    requires text != "" && NoBreaks(text) && ThemeAt(Split(content)) < |Split(content)|
    requires var ls := Split(content); NameAt(ls, ThemeAt(ls)) < EditEnd(ls, ThemeAt(ls))
    ensures var ls := Split(content);
            Split(Join(Replaced(ls, NameAt(ls, ThemeAt(ls)), text))) == Replaced(ls, NameAt(ls, ThemeAt(ls)), text)
  {
    hide Split, Join, Loose, Tight, NoBreaks, Seek;
    var ls := Split(content);
    SplitIsTight(content);
    PlainKeys();
    var n := NameAt(ls, ThemeAt(ls));
    OnlyAKey(ls[n].text, "name", AnyHeader);
    ReplacedSplits(ls, n, text);
  }

  lemma InsertedTheme(ls: seq<Line>, nl: string, name: string)
    requires Loose(ls) && Tight(ls) && IsNewline(nl) && ThemeAt(ls) < |ls| && ls[ThemeAt(ls)].newline != ""
    ensures var s := ThemeAt(ls);
            var m := Split(Join(Inserted(ls, s + 1, Line(Assignment("name", name), nl))));
            && m == Absorbed(ls, s + 1, Line(Assignment("name", name), nl))
            && ThemeAt(m) == s < |m| && NameAt(m, s) == s + 1 < EditEnd(m, s)
            && ThemeNameOf(m) == if NoDel(name) then Some(name) else None
  {
    hide Split, Join, Loose, Tight, NoDel, ThemeNameOf, Is, Assignment, PlainKey, NoBreaks, IsNewline;
    PlainKeys();
    AssignmentFacts("name", name);
    var s := ThemeAt(ls);
    var line := Line(Assignment("name", name), nl);
    InsertedSplits(ls, s + 1, line);
    SeekSkips(ls, ThemeTable, 0, |ls|);
    FreshReadsBack(Absorbed(ls, s + 1, line), s, name);
  }

  lemma ExtendedTheme(ls: seq<Line>, nl: string, name: string)
    requires Loose(ls) && IsNewline(nl)
    ensures var block := [Line("[theme]", nl), Line(Assignment("name", name), nl)];
            Split(Join(Closed(ls, nl) + block)) == MergeOpen(Closed(ls, nl)) + block
  {
    hide Split, Join, Loose, Closed, MergeOpen, Assignment, PlainKey, IsNewline, Is;
    PlainKeys();
    AssignmentFacts("name", name);
    ThemeHeaderIsOne();
    ExtendedSplits(ls, nl, [Line("[theme]", nl), Line(Assignment("name", name), nl)]);
  }

  // ---------- setting twice ----------

  lemma ReplacedTwice(ls: seq<Line>, n: nat, a: string, b: string)
    requires n < |ls|
    ensures Replaced(Replaced(ls, n, a), n, b) == Replaced(ls, n, b)
  {}

  /** Setting one name and then another leaves the file as setting the other alone
      would, exactly unless the header was the unended last line. */
  lemma TheLastSetWins(content: string, a: string, b: string)
    ensures WithTheme(WithTheme(content, a), b) == WithTheme(content, b) <==> !Unended(Split(content))
  {
    hide Split, Join, Loose, Tight, Merge, MergeOpen, Closed, NoDel, ThemeNameOf, TableHeader, ArrayHeader,
         IsAssignment, Assignment, PlainKey, DetectNewline, NoBreaks, IsNewline, Seek, Is;
    var ls := Split(content);
    SplitIsTight(content);
    NewlineIsNewline(ls);
    PlainKeys();
    AssignmentFacts("name", a);
    AssignmentFacts("name", b);
    var s := ThemeAt(ls);
    if s == |ls| {
      SetTwiceExtended(content, a, b);
    } else if NameAt(ls, s) < EditEnd(ls, s) {
      ReplacedTheme(content, Assignment("name", a));
      ReplacedIsFound(ls, Assignment("name", a));
      ReplacedTwice(ls, NameAt(ls, s), Assignment("name", a), Assignment("name", b));
      NameIsNotUnended(ls);
    } else if Unended(ls) {
      SetTwiceUnended(content, a, b);
    } else {
      SetTwiceInserted(content, a, b);
    }
  }

  lemma NameIsNotUnended(ls: seq<Line>)
    requires Loose(ls) && ThemeAt(ls) < |ls| && NameAt(ls, ThemeAt(ls)) < EditEnd(ls, ThemeAt(ls))
    ensures !Unended(ls)
  {
    EndedBefore(ls, ThemeAt(ls));
  }

  lemma SetTwiceExtended(content: string, a: string, b: string)
    requires ThemeAt(Split(content)) == |Split(content)|
    ensures WithTheme(WithTheme(content, a), b) == WithTheme(content, b)
  {
    hide Split, Join, Loose, Tight, MergeOpen, Closed, Is, Assignment, DetectNewline, IsNewline, Seek;
    var ls := Split(content);
    var nl := DetectNewline(ls);
    SplitIsTight(content);
    NewlineIsNewline(ls);
    ExtendedTheme(ls, nl, a);
    ExtendedTheme(ls, nl, b);
    ExtendedReadsBack(ls, nl, a);
    var open := MergeOpen(Closed(ls, nl));
    var m := open + [Line("[theme]", nl), Line(Assignment("name", a), nl)];
    var m' := open + [Line("[theme]", nl), Line(Assignment("name", b), nl)];
    assert Replaced(m, |open| + 1, Assignment("name", b)) == m';
    JoinSplit(Join(Closed(ls, nl) + [Line("[theme]", nl), Line(Assignment("name", b), nl)]));
  }

  lemma SetTwiceInserted(content: string, a: string, b: string)
    requires var ls := Split(content);
             && ThemeAt(ls) < |ls| && ls[ThemeAt(ls)].newline != ""
             && NameAt(ls, ThemeAt(ls)) == EditEnd(ls, ThemeAt(ls))
    ensures WithTheme(WithTheme(content, a), b) == WithTheme(content, b)
  {
    hide Split, Join, Loose, Tight, Is, Assignment, DetectNewline, IsNewline, Seek, Absorbed, Replaced, Inserted,
         ThemeNameOf;
    var ls := Split(content);
    var nl, s := DetectNewline(ls), ThemeAt(ls);
    SplitIsTight(content);
    NewlineIsNewline(ls);
    InsertedTheme(ls, nl, a);
    InsertedTheme(ls, nl, b);
    AbsorbedText(ls, s + 1, nl, Assignment("name", a), Assignment("name", b));
    JoinSplit(Join(Inserted(ls, s + 1, Line(Assignment("name", b), nl))));
  }

  lemma AbsorbedText(ls: seq<Line>, k: nat, nl: string, a: string, b: string)
    requires k <= |ls|
    ensures k < |Absorbed(ls, k, Line(a, nl))|
    ensures Replaced(Absorbed(ls, k, Line(a, nl)), k, b) == Absorbed(ls, k, Line(b, nl))
  {}

  lemma SetTwiceUnended(content: string, a: string, b: string)
    requires var ls := Split(content);
             Unended(ls) && NameAt(ls, ThemeAt(ls)) == EditEnd(ls, ThemeAt(ls))
    ensures WithTheme(WithTheme(content, a), b) != WithTheme(content, b)
  {
    hide Split, Join, Loose, Tight, Is, Assignment, DetectNewline, IsNewline, Seek, Closed, NoBreaks, PlainKey;
    var ls := Split(content);
    var nl, ta, tb := DetectNewline(ls), Assignment("name", a), Assignment("name", b);
    SplitIsTight(content);
    NewlineIsNewline(ls);
    EndedBefore(ls, ThemeAt(ls));
    PlainKeys();
    AssignmentFacts("name", a);
    AssignmentFacts("name", b);
    GluedSplits(ls, ta, nl);
    GluedSplits(ls, tb, nl);
    JoinSplit(content);
    assert WithTheme(content, b) == content + (tb + nl);
    assert WithTheme(content, a) == content + (ta + nl);
    GluedHasNoName(ls, ta, nl);
    EditAddsText(content + (ta + nl), b, |ls| - 1);
  }

  /** Where there is no name to replace, the edit adds at least the assignment. */
  lemma EditAddsText(content: string, name: string, k: nat)
    requires var ls := Split(content);
             |ls| == k + 1 && ThemeAt(ls) >= k
    ensures |WithTheme(content, name)| >= |content| + |Assignment("name", name)|
  {
    hide Split, Join, Is, Assignment, DetectNewline, Closed;
    var ls := Split(content);
    var nl, text := DetectNewline(ls), Assignment("name", name);
    JoinSplit(content);
    if ThemeAt(ls) == |ls| {
      var gap := JoinClosed(ls, nl);
      var block := [Line("[theme]", nl), Line(text, nl)];
      JoinConcat(Closed(ls, nl), block);
      JoinBlock(text, nl);
    } else {
      JoinInserted(ls, k + 1, Line(text, nl));
    }
  }

  lemma JoinBlock(text: string, nl: string)
    ensures Join([Line("[theme]", nl), Line(text, nl)]) == "[theme]" + (nl + (text + nl))
  {
    var block := [Line("[theme]", nl), Line(text, nl)];
    assert block[1..] == [Line(text, nl)] && block[1..][1..] == [];
    assert nl + "" == nl;
    assert Join([Line(text, nl)]) == text + (nl + "");
  }

  // ---------- everything else stays ----------

  /** `edited` is `content` with `gone` replaced by `added`. */
  predicate Patch(content: string, edited: string, before: string, gone: string, added: string, after: string) {
    content == before + (gone + after) && edited == before + (added + after)
  }

  /** What an edit may do: replace the text of one assignment, add one line, or append a block. */
  predicate ThemePatch(gone: string, added: string, after: string, text: string, nl: string) {
    || (IsAssignment(gone, "name") && NoBreaks(gone) && added == text)
    || (gone == "" && added == text + nl)
    || (gone == "" && after == "" && exists gap :: gap in ["", nl, nl + nl] && added == gap + ("[theme]" + (nl + (text + nl))))
  }

  /** Bytes outside the touched line or the appended block are unchanged. */
  lemma OnlyTheAssignmentChanges(content: string, name: string)
    ensures exists before, gone, added, after ::
              && Patch(content, WithTheme(content, name), before, gone, added, after)
              && ThemePatch(gone, added, after, Assignment("name", name), DetectNewline(Split(content)))
  {
    hide Split, Join, Is, Assignment, DetectNewline, Closed, IsAssignment, NoBreaks, Seek;
    var ls := Split(content);
    var nl, text, s := DetectNewline(ls), Assignment("name", name), ThemeAt(ls);
    JoinSplit(content);
    var edited := WithTheme(content, name);
    if s == |ls| {
      var gap := JoinClosed(ls, nl);
      JoinConcat(Closed(ls, nl), [Line("[theme]", nl), Line(text, nl)]);
      JoinBlock(text, nl);
      var added := gap + ("[theme]" + (nl + (text + nl)));
      assert gap in ["", nl, nl + nl];
      assert Patch(content, edited, content, "", added, "");
      assert ThemePatch("", added, "", text, nl);
    } else if NameAt(ls, s) < EditEnd(ls, s) {
      var n := NameAt(ls, s);
      JoinAround(ls, n);
      JoinReplaced(ls, n, text);
      SplitIsTight(content);
      NameTextIsPlain(ls, n);
      assert Patch(content, edited, Join(ls[..n]), ls[n].text, text, ls[n].newline + Join(ls[n + 1..]));
      assert ThemePatch(ls[n].text, text, ls[n].newline + Join(ls[n + 1..]), text, nl);
    } else {
      JoinInserted(ls, s + 1, Line(text, nl));
      assert "" + Join(ls[s + 1..]) == Join(ls[s + 1..]);
      assert Patch(content, edited, Join(ls[..s + 1]), "", text + nl, Join(ls[s + 1..]));
      assert ThemePatch("", text + nl, Join(ls[s + 1..]), text, nl);
    }
  }

  lemma NameTextIsPlain(ls: seq<Line>, n: nat)
    requires Loose(ls) && n < |ls| && Is(Key("name"), ls[n].text)
    ensures NoBreaks(ls[n].text) && IsAssignment(ls[n].text, "name")
  {}
}
