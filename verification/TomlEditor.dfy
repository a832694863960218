/** The comment-preserving line editor for settings.toml. */
module TomlEditor {
  import opened Ascii
  import opened Numerals
  import opened TomlLines
  import opened TomlSyntax

  // ---------- searching ----------

  const SETTINGS_NAME := "provider.model_settings"

  datatype Kind = ThemeTable | PlainTable | AnyHeader | SettingsBlock | Key(key: string)

  predicate Is(k: Kind, text: string) {
    match k
    case ThemeTable => TableHeader(text) == Some("theme")
    case PlainTable => TableHeader(text).Some?
    case AnyHeader => IsAnyHeader(text)
    case SettingsBlock => ArrayHeader(text) == Some(SETTINGS_NAME)
    case Key(key) => IsAssignment(text, key)
  }

  /** The first line of a kind from `i` on, or `end`. */
  function Seek(ls: seq<Line>, k: Kind, i: nat, end: nat): (r: nat)
    requires i <= end <= |ls|
    ensures i <= r <= end && (r < end ==> Is(k, ls[r].text))
    decreases end - i
  {
    if i == end || Is(k, ls[i].text) then i else Seek(ls, k, i + 1, end)
  }

  lemma {:induction false} SeekSkips(ls: seq<Line>, k: Kind, i: nat, end: nat)
    requires i <= end <= |ls|
    ensures forall j :: i <= j < Seek(ls, k, i, end) ==> !Is(k, ls[j].text)
    decreases end - i
  {
    hide Is;
    if i >= end {
    } else {
      SeekSkips(ls, k, i + 1, end);
    }
  }

  lemma {:induction false} SeekIs(ls: seq<Line>, k: Kind, i: nat, end: nat, r: nat)
    requires i <= r <= end <= |ls| && (r < end ==> Is(k, ls[r].text))
    requires forall j :: i <= j < r ==> !Is(k, ls[j].text)
    ensures Seek(ls, k, i, end) == r
    decreases end - i
  {
    hide Is;
    if i >= r {
    } else {
      SeekIs(ls, k, i + 1, end, r);
    }
  }

  lemma AssignmentsAreNotHeaders(text: string, key: string)
    requires PlainKey(key) && IsAssignment(text, key)
    ensures text != "" && !IsAnyHeader(text)
  {
    var l := TrimLeft(text);
    assert l[0] == key[0];
    assert TrimRight(l)[0] == key[0];
  }

  lemma PlainKeys()
    ensures PlainKey("name") && PlainKey("effort")
  {}

  /** A line that assigns `key` is of no other kind but that of a key. */
  lemma OnlyAKey(text: string, key: string, k: Kind)
    requires PlainKey(key) && IsAssignment(text, key)
    ensures Is(Key(key), text) && text != ""
    ensures !k.Key? ==> !Is(k, text)
  {
    AssignmentsAreNotHeaders(text, key);
  }

  // ---------- edits ----------

  /** The lines, ended and followed by an empty line, ready for a new block. */
  function Closed(ls: seq<Line>, nl: string): seq<Line> {
    if ls == [] then []
    else
      var last := ls[|ls| - 1];
      var ended := ls[|ls| - 1 := last.(newline := if last.newline == "" then nl else last.newline)];
      if last.text == "" then ended else ended + [Line("", nl)]
  }

  function Replaced(ls: seq<Line>, n: nat, text: string): seq<Line>
    requires n < |ls|
  {
    ls[n := ls[n].(text := text)]
  }

  function Inserted(ls: seq<Line>, k: nat, line: Line): seq<Line>
    requires k <= |ls|
  {
    ls[..k] + [line] + ls[k..]
  }

  function ThemeAt(ls: seq<Line>): nat {
    Seek(ls, ThemeTable, 0, |ls|)
  }

  /** Where the editor takes the section at `s` to end: at the next `[table]`. */
  function EditEnd(ls: seq<Line>, s: nat): nat
    requires s < |ls|
  {
    Seek(ls, PlainTable, s + 1, |ls|)
  }

  function NameAt(ls: seq<Line>, s: nat): nat
    requires s < |ls|
  {
    Seek(ls, Key("name"), s + 1, EditEnd(ls, s))
  }

  function EditTheme(ls: seq<Line>, nl: string, text: string): seq<Line> {
    var s := ThemeAt(ls);
    if s == |ls| then Closed(ls, nl) + [Line("[theme]", nl), Line(text, nl)]
    else if NameAt(ls, s) < EditEnd(ls, s) then Replaced(ls, NameAt(ls, s), text)
    else Inserted(ls, s + 1, Line(text, nl))
  }

  function WithTheme(content: string, name: string): string {
    var ls := Split(content);
    Join(EditTheme(ls, DetectNewline(ls), Assignment("name", name)))
  }

  // ---------- reading the file again ----------

  /** The name the `[theme]` table assigns: its lines go up to the next header of any kind. */
  function ThemeNameOf(ls: seq<Line>): Option<string> {
    var s := ThemeAt(ls);
    if s == |ls| then None
    else
      var end := Seek(ls, AnyHeader, s + 1, |ls|);
      var n := Seek(ls, Key("name"), s + 1, end);
      if n == end then None else AssignedValue(ls[n].text, "name")
  }

  function ThemeName(content: string): Option<string> {
    ThemeNameOf(Split(content))
  }

  /** The `[theme]` header is the last line and lacks a line break. */
  predicate Unended(ls: seq<Line>) {
    ThemeAt(ls) < |ls| && ls[ThemeAt(ls)].newline == ""
  }

  /** The assignment the editor would replace stands below a `[[...]]` header. */
  predicate NameElsewhere(ls: seq<Line>) {
    var s := ThemeAt(ls);
    s < |ls| && NameAt(ls, s) < EditEnd(ls, s) && Seek(ls, AnyHeader, s + 1, |ls|) < NameAt(ls, s)
  }

  // ---------- edited lines survive being written and read ----------

  lemma ReplacedSplits(ls: seq<Line>, n: nat, text: string)
    requires Loose(ls) && Tight(ls) && n < |ls| && ls[n].text != "" && text != "" && NoBreaks(text)
    ensures Split(Join(Replaced(ls, n, text))) == Replaced(ls, n, text)
  {
    var ls' := Replaced(ls, n, text);
    forall i | 0 <= i < |ls'| - 1
      ensures !Fuse(ls'[i], ls'[i + 1])
    {
      assert !Fuse(ls[i], ls[i + 1]);
    }
    TightSplitsBack(ls');
  }

  lemma SuffixIsTight(ls: seq<Line>, k: nat)
    requires Tight(ls) && k <= |ls|
    ensures Merge(ls[k..]) == ls[k..] && MergeOpen(ls[..k]) == ls[..k]
  {
    forall i | 0 <= i < |ls[k..]| - 1
      ensures !Fuse(ls[k..][i], ls[k..][i + 1])
    {
      assert !Fuse(ls[i + k], ls[i + k + 1]);
    }
    TightMeansUnmerged(ls[k..]);
    forall i | 0 <= i < |ls[..k]| - 1
      ensures !Fuse(ls[..k][i], ls[..k][i + 1])
    {
      assert !Fuse(ls[i], ls[i + 1]);
    }
    MergeOpenTight(ls[..k]);
  }

  /** An inserted line takes the next one in if the two read as one. */
  function Absorbed(ls: seq<Line>, k: nat, line: Line): seq<Line>
    requires k <= |ls|
  {
    if k < |ls| && Fuse(line, ls[k]) then ls[..k] + [Line(line.text, "\r\n")] + ls[k + 1..]
    else Inserted(ls, k, line)
  }

  lemma InsertedSplits(ls: seq<Line>, k: nat, line: Line)
    requires Loose(ls) && Tight(ls) && k <= |ls| && (k > 0 ==> ls[k - 1].newline != "")
    requires line.text != "" && NoBreaks(line.text) && IsNewline(line.newline)
    ensures Loose(Inserted(ls, k, line))
    ensures Split(Join(Inserted(ls, k, line))) == Absorbed(ls, k, line)
  {
    hide Loose, Tight, NoBreaks, IsNewline, Merge, MergeOpen, Fuse;
    InsertedIsLoose(ls, k, line);
    SplitJoin(Inserted(ls, k, line));
    MergeInserted(ls, k, line);
  }

  lemma MergeInserted(ls: seq<Line>, k: nat, line: Line)
    requires Tight(ls) && k <= |ls| && line.text != ""
    ensures Merge(Inserted(ls, k, line)) == Absorbed(ls, k, line)
  {
    hide Tight, Merge, MergeOpen, Fuse;
    var rest := ls[k..];
    MergeConcat(ls[..k], [line] + rest);
    SuffixIsTight(ls, k);
    if k < |ls| {
      SuffixIsTight(ls, k + 1);
      assert rest[1..] == ls[k + 1..];
    }
    MergeCons(line, rest);
    InsertedParts(ls, k, line);
  }

  lemma InsertedParts(ls: seq<Line>, k: nat, line: Line)
    requires k <= |ls|
    ensures Inserted(ls, k, line) == ls[..k] + ([line] + ls[k..])
    ensures k < |ls| && Fuse(line, ls[k]) ==>
              Absorbed(ls, k, line) == ls[..k] + ([Line(line.text, "\r\n")] + ls[k..][1..])
  {}

  lemma MergeCons(line: Line, rest: seq<Line>)
    requires line.text != "" && Merge(rest) == rest && (rest != [] ==> Merge(rest[1..]) == rest[1..])
    ensures Merge([line] + rest) == if rest != [] && Fuse(line, rest[0]) then [Line(line.text, "\r\n")] + rest[1..]
                                    else [line] + rest
  {
    var tail := [line] + rest;
    assert tail[1..] == rest;
    if rest != [] {
      assert tail[2..] == rest[1..];
    } else {
      assert tail == [line];
    }
  }

  lemma InsertedIsLoose(ls: seq<Line>, k: nat, line: Line)
    requires Loose(ls) && k <= |ls| && (k > 0 ==> ls[k - 1].newline != "")
    requires NoBreaks(line.text) && IsNewline(line.newline)
    ensures Loose(Inserted(ls, k, line))
  {
    hide NoBreaks, IsNewline;
    var e := Inserted(ls, k, line);
    forall i | 0 <= i < |e|
      ensures NoBreaks(e[i].text) && (IsNewline(e[i].newline) || (i == |e| - 1 && e[i].newline == ""))
    {
      if i < k {
        assert e[i] == ls[i];
      } else if i > k {
        assert e[i] == ls[i - 1];
      }
    }
  }

  lemma ClosedIsLoose(ls: seq<Line>, nl: string)
    requires Loose(ls) && IsNewline(nl)
    ensures forall i :: 0 <= i < |Closed(ls, nl)| ==> NoBreaks(Closed(ls, nl)[i].text) && IsNewline(Closed(ls, nl)[i].newline)
    ensures forall text :: HasText(Closed(ls, nl), text) ==> text == "" || HasText(ls, text)
  {
    forall text | HasText(Closed(ls, nl), text)
      ensures text == "" || HasText(ls, text)
    {
      var j :| 0 <= j < |Closed(ls, nl)| && Closed(ls, nl)[j].text == text;
      if j < |ls| {
        assert ls[j].text == text;
      }
    }
  }

  /** A block of full lines, appended. */
  predicate IsBlock(block: seq<Line>, nl: string) {
    block != [] && forall i :: 0 <= i < |block| ==> block[i].text != "" && NoBreaks(block[i].text) && block[i].newline == nl
  }

  lemma ExtendedSplits(ls: seq<Line>, nl: string, block: seq<Line>)
    requires Loose(ls) && IsNewline(nl) && IsBlock(block, nl)
    ensures Split(Join(Closed(ls, nl) + block)) == MergeOpen(Closed(ls, nl)) + block
  {
    ClosedIsLoose(ls, nl);
    SplitJoin(Closed(ls, nl) + block);
    MergeConcat(Closed(ls, nl), block);
    TightMeansUnmerged(block);
  }

  // ---------- reading back ----------

  lemma NewlineIsNewline(ls: seq<Line>)
    requires Loose(ls)
    ensures IsNewline(DetectNewline(ls))
  {}

  /** A replaced assignment is where the searches found the old one. */
  lemma ReplacedIsFound(ls: seq<Line>, text: string)
    requires ThemeAt(ls) < |ls| && NameAt(ls, ThemeAt(ls)) < EditEnd(ls, ThemeAt(ls))
    requires IsAssignment(text, "name")
    ensures var s, n := ThemeAt(ls), NameAt(ls, ThemeAt(ls));
            var ls' := Replaced(ls, n, text);
            && ThemeAt(ls') == s && EditEnd(ls', s) == EditEnd(ls, s) && NameAt(ls', s) == n
            && Seek(ls', AnyHeader, s + 1, |ls|) == Seek(ls, AnyHeader, s + 1, |ls|) != n
  {
    var s, n := ThemeAt(ls), NameAt(ls, ThemeAt(ls));
    PlainKeys();
    IsKey(ls[n].text, "name");
    hide IsAssignment, Is, PlainKey, Seek, Replaced;
    KeySeek(ls, ThemeTable, 0, |ls|, n, text);
    KeySeek(ls, PlainTable, s + 1, |ls|, n, text);
    KeySeek(ls, Key("name"), s + 1, EditEnd(ls, s), n, text);
    KeySeek(ls, AnyHeader, s + 1, |ls|, n, text);
    OnlyAKey(ls[n].text, "name", AnyHeader);
  }

  lemma IsKey(text: string, key: string)
    ensures Is(Key(key), text) <==> IsAssignment(text, key)
  {}

  lemma KeySeek(ls: seq<Line>, k: Kind, i: nat, end: nat, n: nat, text: string)
    requires PlainKey("name") && n < |ls| && IsAssignment(ls[n].text, "name") && IsAssignment(text, "name")
    requires i <= end <= |ls| && (k.Key? ==> k.key == "name")
    ensures Seek(Replaced(ls, n, text), k, i, end) == Seek(ls, k, i, end)
  {
    OnlyAKey(ls[n].text, "name", k);
    OnlyAKey(text, "name", k);
    ReplacedSeek(ls, k, i, end, n, text);
  }

  lemma {:induction false} ReplacedSeek(ls: seq<Line>, k: Kind, i: nat, end: nat, n: nat, text: string)
    requires i <= end <= |ls| && n < |ls| && Is(k, ls[n].text) == Is(k, text)
    ensures Seek(Replaced(ls, n, text), k, i, end) == Seek(ls, k, i, end)
    decreases end - i
  {
    hide Is;
    if i >= end {
    } else {
      ReplacedSeek(ls, k, i + 1, end, n, text);
    }
  }

  lemma ReplacedReadsBack(ls: seq<Line>, v: string)
    requires ThemeAt(ls) < |ls| && NameAt(ls, ThemeAt(ls)) < EditEnd(ls, ThemeAt(ls))
    ensures var ls' := Replaced(ls, NameAt(ls, ThemeAt(ls)), Assignment("name", v));
            ThemeNameOf(ls') == if NoDel(v) && !NameElsewhere(ls) then Some(v) else None
  {
    hide IsAssignment, IsAnyHeader, Assignment, AssignedValue, NoDel, Seek, Is, PlainKey, NoBreaks;
    PlainKeys();
    AssignmentFacts("name", v);
    AssignedReadsBack("name", v);
    ReplacedIsFound(ls, Assignment("name", v));
    var s, n := ThemeAt(ls), NameAt(ls, ThemeAt(ls));
    var ls' := Replaced(ls, n, Assignment("name", v));
    var a := Seek(ls', AnyHeader, s + 1, |ls'|);
    SeekWithin(ls', Key("name"), s + 1, EditEnd(ls', s), a);
  }

  /** A shorter search finds the same, or nothing. */
  lemma SeekWithin(ls: seq<Line>, k: Kind, i: nat, end: nat, a: nat)
    requires i <= end <= |ls| && i <= a <= |ls| && Seek(ls, k, i, end) < end
    ensures Seek(ls, k, i, a) == if Seek(ls, k, i, end) < a then Seek(ls, k, i, end) else a
  {
    hide Is;
    var r := Seek(ls, k, i, end);
    SeekSkips(ls, k, i, end);
    SeekIs(ls, k, i, a, if r < a then r else a);
  }

  /** Lines up to and with the header, then the new assignment: it is found. */
  lemma FreshReadsBack(ls: seq<Line>, s: nat, v: string)
    requires s + 1 < |ls| && Is(ThemeTable, ls[s].text) && ls[s + 1].text == Assignment("name", v)
    requires forall j :: 0 <= j < s ==> !Is(ThemeTable, ls[j].text)
    ensures ThemeAt(ls) == s && NameAt(ls, s) == s + 1 < EditEnd(ls, s)
    ensures ThemeNameOf(ls) == if NoDel(v) then Some(v) else None
  {
    AssignmentFacts("name", v);
    AssignedReadsBack("name", v);
    hide IsAssignment, TableHeader, ArrayHeader, Assignment, AssignedValue, NoDel, PlainKey, NoBreaks;
    SeekIs(ls, ThemeTable, 0, |ls|, s);
    var a := Seek(ls, AnyHeader, s + 1, |ls|);
    assert s + 1 < a;
    SeekIs(ls, Key("name"), s + 1, a, s + 1);
    SeekIs(ls, Key("name"), s + 1, EditEnd(ls, s), s + 1);
  }

  lemma TrimTight(s: string)
    requires s != "" && !IsSpace(s[0]) && !IsSpace(s[|s| - 1])
    ensures Trim(s) == s
  {}

  lemma {:induction false} FindsAt(s: string, part: string, i: nat)
    requires i + |part| <= |s| && s[i..i + |part|] == part
    requires part != "" && forall j :: 0 <= j < i ==> s[j] != part[0]
    ensures Find(s, part) == Some(i)
  {
    if i <= 0 {
    } else {
      assert s[1..][i - 1..i - 1 + |part|] == part;
      FindsAt(s[1..], part, i - 1);
    }
  }

  lemma ThemeHeaderIsOne()
    ensures Is(ThemeTable, "[theme]") && NoBreaks("[theme]")
  {
    hide Find, TrimLeft, TrimRight, Trim;
    var l := "[theme]";
    TrimTight(l);
    FindsAt(l, "]", 6);
    assert l[7..] == "" && l[1..6] == "theme";
    TrimTight("theme");
    EmptyTrim();
  }

  lemma EmptyTrim()
    ensures Trim("") == ""
  {}

  lemma ExtendedReadsBack(ls: seq<Line>, nl: string, v: string)
    requires Loose(ls) && IsNewline(nl) && ThemeAt(ls) == |ls|
    ensures var m := MergeOpen(Closed(ls, nl)) + [Line("[theme]", nl), Line(Assignment("name", v), nl)];
            var s := |MergeOpen(Closed(ls, nl))|;
            && ThemeAt(m) == s && NameAt(m, s) == s + 1 < EditEnd(m, s)
            && ThemeNameOf(m) == if NoDel(v) then Some(v) else None
  {
    var a := MergeOpen(Closed(ls, nl));
    var m := a + [Line("[theme]", nl), Line(Assignment("name", v), nl)];
    ThemeHeaderIsOne();
    forall j | 0 <= j < |a|
      ensures !Is(ThemeTable, m[j].text)
    {
      hide Is, Seek;
      assert HasText(a, m[j].text);
      MergeOpenTexts(Closed(ls, nl), m[j].text);
      ClosedIsLoose(ls, nl);
      NoTheme(ls, m[j].text);
    }
    hide Assignment, Closed, Is;
    FreshReadsBack(m, |a|, v);
  }

  lemma NoTheme(ls: seq<Line>, text: string)
    requires ThemeAt(ls) == |ls| && (text == "" || HasText(ls, text))
    ensures !Is(ThemeTable, text)
  {
    EmptyLine("");
    if HasText(ls, text) {
      var i :| 0 <= i < |ls| && ls[i].text == text;
      hide Is;
      SeekSkips(ls, ThemeTable, 0, |ls|);
    }
  }
}
