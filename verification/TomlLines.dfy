/** A text as lines that remember how they ended. */
module TomlLines {
  import opened Strings

  datatype Line = Line(text: string, newline: string)

  predicate IsBreak(c: char) {
    c == '\r' || c == '\n'
  }

  /** Where the first line of `c` ends. */
  function LineEnd(c: string): (e: nat)
    ensures e <= |c| && (e < |c| ==> IsBreak(c[e]))
    ensures forall i :: 0 <= i < e ==> !IsBreak(c[i])
  {
    if c == "" || IsBreak(c[0]) then 0 else 1 + LineEnd(c[1..])
  }

  /** How long the line break at `e` is. */
  function BreakLength(c: string, e: nat): (n: nat)
    requires e < |c|
    ensures 1 <= n <= 2 && e + n <= |c|
  {
    if c[e] == '\r' && e + 1 < |c| && c[e + 1] == '\n' then 2 else 1
  }

  function FirstLine(c: string): Line
    requires c != ""
  {
    var e := LineEnd(c);
    if e == |c| then Line(c, "") else Line(c[..e], c[e..e + BreakLength(c, e)])
  }

  function AfterFirst(c: string): (rest: string)
    requires c != ""
    ensures |rest| < |c|
  {
    var e := LineEnd(c);
    if e == |c| then "" else c[e + BreakLength(c, e)..]
  }

  function Split(c: string): seq<Line>
    decreases |c|
  {
    if c == "" then [] else [FirstLine(c)] + Split(AfterFirst(c))
  }

  function Join(ls: seq<Line>): string {
    if ls == [] then "" else ls[0].text + (ls[0].newline + Join(ls[1..]))
  }

  function DetectNewline(ls: seq<Line>): (nl: string)
    ensures nl != "" && (nl == "\n" || exists i :: 0 <= i < |ls| && ls[i].newline == nl)
  {
    if ls == [] then "\n" else if ls[0].newline != "" then ls[0].newline else DetectNewline(ls[1..])
  }

  lemma ThreeParts(c: string, e: nat, n: nat)
    requires e + n <= |c|
    ensures c == c[..e] + (c[e..e + n] + c[e + n..])
  {}

  lemma BreakIsNewline(c: string, e: nat)
    requires e < |c| && IsBreak(c[e])
    ensures IsNewline(c[e..e + BreakLength(c, e)])
  {
    assert c[e..e + BreakLength(c, e)] == if BreakLength(c, e) == 2 then "\r\n" else [c[e]];
  }

  lemma FirstLineParts(c: string)
    requires c != ""
    ensures c == FirstLine(c).text + (FirstLine(c).newline + AfterFirst(c))
    ensures NoBreaks(FirstLine(c).text)
    ensures IsNewline(FirstLine(c).newline) || (FirstLine(c).newline == "" == AfterFirst(c) && FirstLine(c).text != "")
  {
    hide LineEnd, BreakLength, IsNewline, IsBreak;
    var e := LineEnd(c);
    if e == |c| {
      assert c == c + ("" + "");
    } else {
      BreakIsNewline(c, e);
      ThreeParts(c, e, BreakLength(c, e));
    }
  }

  /** Joining the split text gives the text back, whatever its bytes. */
  lemma {:induction false} JoinSplit(c: string)
    ensures Join(Split(c)) == c
    decreases |c|
  {
    hide FirstLine, AfterFirst;
    if c == "" {
    } else {
      FirstLineParts(c);
      JoinSplit(AfterFirst(c));
      assert Split(c)[1..] == Split(AfterFirst(c));
    }
  }

  // ---------- splitting joined lines ----------

  predicate IsNewline(s: string) {
    s == "\n" || s == "\r" || s == "\r\n"
  }

  predicate NoBreaks(text: string) {
    forall i :: 0 <= i < |text| ==> !IsBreak(text[i])
  }

  /** Lines whose text holds no break, every one but the last ended by a newline. */
  predicate Loose(ls: seq<Line>) {
    forall i :: 0 <= i < |ls| ==>
      NoBreaks(ls[i].text) && (IsNewline(ls[i].newline) || (i == |ls| - 1 && ls[i].newline == ""))
  }

  /** A line ended by CR and an empty one ended by LF read as one line ended by CR LF. */
  predicate Fuse(a: Line, b: Line) {
    a.newline == "\r" && b == Line("", "\n")
  }

  /** What splitting makes of joined lines. */
  function Merge(ls: seq<Line>): (r: seq<Line>)
    ensures |r| <= |ls|
  {
    if ls == [] || ls == [Line("", "")] then []
    else if |ls| >= 2 && Fuse(ls[0], ls[1]) then [Line(ls[0].text, "\r\n")] + Merge(ls[2..])
    else [ls[0]] + Merge(ls[1..])
  }

  /** No two neighbours read as one, and no empty last line. */
  predicate Tight(ls: seq<Line>) {
    && (forall i :: 0 <= i < |ls| - 1 ==> !Fuse(ls[i], ls[i + 1]))
    && (ls != [] ==> ls[|ls| - 1] != Line("", ""))
  }

  lemma {:induction false} LineEndAt(text: string, rest: string)
    requires NoBreaks(text) && (rest != "" ==> IsBreak(rest[0]))
    ensures LineEnd(text + rest) == |text|
  {
    if text == "" {
      assert text + rest == rest;
    } else {
      assert (text + rest)[1..] == text[1..] + rest;
      LineEndAt(text[1..], rest);
    }
  }

  lemma SlicesOf(text: string, newline: string, rest: string)
    ensures var c, e := text + (newline + rest), |text|;
            c[..e] == text && c[e..e + |newline|] == newline && c[e + |newline|..] == rest
  {}

  /** The first line of a text that starts with it. */
  lemma SplitFirst(text: string, newline: string, rest: string)
    requires NoBreaks(text) && IsNewline(newline)
    requires newline == "\r" ==> rest == "" || rest[0] != '\n'
    ensures Split(text + (newline + rest)) == [Line(text, newline)] + Split(rest)
  {
    var c, e := text + (newline + rest), |text|;
    LineEndAt(text, newline + rest);
    BreakAt(text, newline, rest);
    hide LineEnd, BreakLength, NoBreaks, IsBreak;
    SlicesOf(text, newline, rest);
  }

  lemma BreakAt(text: string, newline: string, rest: string)
    requires IsNewline(newline) && (newline == "\r" ==> rest == "" || rest[0] != '\n')
    ensures BreakLength(text + (newline + rest), |text|) == |newline|
  {
    var c, e := text + (newline + rest), |text|;
    assert c[e] == newline[0];
    if newline == "\r" && rest != "" {
      assert c[e + 1] == rest[0];
    } else if newline == "\r\n" {
      assert c[e + 1] == '\n';
    }
  }

  lemma JoinStart(ls: seq<Line>)
    requires Loose(ls) && ls != []
    ensures Join(ls) != "" && Join(ls)[0] == '\n' <==> ls[0] == Line("", "\n")
  {
    if ls[0].text != "" {
      assert Join(ls)[0] == ls[0].text[0];
      assert !IsBreak(ls[0].text[0]);
    } else if ls[0].newline != "" {
      assert Join(ls)[0] == ls[0].newline[0];
    } else {
      assert ls[1..] == [];
    }
  }

  lemma SplitLast(text: string)
    requires NoBreaks(text)
    ensures Split(Join([Line(text, "")])) == Merge([Line(text, "")])
  {
    LineEndAt(text, "");
    assert text + "" == text && text + ("" + "") == text;
    assert [Line(text, "")][1..] == [];
  }

  lemma JoinFused(ls: seq<Line>)
    requires |ls| >= 2 && Fuse(ls[0], ls[1])
    ensures Join(ls) == ls[0].text + ("\r\n" + Join(ls[2..]))
  {
    var rest := Join(ls[2..]);
    assert ls[1..][1..] == ls[2..];
    assert Join(ls[1..]) == "" + ("\n" + rest);
    hide Join;
    assert "\r" + ("" + ("\n" + rest)) == "\r\n" + rest;
  }

  lemma {:induction false} SplitJoin(ls: seq<Line>)
    requires Loose(ls)
    ensures Split(Join(ls)) == Merge(ls)
    decreases |ls|
  {
    hide Split, IsBreak;
    if ls == [] {
      SplitEmpty();
    } else if ls[0].newline == "" {
      assert ls == [Line(ls[0].text, "")];
      SplitLast(ls[0].text);
    } else if |ls| >= 2 && Fuse(ls[0], ls[1]) {
      JoinFused(ls);
      SplitFirst(ls[0].text, "\r\n", Join(ls[2..]));
      SplitJoin(ls[2..]);
    } else {
      if |ls| >= 2 {
        JoinStart(ls[1..]);
      }
      SplitFirst(ls[0].text, ls[0].newline, Join(ls[1..]));
      SplitJoin(ls[1..]);
    }
  }

  lemma SplitEmpty()
    ensures Split("") == []
  {}

  lemma {:induction false} SplitIsLoose(c: string)
    ensures Loose(Split(c))
    decreases |c|
  {
    hide FirstLine, AfterFirst, NoBreaks, IsNewline;
    if c == "" {
    } else {
      FirstLineParts(c);
      SplitIsLoose(AfterFirst(c));
    }
  }

  lemma {:induction false} TightMeansUnmerged(ls: seq<Line>)
    ensures Merge(ls) == ls <==> Tight(ls)
    decreases |ls|
  {
    if |ls| >= 2 {
      TightMeansUnmerged(ls[1..]);
      TightTail(ls);
      if Fuse(ls[0], ls[1]) {
        assert |Merge(ls)| < |ls|;
      } else {
        assert Merge(ls) == [ls[0]] + Merge(ls[1..]) && ls == [ls[0]] + ls[1..];
      }
    } else if |ls| == 1 {
      assert ls[1..] == [] && ls == [ls[0]];
    }
  }

  lemma TightTail(ls: seq<Line>)
    requires |ls| >= 2
    ensures Tight(ls) <==> !Fuse(ls[0], ls[1]) && Tight(ls[1..])
  {
    hide Fuse;
    var rest := ls[1..];
    if Tight(ls) {
      forall i | 0 <= i < |rest| - 1
        ensures !Fuse(rest[i], rest[i + 1])
      {
        assert !Fuse(ls[i + 1], ls[i + 2]);
      }
    }
    if !Fuse(ls[0], ls[1]) && Tight(rest) {
      forall i | 0 <= i < |ls| - 1
        ensures !Fuse(ls[i], ls[i + 1])
      {
        if i > 0 {
          assert !Fuse(rest[i - 1], rest[i]);
        }
      }
    }
  }

  /** Split text is in its final form: splitting it again changes nothing. */
  lemma SplitIsTight(c: string)
    ensures Loose(Split(c)) && Tight(Split(c))
  {
    SplitIsLoose(c);
    JoinSplit(c);
    SplitJoin(Split(c));
    TightMeansUnmerged(Split(c));
  }

  lemma TightSplitsBack(ls: seq<Line>)
    requires Loose(ls) && Tight(ls)
    ensures Split(Join(ls)) == ls
  {
    SplitJoin(ls);
    TightMeansUnmerged(ls);
  }

  lemma {:induction false} JoinConcat(a: seq<Line>, b: seq<Line>)
    ensures Join(a + b) == Join(a) + Join(b)
  {
    if a == [] {
      assert a + b == b;
    } else {
      assert (a + b)[1..] == a[1..] + b;
      JoinConcat(a[1..], b);
    }
  }

  /** A line with text keeps what precedes it apart from what follows it. */
  lemma {:induction false} MergeConcat(a: seq<Line>, b: seq<Line>)
    requires b != [] && b[0].text != ""
    ensures Merge(a + b) == MergeOpen(a) + Merge(b)
    decreases |a|
  {
    hide Merge, MergeOpen, Fuse;
    if a == [] {
      assert a + b == b;
      NothingOpen();
    } else {
      var n := MergeBoth(a, b);
      MergeConcat(a[n..], b);
      Assoc([MergeOpen(a)[0]], MergeOpen(a[n..]), Merge(b));
    }
  }

  lemma NothingOpen()
    ensures MergeOpen([]) == []
  {}

  /** One step of merging, alone and with more lines behind. */
  lemma MergeBoth(a: seq<Line>, b: seq<Line>) returns (n: nat)
    requires a != [] && b != [] && b[0].text != ""
    ensures 0 < n <= |a| && MergeOpen(a) != []
    ensures MergeOpen(a) == [MergeOpen(a)[0]] + MergeOpen(a[n..])
    ensures Merge(a + b) == [MergeOpen(a)[0]] + Merge(a[n..] + b)
  {
    n := if |a| >= 2 && Fuse(a[0], a[1]) then 2 else 1;
    assert (a + b)[n..] == a[n..] + b;
  }

  /** `Merge` for lines that more lines follow. */
  function MergeOpen(ls: seq<Line>): (r: seq<Line>)
    ensures |r| <= |ls|
  {
    if ls == [] then []
    else if |ls| >= 2 && Fuse(ls[0], ls[1]) then [Line(ls[0].text, "\r\n")] + MergeOpen(ls[2..])
    else [ls[0]] + MergeOpen(ls[1..])
  }

  ghost predicate HasText(ls: seq<Line>, text: string) {
    exists j :: 0 <= j < |ls| && ls[j].text == text
  }

  /** Merging makes no new texts. */
  lemma {:induction false} MergeOpenTexts(ls: seq<Line>, text: string)
    requires HasText(MergeOpen(ls), text)
    ensures HasText(ls, text)
    decreases |ls|
  {
    var n := if |ls| >= 2 && Fuse(ls[0], ls[1]) then 2 else 1;
    var i :| 0 <= i < |MergeOpen(ls)| && MergeOpen(ls)[i].text == text;
    if i == 0 {
      assert ls[0].text == text;
    } else {
      assert MergeOpen(ls[n..])[i - 1].text == text;
      MergeOpenTexts(ls[n..], text);
      var j :| 0 <= j < |ls[n..]| && ls[n..][j].text == text;
      assert ls[j + n].text == text;
    }
  }

  lemma {:induction false} MergeOpenTight(ls: seq<Line>)
    requires forall i :: 0 <= i < |ls| - 1 ==> !Fuse(ls[i], ls[i + 1])
    ensures MergeOpen(ls) == ls
    decreases |ls|
  {
    if ls == [] {
    } else {
      forall i | 0 <= i < |ls[1..]| - 1
        ensures !Fuse(ls[1..][i], ls[1..][i + 1])
      {
        assert !Fuse(ls[i + 1], ls[i + 2]);
      }
      MergeOpenTight(ls[1..]);
      assert ls == [ls[0]] + ls[1..];
    }
  }

  // ---------- as it runs ----------

  lemma LineAt(content: string, pos: nat, end: nat)
    requires pos < |content| && pos <= end <= |content| && end - pos == LineEnd(content[pos..])
    ensures end == |content| ==> FirstLine(content[pos..]) == Line(content[pos..], "") && AfterFirst(content[pos..]) == ""
    ensures end < |content| ==>
              var n := BreakLength(content, end);
              && FirstLine(content[pos..]) == Line(content[pos..end], content[end..end + n])
              && AfterFirst(content[pos..]) == content[end + n..]
  {
    hide LineEnd, IsBreak, BreakLength;
    if end < |content| {
      SliceOfTail(content, pos, end, end + BreakLength(content, end));
      BreakInTail(content, pos, end);
    }
  }

  lemma BreakInTail(content: string, pos: nat, end: nat)
    requires pos <= end < |content|
    ensures BreakLength(content[pos..], end - pos) == BreakLength(content, end)
  {
    assert content[pos..][end - pos] == content[end];
    if end + 1 < |content| {
      assert content[pos..][end - pos + 1] == content[end + 1];
    }
  }

  lemma SliceOfTail(content: string, pos: nat, i: nat, j: nat)
    requires pos <= i <= j <= |content|
    ensures content[pos..][..i - pos] == content[pos..i]
    ensures content[pos..][i - pos..j - pos] == content[i..j]
    ensures content[pos..][j - pos..] == content[j..]
  {}

  lemma BreakSlice(c: string, e: nat)
    requires e < |c|
    ensures c[e..e + BreakLength(c, e)] == if BreakLength(c, e) == 2 then "\r\n" else [c[e]]
  {}

  method SplitPreservingNewlines(content: string) returns (lines: seq<Line>)
    ensures lines == Split(content)
  {
    hide FirstLine, AfterFirst, LineEnd;
    lines := [];
    var pos := 0;
    assert content[0..] == content;
    while pos < |content|
      invariant pos <= |content| && lines + Split(content[pos..]) == Split(content)
    {
      var lineEnd := FindBreak(content, pos);
      LineAt(content, pos, lineEnd);
      if lineEnd == |content| {
        lines := lines + [Line(content[pos..], "")];
        return;
      }
      var nextPos := lineEnd + 1;
      var newline := [content[lineEnd]];
      if content[lineEnd] == '\r' && nextPos < |content| && content[nextPos] == '\n' {
        newline := "\r\n";
        nextPos := nextPos + 1;
      }
      BreakSlice(content, lineEnd);
      var line := Line(content[pos..lineEnd], newline);
      Assoc(lines, [line], Split(content[nextPos..]));
      lines := lines + [line];
      pos := nextPos;
    }
  }

  /** `find_first_of("\r\n", pos)`, with the length for "none". */
  method FindBreak(content: string, pos: nat) returns (e: nat)
    requires pos <= |content|
    ensures pos <= e <= |content| && e - pos == LineEnd(content[pos..])
  {
    e := pos;
    while e < |content| && !IsBreak(content[e])
      invariant pos <= e <= |content| && LineEnd(content[pos..]) == e - pos + LineEnd(content[e..])
    {
      e := e + 1;
    }
  }

  lemma JoinStep(ls: seq<Line>, i: nat)
    requires i < |ls|
    ensures Join(ls[i..]) == ls[i].text + (ls[i].newline + Join(ls[i + 1..]))
  {
    assert ls[i..][1..] == ls[i + 1..];
  }

  lemma FourParts(a: string, b: string, c: string, d: string)
    ensures a + (b + (c + d)) == ((a + b) + c) + d
  {}

  method JoinLines(lines: seq<Line>) returns (output: string)
    ensures output == Join(lines)
  {
    hide Join;
    output := "";
    var i := 0;
    assert lines[0..] == lines;
    while i < |lines|
      invariant i <= |lines| && output + Join(lines[i..]) == Join(lines)
    {
      JoinStep(lines, i);
      FourParts(output, lines[i].text, lines[i].newline, Join(lines[i + 1..]));
      output := output + lines[i].text;
      output := output + lines[i].newline;
      i := i + 1;
    }
    JoinNone();
    assert lines[i..] == [];
  }

  lemma JoinNone()
    ensures Join([]) == ""
  {}

  method FirstNewline(lines: seq<Line>) returns (newline: string)
    ensures newline == DetectNewline(lines)
  {
    var i := 0;
    while i < |lines|
      invariant i <= |lines| && DetectNewline(lines[i..]) == DetectNewline(lines)
    {
      if lines[i].newline != "" {
        return lines[i].newline;
      }
      i := i + 1;
    }
    return "\n";
  }
}
