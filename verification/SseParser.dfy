/** The server-sent-events parser: a dialect of section 9.2.6 of the WHATWG HTML
    Standard, fed in chunks. */
module Sse {
  import opened Numerals

  datatype SseEvent = SseEvent(id: string, event: string, data: string, retry: int)

  const EMPTY_EVENT := SseEvent("", "", "", -1)

  /** The parser's memory between chunks. */
  datatype Parser = Parser(buffer: string, pending: SseEvent, hasField: bool)

  const START := Parser("", EMPTY_EVENT, false)

  /** A parser and the events it has produced. */
  datatype Output = Output(parser: Parser, events: seq<SseEvent>)

  // ---------- one line ----------

  function IndexOf(s: string, c: char): (i: nat)
    ensures i <= |s|
  {
    if s == "" || s[0] == c then 0 else 1 + IndexOf(s[1..], c)
  }

  function WithoutCarriageReturn(line: string): string {
    if line != "" && line[|line| - 1] == '\r' then line[..|line| - 1] else line
  }

  function FieldName(line: string): string {
    line[..IndexOf(line, ':')]
  }

  function FieldValue(line: string): string {
    var i := IndexOf(line, ':');
    if i == |line| then ""
    else if i + 1 < |line| && line[i + 1] == ' ' then line[i + 2..]
    else line[i + 1..]
  }

  /** `std::from_chars` into an int, accepting only when all of the value is used. */
  function FromChars(value: string): Option<int> {
    var digits := if value != "" && value[0] == '-' then value[1..] else value;
    if digits == "" || !AllDigits(digits) then None
    else
      var n: int := FromDecimal(digits);
      if value[0] == '-' then (if n <= 0x8000_0000 then Some(-n) else None)
      else if n < 0x8000_0000 then Some(n) else None
  }

  function Flush(p: Parser): Output {
    if p.hasField then Output(p.(pending := EMPTY_EVENT, hasField := false), [p.pending]) else Output(p, [])
  }

  function Line(p: Parser, line: string): Output {
    if line == "" then Flush(p)
    else if line[0] == ':' then Output(p, [])
    else
      var name, value := FieldName(line), FieldValue(line);
      var e := p.pending;
      if name == "data" then
        Output(p.(pending := e.(data := if e.data == "" then value else e.data + "\n" + value), hasField := true), [])
      else if name == "id" then Output(p.(pending := e.(id := value), hasField := true), [])
      else if name == "event" then Output(p.(pending := e.(event := value), hasField := true), [])
      else if name == "retry" && FromChars(value).Some? then
        Output(p.(pending := e.(retry := FromChars(value).value), hasField := true), [])
      else Output(p, [])
  }

  // ---------- a byte at a time ----------

  /** What one byte does, with no notion of chunks. */
  function OnByte(p: Parser, c: char): Output {
    if c == '\n' then Line(p.(buffer := ""), WithoutCarriageReturn(p.buffer))
    else Output(p.(buffer := p.buffer + [c]), [])
  }

  function Read(p: Parser, text: string): Output
    decreases |text|
  {
    if text == "" then Output(p, [])
    else
      var first := OnByte(p, text[0]);
      var rest := Read(first.parser, text[1..]);
      Output(rest.parser, first.events + rest.events)
  }

  /** An unfinished line longer than the cap is dropped after each chunk. */
  function Capped(p: Parser, cap: nat): Parser {
    if |p.buffer| > cap then p.(buffer := "") else p
  }

  function Feed(p: Parser, chunk: string, cap: nat): Output {
    var out := Read(p, chunk);
    Output(Capped(out.parser, cap), out.events)
  }

  function FeedAll(p: Parser, chunks: seq<string>, cap: nat): Output
    decreases |chunks|
  {
    if chunks == [] then Output(p, [])
    else
      var first := Feed(p, chunks[0], cap);
      var rest := FeedAll(first.parser, chunks[1..], cap);
      Output(rest.parser, first.events + rest.events)
  }

  function Joined(chunks: seq<string>): string {
    if chunks == [] then "" else chunks[0] + Joined(chunks[1..])
  }

  /** No newline-free run of `text` is longer than the cap, counting `n` bytes that
      came before it. */
  predicate RunsFit(n: nat, text: string, cap: nat)
    decreases |text|
  {
    n <= cap && (text == "" || RunsFit(if text[0] == '\n' then 0 else n + 1, text[1..], cap))
  }

  // ---------- chunking does not matter ----------

  lemma {:induction false} ReadConcat(p: Parser, a: string, b: string)
    ensures var ra, rb := Read(p, a), Read(Read(p, a).parser, b);
            Read(p, a + b) == Output(rb.parser, ra.events + rb.events)
    decreases |a|
  {
    hide OnByte;
    if a == "" {
      assert a + b == b;
    } else {
      assert (a + b)[1..] == a[1..] + b;
      ReadConcat(OnByte(p, a[0]).parser, a[1..], b);
    }
  }

  lemma {:induction false} RunsFitSplit(p: Parser, a: string, b: string, cap: nat)
    requires RunsFit(|p.buffer|, a + b, cap)
    ensures |Read(p, a).parser.buffer| <= cap
    ensures RunsFit(|Read(p, a).parser.buffer|, b, cap)
    decreases |a|
  {
    if a == "" {
      assert a + b == b;
    } else {
      assert (a + b)[1..] == a[1..] + b;
      RunsFitSplit(OnByte(p, a[0]).parser, a[1..], b, cap);
    }
  }

  /** Chunking does not matter: if no newline-free run exceeds the cap, feeding a
      byte stream in any pieces yields the same events and leaves the parser in the
      same state as feeding it whole. */
  lemma {:induction false} ChunkingDoesNotMatter(p: Parser, chunks: seq<string>, cap: nat)
    requires RunsFit(|p.buffer|, Joined(chunks), cap)
    ensures FeedAll(p, chunks, cap) == Read(p, Joined(chunks))
    ensures FeedAll(p, chunks, cap) == Feed(p, Joined(chunks), cap)
    decreases |chunks|
  {
    RunsFitAll(p, Joined(chunks), cap);
    if chunks == [] {
    } else {
      var rest := Joined(chunks[1..]);
      RunsFitSplit(p, chunks[0], rest, cap);
      ReadConcat(p, chunks[0], rest);
      ChunkingDoesNotMatter(Read(p, chunks[0]).parser, chunks[1..], cap);
    }
  }

  lemma RunsFitAll(p: Parser, text: string, cap: nat)
    requires RunsFit(|p.buffer|, text, cap)
    ensures |Read(p, text).parser.buffer| <= cap
  {
    assert text + "" == text;
    RunsFitSplit(p, text, "", cap);
  }

  function Repeat(c: char, n: nat): string {
    if n == 0 then "" else [c] + Repeat(c, n - 1)
  }

  lemma {:induction false} ReadPlain(p: Parser, text: string)
    requires '\n' !in text
    ensures Read(p, text) == Output(p.(buffer := p.buffer + text), [])
    decreases |text|
  {
    hide Read;
    if text == "" {
      assert p.buffer + text == p.buffer;
      assert Read(p, "") == Output(p, []) by {
        NothingRead(p);
      }
    } else {
      PlainByte(p, text);
      ReadPlain(p.(buffer := p.buffer + [text[0]]), text[1..]);
      HeadAndTail(p.buffer, text);
    }
  }

  lemma NothingRead(p: Parser)
    ensures Read(p, "") == Output(p, [])
  {}

  lemma HeadAndTail(before: string, text: string)
    requires text != ""
    ensures before + [text[0]] + text[1..] == before + text
  {}

  lemma PlainByte(p: Parser, text: string)
    requires text != "" && '\n' !in text
    ensures Read(p, text) == Read(p.(buffer := p.buffer + [text[0]]), text[1..])
  {
    hide Line;
    assert text[0] in text;
    var rest := Read(p.(buffer := p.buffer + [text[0]]), text[1..]);
    assert [] + rest.events == rest.events;
  }

  /** One whole line, from an empty buffer. */
  lemma ReadLine(p: Parser, line: string)
    requires p.buffer == "" && '\n' !in line
    ensures Read(p, line + "\n") == Line(p, WithoutCarriageReturn(line))
  {
    hide Line;
    ReadConcat(p, line, "\n");
    ReadPlain(p, line);
    var full := p.(buffer := line);
    assert p.(buffer := p.buffer + line) == full && full.(buffer := "") == p;
    assert Read(full, "\n") == Output(Line(p, WithoutCarriageReturn(line)).parser, Line(p, WithoutCarriageReturn(line)).events + []);
  }

  lemma {:induction false} RepeatPlain(c: char, n: nat)
    ensures |Repeat(c, n)| == n
    ensures forall d :: d in Repeat(c, n) ==> d == c
  {
    if n <= 0 {
    } else {
      RepeatPlain(c, n - 1);
    }
  }

  lemma FeedTwo(p: Parser, a: string, b: string, cap: nat)
    ensures FeedAll(p, [a, b], cap).events
         == Feed(p, a, cap).events + Feed(Feed(p, a, cap).parser, b, cap).events
  {
    hide Read;
    assert [a, b][1..] == [b] && [b][1..] == [];
    var second := Feed(Feed(p, a, cap).parser, b, cap);
    assert FeedAll(second.parser, [], cap).events == [] && second.events + [] == second.events;
    assert FeedAll(Feed(p, a, cap).parser, [b], cap).events == second.events + [];
  }

  /** Beyond the cap chunking does matter, whatever the cap: this event arrives
      when the stream comes whole, and is lost when it is cut before its newline. */
  lemma LongLinesDependOnChunking(cap: nat)
    ensures var line := "data:x" + Repeat('x', cap);
            && Feed(START, line + "\n\n", cap).events == [EMPTY_EVENT.(data := "x" + Repeat('x', cap))]
            && FeedAll(START, [line, "\n\n"], cap).events == []
  {
    hide Read, FeedAll, Repeat;
    RepeatPlain('x', cap);
    var body := "x" + Repeat('x', cap);
    var line := "data:x" + Repeat('x', cap);
    assert line == "data:" + body;
    OneDataLine(body);
    ReadPlain(START, line);
    BlankLinesAreSilent();
    FeedTwo(START, line, "\n\n", cap);
  }

  // ---------- which long lines depend on their chunks ----------

  lemma TwoChunks(p: Parser, a: string, b: string, cap: nat)
    ensures var first := Feed(p, a, cap);
            var second := Feed(first.parser, b, cap);
            FeedAll(p, [a, b], cap) == Output(second.parser, first.events + second.events)
  {
    hide Feed;
    assert [a, b][1..] == [b] && [b][1..] == [];
    var second := Feed(Feed(p, a, cap).parser, b, cap);
    assert FeedAll(second.parser, [], cap) == Output(second.parser, []);
    assert second.events + [] == second.events;
    assert FeedAll(Feed(p, a, cap).parser, [b], cap) == second;
  }

  lemma FeedLine(p: Parser, line: string, cap: nat)
    requires p.buffer == "" && '\n' !in line
    ensures Feed(p, line + "\n", cap) == Line(p, WithoutCarriageReturn(line))
  {
    hide Read, Line;
    ReadLine(p, line);
    LineKeepsBuffer(p, WithoutCarriageReturn(line));
  }

  /** Feeding a line in two pieces: cut late enough, only the second piece is read. */
  lemma CutLine(p: Parser, line: string, k: nat, cap: nat)
    requires p.buffer == "" && '\n' !in line && k <= |line|
    ensures FeedAll(p, [line[..k], line[k..] + "\n"], cap)
         == Line(p, WithoutCarriageReturn(if k > cap then line[k..] else line))
  {
    hide Line, FeedAll, Read;
    var a, b := line[..k], line[k..] + "\n";
    assert forall c :: c in a || c in line[k..] ==> c in line;
    TwoChunks(p, a, b, cap);
    ReadPlain(p, a);
    assert p.buffer + a == a;
    if k > cap {
      assert p.(buffer := "") == p;
      FeedLine(p, line[k..], cap);
    } else {
      ReadConcat(p, a, b);
      assert a + b == line + "\n";
      FeedLine(p, line, cap);
    }
    var out := Line(p, WithoutCarriageReturn(if k > cap then line[k..] else line));
    assert [] + out.events == out.events;
  }

  /** The line, or an end of it behind the cap, says something. */
  ghost predicate SaysSomething(p: Parser, line: string, cap: nat) {
    exists k: nat :: k <= |line| && (k == 0 || k > cap)
      && Line(p, WithoutCarriageReturn(line[k..])) != Output(p, [])
  }

  ghost predicate DependsOnCut(p: Parser, line: string, cap: nat) {
    exists k: nat :: k <= |line| && FeedAll(p, [line[..k], line[k..] + "\n"], cap) != Feed(p, line + "\n", cap)
  }

  lemma LastCut(p: Parser, line: string)
    ensures line[|line|..] == "" && WithoutCarriageReturn("") == "" && Line(p, "") == Flush(p)
    ensures line[0..] == line
    ensures !p.hasField ==> Flush(p) == Output(p, [])
    ensures p.hasField && WithoutCarriageReturn(line) != "" ==> Line(p, WithoutCarriageReturn(line)).events != Flush(p).events
  {}

  /** For every parser state and every line beyond the cap: it depends on where it is cut
      exactly if it is not blank, and an event is pending, or the line or an end of it
      behind the cap says something. */
  lemma LongLinesDependExactly(p: Parser, line: string, cap: nat)
    requires p.buffer == "" && '\n' !in line && |line| > cap
    ensures DependsOnCut(p, line, cap)
       <==> WithoutCarriageReturn(line) != "" && (p.hasField || SaysSomething(p, line, cap))
  {
    hide Line, FeedAll, Feed, Flush, WithoutCarriageReturn;
    FeedLine(p, line, cap);
    LastCut(p, line);
    CutLine(p, line, |line|, cap);
    forall k: nat | k <= |line|
      ensures FeedAll(p, [line[..k], line[k..] + "\n"], cap)
           == Line(p, WithoutCarriageReturn(if k > cap then line[k..] else line))
    {
      CutLine(p, line, k, cap);
    }
    if WithoutCarriageReturn(line) == "" {
      BlankLongLine(p, line, cap);
    }
  }

  lemma BlankLongLine(p: Parser, line: string, cap: nat)
    requires |line| > cap && WithoutCarriageReturn(line) == ""
    ensures forall k: nat :: cap < k <= |line| ==> WithoutCarriageReturn(line[k..]) == ""
  {}

  lemma BlankLinesAreSilent()
    ensures Read(START, "\n\n") == Output(START, [])
  {
    assert Line(START, "") == Output(START, []);
    ReadLine(START, "");
    ReadConcat(START, "\n", "\n");
    assert "\n" + "\n" == "\n\n" && "" + "\n" == "\n";
  }

  lemma FieldOfLine(name: string, value: string)
    requires ':' !in name
    ensures FieldName(name + ":" + value) == name
    ensures FieldValue(name + ":" + value) == if value != "" && value[0] == ' ' then value[1..] else value
  {
    var line := name + ":" + value;
    IndexOfPrefix(name, ":" + value, ':');
    assert line == name + (":" + value);
    assert line[..|name|] == name;
    assert line[|name| + 1..] == value;
  }

  lemma {:induction false} IndexOfPrefix(a: string, b: string, c: char)
    requires c !in a && b != "" && b[0] == c
    ensures IndexOf(a + b, c) == |a|
  {
    if a == "" {
      assert a + b == b;
    } else {
      assert (a + b)[1..] == a[1..] + b;
      IndexOfPrefix(a[1..], b, c);
    }
  }

  lemma OneDataLine(body: string)
    requires body != "" && body[0] != ' ' && '\n' !in body && '\r' !in body
    ensures Read(START, "data:" + body + "\n\n").events == [EMPTY_EVENT.(data := body)]
  {
    hide Line, OnByte, Read;
    var line := "data:" + body;
    assert line == "data" + ":" + body;
    var p := START.(pending := EMPTY_EVENT.(data := body), hasField := true);
    FieldLine(START, "data", body);
    assert line[|line| - 1] == body[|body| - 1];
    ReadLine(START, line);
    BlankLineFlushes(p);
    ReadConcat(START, line + "\n", "\n");
    assert line + "\n" + "\n" == line + "\n\n";
  }

  /** What a well-named field does to the pending event. */
  function SetField(p: Parser, name: string, value: string): Parser {
    var e := p.pending;
    match name
    case "data" => p.(pending := e.(data := if e.data == "" then value else e.data + "\n" + value), hasField := true)
    case "id" => p.(pending := e.(id := value), hasField := true)
    case "event" => p.(pending := e.(event := value), hasField := true)
    case _ => p
  }

  lemma FieldLine(p: Parser, name: string, value: string)
    requires name == "data" || name == "id" || name == "event"
    ensures var stripped := if value != "" && value[0] == ' ' then value[1..] else value;
            Line(p, name + ":" + value) == Output(SetField(p, name, stripped), [])
  {
    FieldOfLine(name, value);
    var line := name + ":" + value;
    assert line[0] == name[0];
    hide FieldName, FieldValue;
  }

  lemma BlankLineFlushes(p: Parser)
    requires p.buffer == ""
    ensures Read(p, "\n") == Flush(p)
  {
    ReadLine(p, "");
    assert "" + "\n" == "\n";
  }

  // ---------- printing and reading back ----------

  function PrintField(name: string, value: string): string {
    name + ": " + value + "\n"
  }

  /** The lines of a data field. */
  function SplitLines(s: string): (ls: seq<string>)
    ensures ls != []
    decreases |s|
  {
    var i := IndexOf(s, '\n');
    if i == |s| then [s] else [s[..i]] + SplitLines(s[i + 1..])
  }

  function PrintLines(ls: seq<string>): string {
    if ls == [] then "" else PrintField("data", ls[0]) + PrintLines(ls[1..])
  }

  function PrintInt(n: int): string {
    if n < 0 then "-" + ToDecimal(-n) else ToDecimal(n)
  }

  function PrintId(e: SseEvent): string {
    if e.id == "" then "" else PrintField("id", e.id)
  }

  function PrintEventName(e: SseEvent): string {
    if e.event == "" then "" else PrintField("event", e.event)
  }

  function PrintData(e: SseEvent): string {
    if e.data == "" then "" else PrintLines(SplitLines(e.data))
  }

  function PrintRetry(e: SseEvent): string {
    if e.retry == -1 then "" else PrintField("retry", PrintInt(e.retry))
  }

  function Print(e: SseEvent): string {
    PrintId(e) + (PrintEventName(e) + (PrintData(e) + (PrintRetry(e) + "\n")))
  }

  function PrintAll(es: seq<SseEvent>): string {
    if es == [] then "" else Print(es[0]) + PrintAll(es[1..])
  }

  predicate OneLine(s: string) {
    '\n' !in s && '\r' !in s
  }

  /** What a printed event can carry through this dialect: carriage returns would be
      stripped, a leading empty data line vanishes, and an event without any field
      is never emitted. */
  predicate Printable(e: SseEvent) {
    && OneLine(e.id) && OneLine(e.event)
    && '\r' !in e.data && (e.data != "" ==> e.data[0] != '\n')
    && -0x8000_0000 <= e.retry < 0x8000_0000
    && e != EMPTY_EVENT
  }

  lemma ReadField(p: Parser, name: string, value: string)
    requires p.buffer == "" && OneLine(value)
    requires name == "data" || name == "id" || name == "event"
    ensures Read(p, PrintField(name, value)) == Output(SetField(p, name, value), [])
  {
    hide Line, Read, SetField;
    var padded := " " + value;
    var line := name + ":" + padded;
    FieldLine(p, name, padded);
    assert padded[1..] == value;
    assert OneLine(name) && OneLine(line);
    assert line[|line| - 1] in line;
    ReadLine(p, line);
    assert PrintField(name, value) == line + "\n";
  }

  lemma FromCharsOfPrinted(n: int)
    requires -0x8000_0000 <= n < 0x8000_0000
    ensures FromChars(PrintInt(n)) == Some(n)
    ensures OneLine(PrintInt(n))
  {
    hide ToDecimal, FromDecimal;
    var digits := ToDecimal(if n < 0 then -n else n);
    DecimalRoundTrip(if n < 0 then -n else n);
    if n < 0 {
      assert PrintInt(n)[1..] == digits;
    } else {
      assert IsDigit(digits[0]);
    }
    forall c | c in PrintInt(n)
      ensures c == '-' || IsDigit(c)
    {
      if c in digits {
        var i :| 0 <= i < |digits| && digits[i] == c;
      }
    }
  }

  lemma ReadRetry(p: Parser, n: int)
    requires p.buffer == "" && -0x8000_0000 <= n < 0x8000_0000
    ensures Read(p, PrintField("retry", PrintInt(n)))
         == Output(p.(pending := p.pending.(retry := n), hasField := true), [])
  {
    FromCharsOfPrinted(n);
    RetryLine(p, PrintInt(n));
  }

  lemma RetryParsed(p: Parser, value: string)
    requires FromChars(value).Some?
    ensures Line(p, "retry: " + value)
         == Output(p.(pending := p.pending.(retry := FromChars(value).value), hasField := true), [])
  {
    hide FromChars;
    var line := "retry" + ":" + (" " + value);
    assert line == "retry: " + value && line[0] == 'r';
    FieldOfLine("retry", " " + value);
    hide FieldName, FieldValue;
    assert (" " + value)[1..] == value;
  }

  lemma RetryLine(p: Parser, value: string)
    requires p.buffer == "" && OneLine(value) && FromChars(value).Some?
    ensures Read(p, PrintField("retry", value))
         == Output(p.(pending := p.pending.(retry := FromChars(value).value), hasField := true), [])
  {
    hide Read, FromChars, Line;
    var line := "retry: " + value;
    assert '\n' !in line && '\r' !in line;
    assert line[|line| - 1] in line;
    ReadLine(p, line);
    RetryParsed(p, value);
    assert PrintField("retry", value) == line + "\n";
  }

  function WithData(p: Parser, data: string): Parser {
    p.(pending := p.pending.(data := data), hasField := true)
  }

  /** Lines joined by newlines. */
  function JoinLines(ls: seq<string>): string
    requires ls != []
  {
    if |ls| == 1 then ls[0] else ls[0] + "\n" + JoinLines(ls[1..])
  }

  lemma {:induction false} JoinOfSplit(s: string)
    ensures JoinLines(SplitLines(s)) == s
    ensures '\r' !in s ==> forall l :: l in SplitLines(s) ==> OneLine(l)
    decreases |s|
  {
    var i := IndexOf(s, '\n');
    IndexOfFinds(s, '\n');
    hide IndexOf;
    if i >= |s| {
    } else {
      var rest := SplitLines(s[i + 1..]);
      JoinOfSplit(s[i + 1..]);
      assert s == s[..i] + "\n" + s[i + 1..];
      assert SplitLines(s) == [s[..i]] + rest;
      hide SplitLines;
      JoinCons(s[..i], rest);
    }
  }

  lemma JoinCons(first: string, rest: seq<string>)
    requires rest != []
    ensures JoinLines([first] + rest) == first + "\n" + JoinLines(rest)
  {
    assert ([first] + rest)[1..] == rest;
  }

  lemma {:induction false} IndexOfFinds(s: string, c: char)
    ensures c !in s[..IndexOf(s, c)]
    ensures IndexOf(s, c) < |s| ==> s[IndexOf(s, c)] == c
  {
    if s == "" || s[0] == c {
    } else {
      IndexOfFinds(s[1..], c);
      assert s[..IndexOf(s, c)] == [s[0]] + s[1..][..IndexOf(s[1..], c)];
    }
  }

  /** Data lines pile up, once the first of them was not empty. */
  lemma {:induction false} ReadLines(p: Parser, ls: seq<string>)
    requires p.buffer == "" && ls != [] && forall l :: l in ls ==> OneLine(l)
    requires p.pending.data != "" || ls[0] != ""
    ensures Read(p, PrintLines(ls))
         == Output(WithData(p, if p.pending.data == "" then JoinLines(ls) else p.pending.data + "\n" + JoinLines(ls)), [])
    decreases |ls|
  {
    hide Read;
    var next := SetField(p, "data", ls[0]);
    ReadField(p, "data", ls[0]);
    if |ls| == 1 {
      assert PrintLines(ls[1..]) == "";
      assert PrintLines(ls) == PrintField("data", ls[0]);
    } else {
      ReadLines(next, ls[1..]);
      ReadConcat(p, PrintField("data", ls[0]), PrintLines(ls[1..]));
      var d, j := p.pending.data, JoinLines(ls[1..]);
      assert d + "\n" + ls[0] + "\n" + j == d + "\n" + (ls[0] + "\n" + j);
    }
  }

  lemma ReadThen(p: Parser, a: string, q: Parser, b: string)
    requires Read(p, a) == Output(q, [])
    ensures Read(p, a + b) == Read(q, b)
  {
    ReadConcat(p, a, b);
    assert [] + Read(q, b).events == Read(q, b).events;
  }

  lemma FirstLine(data: string)
    requires data != "" && data[0] != '\n'
    ensures SplitLines(data)[0] != ""
  {}

  /** A parser that has read some fields of an event. */
  function Holding(e: SseEvent): Parser {
    Parser("", e, e != EMPTY_EVENT)
  }

  lemma ReadId(e: SseEvent)
    requires OneLine(e.id)
    ensures Read(START, PrintId(e)) == Output(Holding(EMPTY_EVENT.(id := e.id)), [])
  {
    if e.id != "" {
      ReadField(START, "id", e.id);
    }
  }

  lemma ReadEventName(e: SseEvent, e0: SseEvent)
    requires OneLine(e.event) && e0.event == ""
    ensures Read(Holding(e0), PrintEventName(e)) == Output(Holding(e0.(event := e.event)), [])
  {
    if e.event != "" {
      ReadField(Holding(e0), "event", e.event);
    }
  }

  lemma ReadData(e: SseEvent, e0: SseEvent)
    requires '\r' !in e.data && (e.data != "" ==> e.data[0] != '\n') && e0.data == ""
    ensures Read(Holding(e0), PrintData(e)) == Output(Holding(e0.(data := e.data)), [])
  {
    if e.data != "" {
      JoinOfSplit(e.data);
      FirstLine(e.data);
      ReadLines(Holding(e0), SplitLines(e.data));
    }
  }

  lemma ReadRetryField(e: SseEvent, e0: SseEvent)
    requires -0x8000_0000 <= e.retry < 0x8000_0000 && e0.retry == -1
    ensures Read(Holding(e0), PrintRetry(e)) == Output(Holding(e0.(retry := e.retry)), [])
  {
    if e.retry != -1 {
      ReadRetry(Holding(e0), e.retry);
    }
  }

  lemma ReadEvent(e: SseEvent)
    requires Printable(e)
    ensures Read(START, Print(e)) == Output(START, [e])
  {
    hide Read, PrintId, PrintEventName, PrintData, PrintRetry;
    var e1 := EMPTY_EVENT.(id := e.id);
    var e2 := e1.(event := e.event);
    var e3 := e2.(data := e.data);
    ReadId(e);
    ReadEventName(e, e1);
    ReadData(e, e2);
    ReadRetryField(e, e3);
    ReadThen(START, PrintId(e), Holding(e1), PrintEventName(e) + (PrintData(e) + (PrintRetry(e) + "\n")));
    ReadThen(Holding(e1), PrintEventName(e), Holding(e2), PrintData(e) + (PrintRetry(e) + "\n"));
    ReadThen(Holding(e2), PrintData(e), Holding(e3), PrintRetry(e) + "\n");
    ReadThen(Holding(e3), PrintRetry(e), Holding(e), "\n");
    BlankLineFlushes(Holding(e));
  }

  lemma {:induction false} ReadAll(es: seq<SseEvent>)
    requires forall e :: e in es ==> Printable(e)
    ensures Read(START, PrintAll(es)) == Output(START, es)
    decreases |es|
  {
    if es == [] {
    } else {
      ReadEvent(es[0]);
      ReadAll(es[1..]);
      ReadConcat(START, Print(es[0]), PrintAll(es[1..]));
      hide Read, Print;
    }
  }

  /** A printed list of events comes back under every split into chunks. */
  lemma PrintedEventsComeBack(es: seq<SseEvent>, chunks: seq<string>, cap: nat)
    requires forall e :: e in es ==> Printable(e)
    requires Joined(chunks) == PrintAll(es) && RunsFit(0, PrintAll(es), cap)
    ensures FeedAll(START, chunks, cap) == Output(START, es)
  {
    ChunkingDoesNotMatter(START, chunks, cap);
    ReadAll(es);
  }

  // ---------- the parser object ----------

  class SseParser {
    const maxLineBytes: nat
    var buffer: string
    var pendingEvent: SseEvent
    var hasPendingField: bool

    function View(): Parser
      reads this
    {
      Parser(buffer, pendingEvent, hasPendingField)
    }

    /** Between calls the buffer holds no newline and at most the cap. */
    predicate Valid()
      reads this
    {
      '\n' !in buffer && |buffer| <= maxLineBytes
    }

    constructor (maxLineBytes: nat)
      ensures Valid() && View() == START && this.maxLineBytes == maxLineBytes
    {
      this.maxLineBytes := maxLineBytes;
      buffer, pendingEvent, hasPendingField := "", EMPTY_EVENT, false;
    }

    method FeedChunk(chunk: string) returns (events: seq<SseEvent>)
      requires Valid()
      modifies this`buffer, this`pendingEvent, this`hasPendingField
      ensures Valid()
      ensures Output(View(), events) == Feed(old(View()), chunk, maxLineBytes)
    {
      hide Read, Line, Flush;
      ghost var total := Read(View(), chunk);
      BufferAsInput(View(), chunk);
      buffer := buffer + chunk;
      events := [];
      while true
        invariant Unread(View(), events, total)
        decreases |buffer|
      {
        IndexOfFinds(buffer, '\n');
        var newline := IndexOf(buffer, '\n');
        if newline == |buffer| {
          break;
        }
        var line := buffer[..newline];
        LineThenRest(View(), events, total, newline);
        buffer := buffer[newline + 1..];
        if line != "" && line[|line| - 1] == '\r' {
          line := line[..|line| - 1];
        }
        var fromLine := ConsumeLine(line);
        events := events + fromLine;
      }
      NothingUnread(View(), events, total);
      if |buffer| > maxLineBytes {
        buffer := "";
      }
    }

    method ConsumeLine(line: string) returns (events: seq<SseEvent>)
      modifies this`pendingEvent, this`hasPendingField
      ensures Output(View().(buffer := ""), events) == Line(old(View()).(buffer := ""), line)
    {
      if line == "" {
        events := FlushEvent();
        return;
      }
      if line[0] == ':' {
        return [];
      }
      var colon := IndexOf(line, ':');
      var field, value := line[..colon], "";
      if colon != |line| {
        value := line[colon + 1..];
        if value != "" && value[0] == ' ' {
          value := value[1..];
        }
      }
      assert field == FieldName(line) && value == FieldValue(line);
      if field == "data" {
        if pendingEvent.data != "" {
          pendingEvent := pendingEvent.(data := pendingEvent.data + "\n");
        }
        pendingEvent := pendingEvent.(data := pendingEvent.data + value);
        hasPendingField := true;
        return [];
      }
      if field == "id" {
        pendingEvent := pendingEvent.(id := value);
        hasPendingField := true;
        return [];
      }
      if field == "event" {
        pendingEvent := pendingEvent.(event := value);
        hasPendingField := true;
        return [];
      }
      if field == "retry" {
        var retry := FromChars(value);
        if retry.Some? {
          pendingEvent := pendingEvent.(retry := retry.value);
          hasPendingField := true;
        }
      }
      events := [];
    }

    method FlushEvent() returns (events: seq<SseEvent>)
      modifies this`pendingEvent, this`hasPendingField
      ensures Output(View().(buffer := ""), events) == Flush(old(View()).(buffer := ""))
    {
      if !hasPendingField {
        return [];
      }
      events := [pendingEvent];
      pendingEvent := EMPTY_EVENT;
      hasPendingField := false;
    }
  }

  /** With these events so far, reading on from the parser's own buffer gives the total. */
  predicate Unread(p: Parser, events: seq<SseEvent>, total: Output) {
    var rest := Read(p.(buffer := ""), p.buffer);
    total == Output(rest.parser, events + rest.events)
  }

  /** Bytes already in the buffer read like bytes of the chunk. */
  lemma BufferAsInput(p: Parser, chunk: string)
    requires '\n' !in p.buffer
    ensures Unread(p.(buffer := p.buffer + chunk), [], Read(p, chunk))
  {
    ReadPlain(p.(buffer := ""), p.buffer);
    assert "" + p.buffer == p.buffer;
    ReadThen(p.(buffer := ""), p.buffer, p, chunk);
  }

  lemma NothingUnread(p: Parser, events: seq<SseEvent>, total: Output)
    requires Unread(p, events, total) && '\n' !in p.buffer
    ensures total == Output(p, events)
  {
    hide Read;
    ReadPlain(p.(buffer := ""), p.buffer);
    assert "" + p.buffer == p.buffer && events + [] == events;
  }

  lemma LineKeepsBuffer(p: Parser, line: string)
    ensures Line(p, line).parser.buffer == p.buffer
  {}

  /** Taking one line off the buffer. */
  lemma LineThenRest(p: Parser, events: seq<SseEvent>, total: Output, newline: nat)
    requires Unread(p, events, total)
    requires newline < |p.buffer| && p.buffer[newline] == '\n' && '\n' !in p.buffer[..newline]
    ensures var out := Line(p.(buffer := ""), WithoutCarriageReturn(p.buffer[..newline]));
            Unread(out.parser.(buffer := p.buffer[newline + 1..]), events + out.events, total)
  {
    hide Read, Line, WithoutCarriageReturn;
    var line, rest := p.buffer[..newline], p.buffer[newline + 1..];
    var p0 := p.(buffer := "");
    assert p.buffer == line + "\n" + rest;
    ReadLine(p0, line);
    ReadConcat(p0, line + "\n", rest);
    LineKeepsBuffer(p0, WithoutCarriageReturn(line));
    var out := Line(p0, WithoutCarriageReturn(line));
    assert out.parser.(buffer := rest).(buffer := "") == out.parser;
    var after := Read(out.parser, rest);
    assert events + (out.events + after.events) == events + out.events + after.events;
  }
}
