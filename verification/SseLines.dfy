/** Line ends, comments, and fields the parser does not know. */
module SseLines {
  import opened Numerals
  import opened Sse

  /** `b` is `a` with any of its line ends written as carriage return and newline, and any
      comments between its lines. `atStart` says that a line begins here. */
  predicate Dressed(a: string, b: string, atStart: bool)
    decreases |b|
  {
    || (a == "" && b == "")
    || (atStart && b != "" && b[0] == ':' && IndexOf(b, '\n') < |b| && Dressed(a, b[IndexOf(b, '\n') + 1..], true))
    || (a != "" && b != "" && a[0] == b[0] && Dressed(a[1..], b[1..], a[0] == '\n'))
    || (a != "" && a[0] == '\n' && |b| >= 2 && b[..2] == "\r\n" && Dressed(a[1..], b[2..], true))
  }

  lemma CommentLine(p: Parser, line: string)
    requires p.buffer == "" && '\n' !in line && line != "" && line[0] == ':'
    ensures Read(p, line + "\n") == Output(p, [])
  {
    hide Read;
    ReadLine(p, line);
    assert WithoutCarriageReturn(line)[0] == ':';
  }

  lemma CommentIsSkipped(p: Parser, b: string)
    requires p.buffer == "" && b != "" && b[0] == ':' && IndexOf(b, '\n') < |b|
    ensures Read(p, b) == Read(p, b[IndexOf(b, '\n') + 1..])
  {
    IndexOfFinds(b, '\n');
    var i := IndexOf(b, '\n');
    hide Read, IndexOf;
    CommentLine(p, b[..i]);
    ReadThen(p, b[..i] + "\n", p, b[i + 1..]);
    assert b == b[..i] + "\n" + b[i + 1..];
  }

  /** A carriage return in front of a newline makes no difference to a line without others. */
  lemma BothEnds(p: Parser, rest: string)
    requires '\r' !in p.buffer
    ensures Read(p, "\r\n" + rest) == Read(p, "\n" + rest)
  {
    hide Line;
    var q := p.(buffer := p.buffer + ['\r']);
    var text := "\r\n" + rest;
    assert text[0] == '\r' && text[1..] == "\n" + rest;
    assert OnByte(p, '\r') == Output(q, []);
    assert WithoutCarriageReturn(q.buffer) == p.buffer == WithoutCarriageReturn(p.buffer);
    assert q.(buffer := "") == p.(buffer := "");
    assert OnByte(q, '\n') == OnByte(p, '\n');
    SameFirst(q, p, "\n" + rest);
    var out := Read(q, "\n" + rest);
    assert [] + out.events == out.events;
  }

  lemma SameFirst(p: Parser, q: Parser, text: string)
    requires text != "" && OnByte(p, text[0]) == OnByte(q, text[0])
    ensures Read(p, text) == Read(q, text)
  {
    hide OnByte;
  }

  lemma ByteStep(p: Parser, a: string, b: string)
    requires a != "" && b != "" && a[0] == b[0]
    requires Read(OnByte(p, a[0]).parser, a[1..]) == Read(OnByte(p, a[0]).parser, b[1..])
    ensures Read(p, a) == Read(p, b)
  {
    hide OnByte;
  }

  lemma BufferAfter(p: Parser, c: char)
    ensures OnByte(p, c).parser.buffer == if c == '\n' then "" else p.buffer + [c]
  {
    if c == '\n' {
      LineKeepsBuffer(p.(buffer := ""), WithoutCarriageReturn(p.buffer));
      hide Line;
    }
  }

  /** How lines are ended, and comments between them, make no difference: for any text
      without carriage returns, whatever the parser holds, the same events come out and
      the parser is left in the same state. */
  lemma {:induction false} LineEndsAndCommentsDoNotMatter(p: Parser, a: string, b: string, atStart: bool)
    requires Dressed(a, b, atStart) && (atStart ==> p.buffer == "")
    requires '\r' !in p.buffer && '\r' !in a
    ensures Read(p, b) == Read(p, a)
    decreases |b|
  {
    hide Read, OnByte, IndexOf;
    if atStart && b != "" && b[0] == ':' && IndexOf(b, '\n') < |b| && Dressed(a, b[IndexOf(b, '\n') + 1..], true) {
      CommentIsSkipped(p, b);
      LineEndsAndCommentsDoNotMatter(p, a, b[IndexOf(b, '\n') + 1..], true);
    } else if a != "" && b != "" && a[0] == b[0] && Dressed(a[1..], b[1..], a[0] == '\n') {
      BufferAfter(p, a[0]);
      assert forall c :: c in a[1..] ==> c in a;
      LineEndsAndCommentsDoNotMatter(OnByte(p, a[0]).parser, a[1..], b[1..], a[0] == '\n');
      ByteStep(p, a, b);
    } else if a != "" && b != "" {
      BufferAfter(p, '\n');
      assert forall c :: c in a[1..] ==> c in a;
      assert b == "\r\n" + b[2..];
      BothEnds(p, b[2..]);
      LineEndsAndCommentsDoNotMatter(OnByte(p, '\n').parser, a[1..], b[2..], true);
      ByteStep(p, a, "\n" + b[2..]);
    }
  }

  // ---------- printed events ----------

  predicate NoReturns(s: string) {
    '\r' !in s
  }

  lemma NoReturnsConcat(a: string, b: string)
    ensures NoReturns(a + b) <==> NoReturns(a) && NoReturns(b)
  {
    assert forall c :: c in a || c in b ==> c in a + b;
  }

  lemma FieldHasNoReturns(name: string, value: string)
    requires NoReturns(name) && NoReturns(value)
    ensures NoReturns(PrintField(name, value))
  {
    NoReturnsConcat(name, ": ");
    NoReturnsConcat(name + ": ", value);
    NoReturnsConcat(name + ": " + value, "\n");
  }

  lemma {:induction false} LinesHaveNoReturns(ls: seq<string>)
    requires forall l :: l in ls ==> NoReturns(l)
    ensures NoReturns(PrintLines(ls))
    decreases |ls|
  {
    if ls == [] {
    } else {
      LinesHaveNoReturns(ls[1..]);
      FieldHasNoReturns("data", ls[0]);
      NoReturnsConcat(PrintField("data", ls[0]), PrintLines(ls[1..]));
    }
  }

  lemma PartsHaveNoReturns(e: SseEvent)
    requires Printable(e)
    ensures NoReturns(PrintId(e)) && NoReturns(PrintEventName(e)) && NoReturns(PrintData(e)) && NoReturns(PrintRetry(e))
  {
    JoinOfSplit(e.data);
    FromCharsOfPrinted(e.retry);
    FieldHasNoReturns("id", e.id);
    FieldHasNoReturns("event", e.event);
    FieldHasNoReturns("retry", PrintInt(e.retry));
    LinesHaveNoReturns(SplitLines(e.data));
    hide PrintField, PrintLines, SplitLines, PrintInt;
  }

  lemma EventHasNoReturns(e: SseEvent)
    requires Printable(e)
    ensures NoReturns(Print(e))
  {
    PartsHaveNoReturns(e);
    hide PrintId, PrintEventName, PrintData, PrintRetry;
    NoReturnsConcat(PrintRetry(e), "\n");
    NoReturnsConcat(PrintData(e), PrintRetry(e) + "\n");
    NoReturnsConcat(PrintEventName(e), PrintData(e) + (PrintRetry(e) + "\n"));
    NoReturnsConcat(PrintId(e), PrintEventName(e) + (PrintData(e) + (PrintRetry(e) + "\n")));
  }

  lemma {:induction false} EventsHaveNoReturns(es: seq<SseEvent>)
    requires forall e :: e in es ==> Printable(e)
    ensures NoReturns(PrintAll(es))
    decreases |es|
  {
    if es == [] {
    } else {
      EventHasNoReturns(es[0]);
      EventsHaveNoReturns(es[1..]);
      NoReturnsConcat(Print(es[0]), PrintAll(es[1..]));
    }
  }

  /** Printed events come back under every split, each line ended as one likes and any
      comments between the lines. */
  lemma DressedEventsComeBack(es: seq<SseEvent>, text: string, chunks: seq<string>, cap: nat)
    requires (forall e :: e in es ==> Printable(e)) && Dressed(PrintAll(es), text, true)
    requires Joined(chunks) == text && RunsFit(0, text, cap)
    ensures FeedAll(START, chunks, cap) == Output(START, es)
  {
    hide Dressed, Read, PrintAll, Joined;
    ChunkingDoesNotMatter(START, chunks, cap);
    EventsHaveNoReturns(es);
    LineEndsAndCommentsDoNotMatter(START, PrintAll(es), text, true);
    ReadAll(es);
  }

  // ---------- other lines ----------

  predicate KnownField(name: string) {
    name == "data" || name == "id" || name == "event" || name == "retry"
  }

  /** A line whose field the parser does not know, or whose retry value is no integer,
      changes nothing, whatever stands around it. */
  lemma UnknownFieldsAreIgnored(p: Parser, name: string, value: string, rest: string)
    requires p.buffer == "" && ':' !in name && OneLine(name) && OneLine(value) && name + ":" + value != ":"
    requires !KnownField(name) || (name == "retry" && FromChars(if value != "" && value[0] == ' ' then value[1..] else value).None?)
    ensures Read(p, name + ":" + value + "\n" + rest) == Read(p, rest)
  {
    hide Read, FromChars;
    var line := name + ":" + value;
    FieldOfLine(name, value);
    ReadLine(p, line);
    assert WithoutCarriageReturn(line) == line by {
      assert line[|line| - 1] in line;
      assert forall c :: c in line ==> c in name || c == ':' || c in value;
    }
    hide FieldName, FieldValue, WithoutCarriageReturn;
    ReadThen(p, line + "\n", p, rest);
  }

  /** A field without a colon is the field with an empty value. */
  lemma NoColonMeansEmpty(p: Parser, name: string, rest: string)
    requires p.buffer == "" && ':' !in name && OneLine(name) && name != ""
    ensures Read(p, name + "\n" + rest) == Read(p, name + ":\n" + rest)
  {
    hide Read, FromChars, Line;
    EmptyValue(p, name);
    ReadLine(p, name);
    ReadLine(p, name + ":");
    assert WithoutCarriageReturn(name) == name by {
      assert name[|name| - 1] in name;
    }
    assert WithoutCarriageReturn(name + ":") == name + ":";
    ReadConcat(p, name + "\n", rest);
    ReadConcat(p, name + ":" + "\n", rest);
    assert name + ":" + "\n" == name + ":\n";
  }

  lemma {:induction false} NoColon(name: string)
    requires ':' !in name
    ensures IndexOf(name, ':') == |name|
  {
    if name == "" {
    } else {
      NoColon(name[1..]);
    }
  }

  lemma EmptyValue(p: Parser, name: string)
    requires ':' !in name && name != ""
    ensures Line(p, name) == Line(p, name + ":")
  {
    NoColon(name);
    FieldOfLine(name, "");
    assert name + ":" + "" == name + ":";
    assert name[0] != ':' && (name + ":")[0] == name[0];
    assert FieldName(name) == name && FieldValue(name) == "";
    hide FieldName, FieldValue, FromChars;
  }

  // ---------- integers ----------

  /** `value` writes `n` in decimal: a sign if it is negative, any zeros, and its digits. */
  ghost predicate Writes(value: string, n: int) {
    exists k: nat ::
      || (n >= 0 && value == Repeat('0', k) + ToDecimal(n))
      || (n <= 0 && value == "-" + (Repeat('0', k) + ToDecimal(-n)))
  }

  lemma {:induction false} ZerosEnd(k: nat)
    ensures Repeat('0', k) + "0" == Repeat('0', k + 1)
  {
    if k == 0 {
      assert "" + "0" == "0";
      assert Repeat('0', 1) == "0" + "";
    } else {
      ZerosEnd(k - 1);
      assert ("0" + Repeat('0', k - 1)) + "0" == "0" + (Repeat('0', k - 1) + "0");
    }
  }

  lemma {:induction false} ZerosAreZero(k: nat)
    ensures AllDigits(Repeat('0', k)) && FromDecimal(Repeat('0', k)) == 0
  {
    if k == 0 {
    } else {
      ZerosAreZero(k - 1);
      ZerosEnd(k - 1);
      assert Repeat('0', k)[..k - 1] == Repeat('0', k - 1) by {
        RepeatPlain('0', k - 1);
        RepeatPlain('0', k);
      }
      RepeatPlain('0', k);
    }
  }

  lemma {:induction false} LeadingZeros(k: nat, digits: string)
    requires AllDigits(digits)
    ensures AllDigits(Repeat('0', k) + digits) && FromDecimal(Repeat('0', k) + digits) == FromDecimal(digits)
    decreases |digits|
  {
    ZerosAreZero(k);
    var zeros := Repeat('0', k);
    hide Repeat;
    if digits == "" {
      assert zeros + digits == zeros;
    } else {
      var n := |digits| - 1;
      LeadingZeros(k, digits[..n]);
      assert (zeros + digits)[..|zeros| + n] == zeros + digits[..n];
    }
  }

  lemma OneDigit(digits: string)
    requires |digits| == 1 && AllDigits(digits)
    ensures FromDecimal(digits) == DigitValue(digits[0]) && digits == ToDecimal(DigitValue(digits[0]))
  {
    assert digits == [digits[0]] && digits[..0] == "";
    assert FromDecimal("") == 0;
  }

  lemma OneMoreDigit(front: string, c: char)
    requires AllDigits(front) && IsDigit(c)
    ensures AllDigits(front + [c]) && FromDecimal(front + [c]) == 10 * FromDecimal(front) + DigitValue(c)
    ensures FromDecimal(front) > 0 ==> ToDecimal(FromDecimal(front + [c])) == ToDecimal(FromDecimal(front)) + [c]
    ensures FromDecimal(front) == 0 ==> ToDecimal(FromDecimal(front + [c])) == [c]
  {
    assert (front + [c])[..|front|] == front;
    var v, d := FromDecimal(front), DigitValue(c);
    assert (10 * v + d) / 10 == v && (10 * v + d) % 10 == d;
    assert DigitChar(d) == c;
  }

  /** Digits are the numeral of their value behind some zeros. */
  lemma {:induction false} DigitsAreANumeral(digits: string) returns (k: nat)
    requires digits != "" && AllDigits(digits)
    ensures digits == Repeat('0', k) + ToDecimal(FromDecimal(digits))
    decreases |digits|
  {
    hide ToDecimal, FromDecimal, Repeat, DigitValue;
    var n := |digits| - 1;
    var front, c := digits[..n], digits[n];
    if n == 0 {
      OneDigit(digits);
      k := 0;
      assert Repeat('0', 0) == "" by {
        RepeatPlain('0', 0);
      }
    } else {
      assert digits == front + [c];
      k := DigitsAreANumeral(front);
      OneMoreDigit(front, c);
      if FromDecimal(front) > 0 {
        assert Repeat('0', k) + ToDecimal(FromDecimal(front)) + [c] == Repeat('0', k) + (ToDecimal(FromDecimal(front)) + [c]);
      } else {
        ZerosEnd(k);
        ZeroIs0();
        k := k + 1;
      }
    }
  }

  lemma ZeroIs0()
    ensures ToDecimal(0) == "0"
  {}

  lemma ReadsWhatIsWritten(k: nat, n: nat)
    ensures var digits := Repeat('0', k) + ToDecimal(n);
            digits != "" && AllDigits(digits) && FromDecimal(digits) == n && digits[0] != '-'
  {
    DecimalRoundTrip(n);
    LeadingZeros(k, ToDecimal(n));
    assert IsDigit((Repeat('0', k) + ToDecimal(n))[0]);
  }

  /** A retry value is read as the integer it writes, exactly if it writes one that fits
      in 32 bits. */
  lemma IntegersAreReadExactly(value: string, n: int)
    ensures FromChars(value) == Some(n) <==> -0x8000_0000 <= n < 0x8000_0000 && Writes(value, n)
  {
    hide ToDecimal, FromDecimal, Repeat;
    if FromChars(value) == Some(n) {
      if value[0] == '-' {
        var k := DigitsAreANumeral(value[1..]);
        assert value == "-" + value[1..];
      } else {
        var k := DigitsAreANumeral(value);
      }
    }
    if -0x8000_0000 <= n < 0x8000_0000 && Writes(value, n) {
      var k: nat :|
        || (n >= 0 && value == Repeat('0', k) + ToDecimal(n))
        || (n <= 0 && value == "-" + (Repeat('0', k) + ToDecimal(-n)));
      if n >= 0 && value == Repeat('0', k) + ToDecimal(n) {
        ReadsWhatIsWritten(k, n);
      } else {
        ReadsWhatIsWritten(k, -n);
        assert value[1..] == Repeat('0', k) + ToDecimal(-n);
      }
    }
  }
}
