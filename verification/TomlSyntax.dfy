/** The recognisers of the TOML line editor, and basic strings as the "String" section
    of TOML v1.0.0 defines them. */
module TomlSyntax {
  import opened Ascii
  import opened Numerals
  import opened Strings
  import opened TomlLines
  import PartialJson

  function TrimLeft(s: string): (r: string)
    ensures |r| <= |s| && (r != "" ==> !IsSpace(r[0]))
    ensures s != "" && !IsSpace(s[0]) ==> r == s
  {
    if s != "" && IsSpace(s[0]) then TrimLeft(s[1..]) else s
  }

  function TrimRight(s: string): (r: string)
    ensures r <= s && (s != "" && !IsSpace(s[0]) ==> r != "")
  {
    if s != "" && IsSpace(s[|s| - 1]) then TrimRight(s[..|s| - 1]) else s
  }

  function Trim(s: string): string {
    TrimRight(TrimLeft(s))
  }

  /** The first `part` in `s`, if there is one. */
  function Find(s: string, part: string): (r: Option<nat>)
    ensures r.Some? ==> r.value + |part| <= |s| && s[r.value..r.value + |part|] == part
  {
    if part <= s then Some(0)
    else if s == "" then None
    else
      var r := Find(s[1..], part);
      if r.None? then None else Some(r.value + 1)
  }

  predicate BlankOrComment(s: string) {
    var rest := Trim(s);
    rest == "" || rest[0] == '#'
  }

  /** The name in `[name]`. */
  function TableHeader(line: string): Option<string> {
    var l := Trim(line);
    if l == "" || l[0] != '[' || "[[" <= l then None
    else
      var close := Find(l, "]");
      if close.None? || close.value == 0 || !BlankOrComment(l[close.value + 1..]) then None
      else Some(Trim(l[1..close.value]))
  }

  /** The name in `[[name]]`. */
  function ArrayHeader(line: string): Option<string> {
    var l := Trim(line);
    if !("[[" <= l) then None
    else
      var close := Find(l, "]]");
      if close.None? || close.value < 2 || !BlankOrComment(l[close.value + 2..]) then None
      else Some(Trim(l[2..close.value]))
  }

  predicate IsAnyHeader(line: string) {
    TableHeader(line).Some? || ArrayHeader(line).Some?
  }

  predicate IsAssignment(line: string, key: string) {
    var l := TrimLeft(line);
    && l != "" && l[0] != '#' && key <= l
    && var rest := TrimLeft(l[|key|..]);
    rest != "" && rest[0] == '='
  }

  lemma NothingIsAHeader(line: string)
    requires Trim(line) == "" || Trim(line)[0] != '['
    ensures TableHeader(line) == None && ArrayHeader(line) == None
  {}

  lemma EmptyLine(key: string)
    ensures !IsAnyHeader("") && !IsAssignment("", key)
  {}

  // ---------- basic strings ----------

  function HexDigit(n: nat): char
    requires n < 16
  {
    "0123456789abcdef"[n]
  }

  function QuoteChar(c: char): string {
    if c == '\\' then "\\\\"
    else if c == '"' then "\\\""
    else if c as int == 8 then "\\b"
    else if c == '\t' then "\\t"
    else if c == '\n' then "\\n"
    else if c as int == 12 then "\\f"
    else if c == '\r' then "\\r"
    else if c as int < 0x20 then "\\u00" + [HexDigit(c as int / 16), HexDigit(c as int % 16)]
    else [c]
  }

  function QuoteChars(v: string): string {
    if v == "" then "" else QuoteChar(v[0]) + QuoteChars(v[1..])
  }

  function Quote(v: string): string {
    "\"" + QuoteChars(v) + "\""
  }

  function TomlEscape(c: char): Option<char> {
    match c
    case '"' => Some('"')
    case '\\' => Some('\\')
    case 'b' => Some(8 as char)
    case 't' => Some('\t')
    case 'n' => Some('\n')
    case 'f' => Some(12 as char)
    case 'r' => Some('\r')
    case _ => None
  }

  /** Tab, and everything from blank up but DEL. */
  predicate AllowedBare(c: char) {
    c == '\t' || (c as int >= 0x20 && c as int != 0x7F)
  }

  /** The value of the `n` hex digits `r` starts with. */
  function HexRun(r: string, n: nat): Option<nat> {
    if n == 0 then Some(0)
    else if |r| < n || !PartialJson.IsHex(r[n - 1]) then None
    else
      var high := HexRun(r, n - 1);
      if high.None? then None else Some(16 * high.value + PartialJson.HexValue(r[n - 1]))
  }

  /** A basic string, after its opening quote. */
  function ReadBasic(r: string): Option<Read>
    decreases |r|
  {
    if r == "" then None
    else if r[0] == '"' then Some(Read("", r[1..]))
    else if r[0] == '\\' then
      if |r| < 2 then None
      else if r[1] == 'u' || r[1] == 'U' then
        var n := if r[1] == 'u' then 4 else 8;
        var code := HexRun(r[2..], n);
        if code.None? || |r| < 2 + n || !PartialJson.Scalar(code.value) then None
        else Prepend(PartialJson.Utf8(code.value), ReadBasic(r[2 + n..]))
      else if TomlEscape(r[1]).None? then None
      else Prepend([TomlEscape(r[1]).value], ReadBasic(r[2..]))
    else if AllowedBare(r[0]) then Prepend([r[0]], ReadBasic(r[1..]))
    else None
  }

  predicate NoDel(v: string) {
    forall i :: 0 <= i < |v| ==> v[i] as int != 0x7F
  }

  lemma ControlReadsBack(c: char, rest: string)
    requires c as int < 0x20 && QuoteChar(c) == "\\u00" + [HexDigit(c as int / 16), HexDigit(c as int % 16)]
    ensures ReadBasic(QuoteChar(c) + rest) == Prepend([c], ReadBasic(rest))
  {
    var r := QuoteChar(c) + rest;
    var d := r[2..];
    assert d[0] == '0' && d[1] == '0' && d[2] == HexDigit(c as int / 16) && d[3] == HexDigit(c as int % 16);
    assert HexRun(d, 2) == Some(0) by {
      assert HexRun(d, 1) == Some(0);
    }
    assert HexRun(d, 3) == Some(c as int / 16);
    assert HexRun(d, 4) == Some(c as int);
    assert r[6..] == rest;
  }

  lemma CharReadsBack(c: char, rest: string)
    ensures ReadBasic(QuoteChar(c) + rest) == if c as int == 0x7F then None else Prepend([c], ReadBasic(rest))
  {
    var r := QuoteChar(c) + rest;
    if |QuoteChar(c)| == 6 {
      ControlReadsBack(c, rest);
    } else if |QuoteChar(c)| == 2 {
      assert r[2..] == rest;
    } else {
      assert r[1..] == rest;
    }
  }

  /** A quoted value reads back as itself unless it holds a DEL, which the editor leaves
      bare and a basic string may not. */
  lemma {:induction false} QuotedReadsBack(v: string, tail: string)
    ensures ReadBasic(QuoteChars(v) + "\"" + tail) == if NoDel(v) then Some(Read(v, tail)) else None
  {
    if v == "" {
      assert (QuoteChars(v) + "\"" + tail)[1..] == tail;
    } else {
      hide ReadBasic, QuoteChar;
      var rest := QuoteChars(v[1..]) + "\"" + tail;
      assert QuoteChars(v) + "\"" + tail == QuoteChar(v[0]) + rest;
      CharReadsBack(v[0], rest);
      QuotedReadsBack(v[1..], tail);
      assert v == [v[0]] + v[1..];
    }
  }

  // ---------- assignments as the editor writes them ----------

  predicate PlainKey(key: string) {
    key != "" && !IsSpace(key[0]) && key[0] != '[' && key[0] != '#' && NoBreaks(key)
  }

  function Assignment(key: string, v: string): string {
    key + " = " + Quote(v)
  }

  lemma {:induction false} QuoteHasNoBreaks(v: string)
    ensures NoBreaks(QuoteChars(v))
  {
    if v == "" {
    } else {
      QuoteHasNoBreaks(v[1..]);
      assert NoBreaks(QuoteChar(v[0]));
    }
  }

  /** What a written assignment is, and what it is not. */
  lemma AssignmentFacts(key: string, v: string)
    requires PlainKey(key)
    ensures NoBreaks(Assignment(key, v)) && Assignment(key, v) != ""
    ensures IsAssignment(Assignment(key, v), key)
    ensures !IsAnyHeader(Assignment(key, v))
  {
    var line := Assignment(key, v);
    QuoteHasNoBreaks(v);
    assert line[0] == key[0];
    assert line[|key|..] == " = " + Quote(v);
    assert (" = " + Quote(v))[1..] == "= " + Quote(v);
    NothingIsAHeader(line);
  }

  /** The basic string assigned to `key`, if the line assigns one. */
  function AssignedValue(line: string, key: string): Option<string> {
    if !IsAssignment(line, key) then None
    else
      var value := TrimLeft(TrimLeft(TrimLeft(line)[|key|..])[1..]);
      if value == "" || value[0] != '"' then None
      else
        var read := ReadBasic(value[1..]);
        if read.None? || !BlankOrComment(read.value.rest) then None else Some(read.value.value)
  }

  lemma AssignmentParts(key: string, q: string)
    ensures (key + " = " + q)[|key|..] == " " + ("= " + q)
    ensures ("= " + q)[1..] == " " + q
  {}

  lemma BehindTheKey(key: string, q: string)
    requires key != "" && !IsSpace(key[0]) && q != "" && !IsSpace(q[0])
    ensures TrimLeft(key + " = " + q) == key + " = " + q
    ensures TrimLeft((key + " = " + q)[|key|..]) == "= " + q
  {
    hide TrimLeft, IsSpace;
    assert (key + " = " + q)[0] == key[0];
    AssignmentParts(key, q);
    BlankIsNoEquals();
    TrimOneBlank("= " + q);
  }

  lemma BlankIsNoEquals()
    ensures !IsSpace('=')
  {}

  lemma AfterEquals(key: string, q: string)
    requires key != "" && !IsSpace(key[0]) && q != "" && !IsSpace(q[0])
    ensures TrimLeft(TrimLeft(TrimLeft(key + " = " + q)[|key|..])[1..]) == q
  {
    hide TrimLeft, IsSpace;
    BehindTheKey(key, q);
    AssignmentParts(key, q);
    TrimOneBlank(q);
  }

  lemma TrimOneBlank(s: string)
    requires s != "" && !IsSpace(s[0])
    ensures TrimLeft(" " + s) == s
  {
    assert (" " + s)[1..] == s;
  }

  lemma AssignedReadsBack(key: string, v: string)
    requires PlainKey(key)
    ensures AssignedValue(Assignment(key, v), key) == if NoDel(v) then Some(v) else None
  {
    hide ReadBasic, IsAssignment, NoDel, QuoteChars;
    AssignmentFacts(key, v);
    AfterEquals(key, Quote(v));
    assert Quote(v)[1..] == QuoteChars(v) + "\"" + "";
    QuotedReadsBack(v, "");
  }

  // ---------- as it runs ----------

  lemma QuoteStep(v: string, i: nat, output: string)
    requires i < |v|
    ensures output + QuoteChars(v[i..]) == (output + QuoteChar(v[i])) + QuoteChars(v[i + 1..])
  {
    hide QuoteChar;
    assert v[i..][1..] == v[i + 1..];
    assert QuoteChars(v[i..]) == QuoteChar(v[i]) + QuoteChars(v[i + 1..]);
    hide QuoteChars;
    Assoc(output, QuoteChar(v[i]), QuoteChars(v[i + 1..]));
  }

  method QuoteTomlString(value: string) returns (output: string)
    ensures output == Quote(value)
    ensures ReadBasic(output[1..]) == if NoDel(value) then Some(Read(value, "")) else None
  {
    output := "\"";
    var i := 0;
    assert value[0..] == value;
    while i < |value|
      invariant i <= |value| && output + QuoteChars(value[i..]) == "\"" + QuoteChars(value)
    {
      hide QuoteChar, QuoteChars;
      QuoteStep(value, i, output);
      output := output + QuoteChar(value[i]);
      i := i + 1;
    }
    assert output == "\"" + QuoteChars(value);
    output := output + "\"";
    QuotedReadsBack(value, "");
    assert output[1..] == QuoteChars(value) + "\"" + "";
  }
}
