/** The parser for JSON objects whose values are all strings. Its strings know no `\u`. */
module StringMapJson {
  import opened Ascii
  import opened Numerals
  import opened Strings

  // ---------- the grammar ----------

  /** One character of a string as written. */
  datatype Unit = Raw(c: char) | Escaped(c: char)

  predicate GoodUnit(u: Unit) {
    match u
    case Raw(c) => c != '"' && c != '\\'
    case Escaped(c) => JsonEscape(c).Some?
  }

  predicate GoodUnits(us: seq<Unit>) {
    forall i :: 0 <= i < |us| ==> GoodUnit(us[i])
  }

  function PrintUnit(u: Unit): string {
    match u
    case Raw(c) => [c]
    case Escaped(c) => ['\\', c]
  }

  function PrintUnits(us: seq<Unit>): string {
    if us == [] then "" else PrintUnit(us[0]) + PrintUnits(us[1..])
  }

  function PrintString(us: seq<Unit>): string {
    "\"" + PrintUnits(us) + "\""
  }

  function UnitValue(u: Unit): char
    requires GoodUnit(u)
  {
    match u
    case Raw(c) => c
    case Escaped(c) => JsonEscape(c).value
  }

  function Value(us: seq<Unit>): string
    requires GoodUnits(us)
  {
    if us == [] then "" else [UnitValue(us[0])] + Value(us[1..])
  }

  predicate Blank(s: string) {
    forall i :: 0 <= i < |s| ==> IsSpace(s[i])
  }

  /** `before "key" a : b "value" after`. */
  datatype Member = Member(before: string, key: seq<Unit>, a: string, b: string, value: seq<Unit>, after: string)

  predicate GoodMember(m: Member) {
    && Blank(m.before) && Blank(m.a) && Blank(m.b) && Blank(m.after)
    && GoodUnits(m.key) && GoodUnits(m.value)
  }

  predicate GoodMembers(ms: seq<Member>) {
    forall i :: 0 <= i < |ms| ==> GoodMember(ms[i])
  }

  function PrintMember(m: Member): string {
    m.before + (PrintString(m.key) + (m.a + (":" + (m.b + (PrintString(m.value) + m.after)))))
  }

  /** Members separated by commas, up to the closing brace. */
  function PrintMembers(ms: seq<Member>): string {
    if ms == [] then ""
    else if |ms| == 1 then PrintMember(ms[0])
    else PrintMember(ms[0]) + ("," + PrintMembers(ms[1..]))
  }

  /** A whole input; `inner` is the white space of an object without members. */
  datatype Doc = Doc(lead: string, inner: string, members: seq<Member>, trail: string)

  predicate GoodDoc(d: Doc) {
    Blank(d.lead) && Blank(d.inner) && Blank(d.trail) && GoodMembers(d.members)
  }

  function PrintDoc(d: Doc): string {
    d.lead + ("{" + ((if d.members == [] then d.inner else PrintMembers(d.members)) + ("}" + d.trail)))
  }

  /** The map the members stand for, read left to right on top of `m`. */
  function MapFrom(m: map<string, string>, ms: seq<Member>): map<string, string>
    requires GoodMembers(ms)
    decreases |ms|
  {
    if ms == [] then m else MapFrom(m[Value(ms[0].key) := Value(ms[0].value)], ms[1..])
  }

  /** Of members with the same key, the last one counts. */
  lemma {:induction false} LaterMembersWin(m: map<string, string>, ms: seq<Member>, i: nat)
    requires GoodMembers(ms) && i < |ms|
    requires forall j :: i < j < |ms| ==> Value(ms[j].key) != Value(ms[i].key)
    ensures Value(ms[i].key) in MapFrom(m, ms)
    ensures MapFrom(m, ms)[Value(ms[i].key)] == Value(ms[i].value)
    decreases |ms|
  {
    var m' := m[Value(ms[0].key) := Value(ms[0].value)];
    if i > 0 {
      LaterMembersWin(m', ms[1..], i - 1);
    } else {
      OtherKeysStay(m', ms[1..], Value(ms[0].key));
    }
  }

  lemma {:induction false} OtherKeysStay(m: map<string, string>, ms: seq<Member>, k: string)
    requires GoodMembers(ms) && k in m
    requires forall j :: 0 <= j < |ms| ==> Value(ms[j].key) != k
    ensures k in MapFrom(m, ms) && MapFrom(m, ms)[k] == m[k]
    decreases |ms|
  {
    if ms == [] {
    } else {
      OtherKeysStay(m[Value(ms[0].key) := Value(ms[0].value)], ms[1..], k);
    }
  }

  // ---------- the parser, on what is left of the input ----------

  function SkipSpace(r: string): (s: string)
    ensures |s| <= |r| && (s != "" ==> !IsSpace(s[0]))
  {
    if r != "" && IsSpace(r[0]) then SkipSpace(r[1..]) else r
  }

  /** After the opening quote. */
  function ReadBody(r: string): (x: Option<Read>)
    ensures x.Some? ==> |x.value.rest| < |r|
  {
    if r == "" then None
    else if r[0] == '"' then Some(Read("", r[1..]))
    else if r[0] != '\\' then Prepend([r[0]], ReadBody(r[1..]))
    else if |r| < 2 || JsonEscape(r[1]).None? then None
    else Prepend([JsonEscape(r[1]).value], ReadBody(r[2..]))
  }

  function ReadString(r: string): (x: Option<Read>)
    ensures x.Some? ==> |x.value.rest| < |r|
  {
    if r == "" || r[0] != '"' then None else ReadBody(r[1..])
  }

  datatype Issue = NotAnObject | BadKey | NoColon | BadValue | NoSeparator | TrailingText | Unterminated

  datatype Parsed = Ok(entries: map<string, string>) | Bad(issue: Issue)

  function ReadMembers(r: string, m: map<string, string>): Parsed
    decreases |r|
  {
    if r == "" then Bad(Unterminated)
    else
      var key := ReadString(r);
      if key.None? then Bad(BadKey)
      else AfterKey(SkipSpace(key.value.rest), key.value.value, m)
  }

  /** From the colon on. */
  function AfterKey(colon: string, key: string, m: map<string, string>): Parsed
    decreases |colon|
  {
    if colon == "" || colon[0] != ':' then Bad(NoColon)
    else
      var value := ReadString(SkipSpace(colon[1..]));
      if value.None? then Bad(BadValue) else ReadNext(SkipSpace(value.value.rest), m[key := value.value.value])
  }

  function ReadNext(r: string, m: map<string, string>): Parsed
    decreases |r|
  {
    if r != "" && r[0] == ',' then ReadMembers(SkipSpace(r[1..]), m)
    else if r != "" && r[0] == '}' then
      if SkipSpace(r[1..]) == "" then Ok(m) else Bad(TrailingText)
    else Bad(NoSeparator)
  }

  function ReadObject(v: string): Parsed {
    var r := SkipSpace(v);
    if r == "" || r[0] != '{' then Bad(NotAnObject)
    else
      var body := SkipSpace(r[1..]);
      if body != "" && body[0] == '}' then
        if SkipSpace(body[1..]) == "" then Ok(map[]) else Bad(TrailingText)
      else ReadMembers(body, map[])
  }

  // ---------- everything printed is read back ----------

  lemma {:induction false} SkipsBlank(w: string, r: string)
    requires Blank(w) && (r != "" ==> !IsSpace(r[0]))
    ensures SkipSpace(w + r) == r
  {
    if w == "" {
      assert w + r == r;
    } else {
      assert (w + r)[1..] == w[1..] + r;
      SkipsBlank(w[1..], r);
    }
  }

  lemma {:induction false} ReadsBody(us: seq<Unit>, tail: string)
    requires GoodUnits(us)
    ensures ReadBody(PrintUnits(us) + "\"" + tail) == Some(Read(Value(us), tail))
    decreases |us|
  {
    var r := PrintUnits(us) + "\"" + tail;
    if us == [] {
      assert r[1..] == tail;
    } else {
      var u, rest := us[0], PrintUnits(us[1..]) + "\"" + tail;
      assert GoodUnit(u);
      assert r == PrintUnit(u) + rest;
      ReadsBody(us[1..], tail);
      if u.Raw? {
        assert r[1..] == rest;
      } else {
        assert r[2..] == rest;
      }
    }
  }

  lemma ReadsString(us: seq<Unit>, tail: string)
    requires GoodUnits(us)
    ensures ReadString(PrintString(us) + tail) == Some(Read(Value(us), tail))
  {
    ReadsBody(us, tail);
    assert (PrintString(us) + tail)[1..] == PrintUnits(us) + "\"" + tail;
  }

  lemma PrintMemberThen(x: Member, tail: string)
    ensures PrintMember(x) + tail
         == x.before + (PrintString(x.key) + (x.a + (":" + (x.b + (PrintString(x.value) + (x.after + tail))))))
  {}

  /** One member, up to whatever separator follows. */
  lemma ReadsMember(x: Member, tail: string, m: map<string, string>)
    requires GoodMember(x) && tail != "" && !IsSpace(tail[0])
    ensures ReadMembers(SkipSpace(PrintMember(x) + tail), m) == ReadNext(tail, m[Value(x.key) := Value(x.value)])
  {
    var r4 := x.after + tail;
    var r3 := PrintString(x.value) + r4;
    var r2 := x.b + r3;
    var r1 := x.a + (":" + r2);
    var r0 := PrintString(x.key) + r1;
    PrintMemberThen(x, tail);
    hide PrintMember, ReadString, SkipSpace, Value, Blank, GoodUnits, ReadNext;
    assert r0 != "" && r0[0] == '"' && r3 != "" && r3[0] == '"';
    SkipsBlank(x.before, r0);
    ReadsString(x.key, r1);
    SkipsBlank(x.a, ":" + r2);
    assert (":" + r2)[1..] == r2;
    SkipsBlank(x.b, r3);
    ReadsString(x.value, r4);
    SkipsBlank(x.after, tail);
  }

  lemma {:induction false} ReadsMembers(ms: seq<Member>, trail: string, m: map<string, string>)
    requires GoodMembers(ms) && ms != [] && Blank(trail)
    ensures ReadMembers(SkipSpace(PrintMembers(ms) + ("}" + trail)), m) == Ok(MapFrom(m, ms))
    decreases |ms|
  {
    hide ReadMembers, PrintMember, SkipSpace;
    var m' := m[Value(ms[0].key) := Value(ms[0].value)];
    if |ms| == 1 {
      ReadsMember(ms[0], "}" + trail, m);
      SkipsBlank(trail, "");
      assert trail + "" == trail && ("}" + trail)[1..] == trail;
      assert MapFrom(m', ms[1..]) == m';
    } else {
      var more := PrintMembers(ms[1..]) + ("}" + trail);
      assert PrintMembers(ms) + ("}" + trail) == PrintMember(ms[0]) + ("," + more);
      ReadsMember(ms[0], "," + more, m);
      assert ("," + more)[1..] == more;
      ReadsMembers(ms[1..], trail, m');
    }
  }

  lemma {:induction false} StartsWithQuote(ms: seq<Member>, trail: string)
    requires GoodMembers(ms) && ms != []
    ensures SkipSpace(PrintMembers(ms) + trail) != "" && SkipSpace(PrintMembers(ms) + trail)[0] == '"'
  {
    hide SkipSpace, PrintUnits;
    var x := ms[0];
    var r := MemberText(ms);
    assert PrintMembers(ms) + trail == x.before + (r + trail);
    SkipsBlank(x.before, r + trail);
  }

  /** The members without the blanks they start with. */
  lemma MemberText(ms: seq<Member>) returns (r: string)
    requires ms != []
    ensures PrintMembers(ms) == ms[0].before + r && r != "" && r[0] == '"'
  {
    hide PrintUnits;
    var x := ms[0];
    r := PrintString(x.key) + (x.a + (":" + (x.b + (PrintString(x.value) + x.after))));
    if |ms| > 1 {
      var more := "," + PrintMembers(ms[1..]);
      assert (x.before + r) + more == x.before + (r + more);
      r := r + more;
    }
  }

  lemma PrintedObjectsAreRead(d: Doc)
    requires GoodDoc(d)
    ensures ReadObject(PrintDoc(d)) == Ok(MapFrom(map[], d.members))
  {
    hide ReadMembers, PrintMembers, SkipSpace, PrintMember;
    var body := (if d.members == [] then d.inner else PrintMembers(d.members)) + ("}" + d.trail);
    SkipsBlank(d.lead, "{" + body);
    assert ("{" + body)[1..] == body;
    if d.members == [] {
      SkipsBlank(d.inner, "}" + d.trail);
      assert ("}" + d.trail)[1..] == d.trail;
      SkipsBlank(d.trail, "");
      assert d.trail + "" == d.trail;
    } else {
      StartsWithQuote(d.members, "}" + d.trail);
      ReadsMembers(d.members, d.trail, map[]);
    }
  }

  // ---------- everything read was printed ----------

  /** The blank `r` starts with. */
  function LeadingSpace(r: string): (w: string)
    ensures Blank(w) && r == w + SkipSpace(r)
  {
    if r != "" && IsSpace(r[0]) then [r[0]] + LeadingSpace(r[1..]) else ""
  }

  function UnitsOf(r: string): (us: seq<Unit>)
    requires ReadBody(r).Some?
    ensures GoodUnits(us)
  {
    if r[0] == '"' then []
    else if r[0] != '\\' then [Raw(r[0])] + UnitsOf(r[1..])
    else [Escaped(r[1])] + UnitsOf(r[2..])
  }

  lemma PrintUnitsCons(u: Unit, us: seq<Unit>, rest: string)
    requires GoodUnit(u) && GoodUnits(us)
    ensures GoodUnits([u] + us)
    ensures PrintUnits([u] + us) + "\"" + rest == PrintUnit(u) + (PrintUnits(us) + "\"" + rest)
    ensures Value([u] + us) == [UnitValue(u)] + Value(us)
  {
    assert ([u] + us)[1..] == us;
  }

  lemma NothingToPrint()
    ensures PrintUnits([]) == "" && Value([]) == ""
  {}

  lemma {:induction false} BodiesWerePrinted(r: string)
    requires ReadBody(r).Some?
    ensures r == PrintUnits(UnitsOf(r)) + "\"" + ReadBody(r).value.rest
    ensures Value(UnitsOf(r)) == ReadBody(r).value.value
  {
    hide PrintUnits, Value, JsonEscape;
    if r[0] == '"' {
      NothingToPrint();
      assert r == "" + "\"" + r[1..];
    } else {
      var n := if r[0] == '\\' then 2 else 1;
      BodiesWerePrinted(r[n..]);
      PrintUnitsCons(if n == 1 then Raw(r[0]) else Escaped(r[1]), UnitsOf(r[n..]), ReadBody(r[n..]).value.rest);
      assert r == r[..n] + r[n..];
    }
  }

  lemma StringsWerePrinted(r: string)
    requires ReadString(r).Some?
    ensures r == PrintString(UnitsOf(r[1..])) + ReadString(r).value.rest
    ensures Value(UnitsOf(r[1..])) == ReadString(r).value.value
  {
    BodiesWerePrinted(r[1..]);
    assert r == [r[0]] + r[1..];
  }

  /** The member at the front of an accepted input, and what follows it. */
  function FrontMember(r: string, m: map<string, string>): (x: Member)
    requires ReadMembers(r, m).Ok?
    ensures GoodMember(x) && x.before == ""
  {
    assert AfterKey(SkipSpace(ReadString(r).value.rest), ReadString(r).value.value, m).Ok?;
    var key := ReadString(r).value.rest;
    var colon := SkipSpace(key);
    var value := SkipSpace(colon[1..]);
    Member("", UnitsOf(r[1..]), LeadingSpace(key), LeadingSpace(colon[1..]), UnitsOf(value[1..]),
           LeadingSpace(ReadString(value).value.rest))
  }

  function AfterFront(r: string, m: map<string, string>): (rest: string)
    requires ReadMembers(r, m).Ok?
    ensures |rest| < |r|
  {
    assert AfterKey(SkipSpace(ReadString(r).value.rest), ReadString(r).value.value, m).Ok?;
    SkipSpace(ReadString(SkipSpace(SkipSpace(ReadString(r).value.rest)[1..])).value.rest)
  }

  lemma FrontWasPrinted(r: string, m: map<string, string>)
    requires ReadMembers(r, m).Ok?
    ensures r == PrintMember(FrontMember(r, m)) + AfterFront(r, m)
    ensures var x := FrontMember(r, m);
            ReadMembers(r, m) == ReadNext(AfterFront(r, m), m[Value(x.key) := Value(x.value)])
  {
    hide UnitsOf, PrintString, ReadString, SkipSpace, LeadingSpace, PrintMember, Value, GoodUnits, ReadNext, Blank;
    assert AfterKey(SkipSpace(ReadString(r).value.rest), ReadString(r).value.value, m).Ok?;
    var x := FrontMember(r, m);
    var colon := SkipSpace(ReadString(r).value.rest);
    StringsWerePrinted(r);
    StringsWerePrinted(SkipSpace(colon[1..]));
    assert colon == ":" + colon[1..];
    PrintMemberThen(x, AfterFront(r, m));
  }

  lemma {:induction false} MembersWerePrinted(r: string, m: map<string, string>)
    returns (ms: seq<Member>, trail: string)
    requires ReadMembers(r, m).Ok?
    ensures GoodMembers(ms) && ms != [] && Blank(trail)
    ensures r == PrintMembers(ms) + ("}" + trail)
    ensures ReadMembers(r, m) == Ok(MapFrom(m, ms))
    decreases |r|
  {
    hide ReadMembers, FrontMember, AfterFront, PrintMember, PrintMembers, Value, SkipSpace, LeadingSpace, MapFrom;
    FrontWasPrinted(r, m);
    var x, rest := FrontMember(r, m), AfterFront(r, m);
    var m' := m[Value(x.key) := Value(x.value)];
    if rest[0] == ',' {
      var ms', trail' := MembersWerePrinted(SkipSpace(rest[1..]), m');
      trail := trail';
      var more := WithLead(ms', LeadingSpace(rest[1..]), SkipSpace(rest[1..]), "}" + trail);
      ms := [x] + more;
      LeadKeepsMap(m', ms', more);
      PrintedMore(x, more, "}" + trail, m);
      assert rest == "," + rest[1..];
    } else {
      ms, trail := [x], LeadingSpace(rest[1..]);
      assert rest == "}" + rest[1..] && rest[1..] == trail + "" == trail;
      PrintedOne(x, m);
    }
  }

  lemma PrintedMore(x: Member, more: seq<Member>, tail: string, m: map<string, string>)
    requires more != [] && GoodMembers(more) && GoodMember(x)
    ensures PrintMembers([x] + more) + tail == PrintMember(x) + ("," + (PrintMembers(more) + tail))
    ensures MapFrom(m, [x] + more) == MapFrom(m[Value(x.key) := Value(x.value)], more)
  {
    hide PrintMember, Value;
    assert ([x] + more)[1..] == more;
  }

  lemma PrintedOne(x: Member, m: map<string, string>)
    requires GoodMember(x)
    ensures PrintMembers([x]) == PrintMember(x)
    ensures MapFrom(m, [x]) == m[Value(x.key) := Value(x.value)]
  {
    assert [x][1..] == [];
  }

  lemma LeadKeepsMap(m: map<string, string>, ms: seq<Member>, more: seq<Member>)
    requires GoodMembers(ms) && GoodMembers(more) && ms != [] && more != [] && more[1..] == ms[1..]
    requires more[0].key == ms[0].key && more[0].value == ms[0].value
    ensures MapFrom(m, more) == MapFrom(m, ms)
  {}

  /** White space in front of the first member can be taken into it. */
  lemma WithLead(ms: seq<Member>, w: string, r: string, tail: string) returns (more: seq<Member>)
    requires ms != [] && GoodMembers(ms) && Blank(w) && r == PrintMembers(ms) + tail
    ensures GoodMembers(more) && more != [] && more[1..] == ms[1..]
    ensures more[0].key == ms[0].key && more[0].value == ms[0].value
    ensures w + r == PrintMembers(more) + tail
  {
    hide PrintMember;
    var first := ms[0].(before := w + ms[0].before);
    more := [first] + ms[1..];
    LeadPrinted(ms[0], w);
    if |ms| > 1 {
      PrintedMore(ms[0], ms[1..], tail, map[]);
      PrintedMore(first, ms[1..], tail, map[]);
      assert ms == [ms[0]] + ms[1..];
    } else {
      assert more == [first] && ms == [ms[0]];
    }
  }

  lemma LeadPrinted(x: Member, w: string)
    ensures PrintMember(x.(before := w + x.before)) == w + PrintMember(x)
  {}

  lemma AcceptedObjectsWerePrinted(v: string) returns (d: Doc)
    requires ReadObject(v).Ok?
    ensures GoodDoc(d) && PrintDoc(d) == v && ReadObject(v) == Ok(MapFrom(map[], d.members))
  {
    hide ReadMembers, PrintMembers, SkipSpace, LeadingSpace, PrintMember;
    var r := SkipSpace(v);
    var lead, inner := LeadingSpace(v), LeadingSpace(r[1..]);
    var body := SkipSpace(r[1..]);
    assert r == "{" + r[1..];
    if body != "" && body[0] == '}' {
      var trail := LeadingSpace(body[1..]);
      d := Doc(lead, inner, [], trail);
      assert body == "}" + body[1..] && body[1..] == trail + "" == trail;
    } else {
      var ms, trail := MembersWerePrinted(body, map[]);
      var more := WithLead(ms, inner, body, "}" + trail);
      d := Doc(lead, "", more, trail);
      LeadKeepsMap(map[], ms, more);
    }
  }

  ghost predicate Prints(v: string, m: map<string, string>, d: Doc) {
    GoodDoc(d) && PrintDoc(d) == v && MapFrom(map[], d.members) == m
  }

  /** The parser accepts exactly the printed objects, and returns the map they stand
      for: it inverts every printer, under every layout and every choice of escapes. */
  lemma ParserInvertsPrinter(v: string, m: map<string, string>)
    ensures ReadObject(v) == Ok(m) <==> exists d :: Prints(v, m, d)
  {
    if ReadObject(v) == Ok(m) {
      var d := AcceptedObjectsWerePrinted(v);
      assert Prints(v, m, d);
    }
    forall d | Prints(v, m, d)
      ensures ReadObject(v) == Ok(m)
    {
      PrintedObjectsAreRead(d);
    }
  }

  // ---------- every map can be printed ----------

  function Encode(s: string): (us: seq<Unit>)
    ensures GoodUnits(us)
  {
    if s == "" then []
    else [if s[0] == '"' || s[0] == '\\' then Escaped(s[0]) else Raw(s[0])] + Encode(s[1..])
  }

  lemma ValueCons(u: Unit, rest: seq<Unit>)
    requires GoodUnit(u) && GoodUnits(rest)
    ensures Value([u] + rest) == Value([u]) + Value(rest)
  {
    assert ([u] + rest)[1..] == rest;
    assert [u][1..] == [];
  }

  lemma {:induction false} EncodeKeepsValue(s: string)
    ensures Value(Encode(s)) == s
  {
    if s == "" {
    } else {
      EncodeKeepsValue(s[1..]);
      ValueCons(Encode(s)[0], Encode(s[1..]));
      hide Value;
      assert s == [s[0]] + s[1..];
    }
  }

  lemma {:induction false} EveryMapHasMembers(m: map<string, string>) returns (ms: seq<Member>)
    ensures GoodMembers(ms) && MapFrom(map[], ms) == m
    decreases m.Keys
  {
    if m == map[] {
      ms := [];
    } else {
      var k :| k in m;
      var smaller := m - {k};
      assert smaller.Keys == m.Keys - {k};
      var ms' := EveryMapHasMembers(smaller);
      EncodeKeepsValue(k);
      EncodeKeepsValue(m[k]);
      ms := ms' + [Member("", Encode(k), "", "", Encode(m[k]), "")];
      MapFromSnoc(map[], ms', ms[|ms'|]);
      assert smaller[k := m[k]] == m;
    }
  }

  lemma {:induction false} MapFromSnoc(m: map<string, string>, ms: seq<Member>, x: Member)
    requires GoodMembers(ms) && GoodMember(x)
    ensures MapFrom(m, ms + [x]) == MapFrom(m, ms)[Value(x.key) := Value(x.value)]
    decreases |ms|
  {
    if ms == [] {
      assert [x][1..] == [] && ms + [x] == [x];
    } else {
      assert (ms + [x])[1..] == ms[1..] + [x];
      MapFromSnoc(m[Value(ms[0].key) := Value(ms[0].value)], ms[1..], x);
    }
  }

  /** Every map of byte strings is the value of some accepted input. */
  lemma EveryMapIsReadable(m: map<string, string>)
    ensures exists v :: ReadObject(v) == Ok(m)
  {
    var ms := EveryMapHasMembers(m);
    var d := Doc("", "", ms, "");
    PrintedObjectsAreRead(d);
    assert ReadObject(PrintDoc(d)) == Ok(m);
  }

  // ---------- the parser as it runs, on a position ----------

  method SkipJsonWhitespace(value: string, start: nat) returns (pos: nat)
    requires start <= |value|
    ensures start <= pos <= |value| && value[pos..] == SkipSpace(value[start..])
  {
    pos := start;
    while pos < |value| && IsSpace(value[pos])
      invariant start <= pos <= |value|
      invariant SkipSpace(value[pos..]) == SkipSpace(value[start..])
    {
      assert value[pos..][1..] == value[pos + 1..];
      pos := pos + 1;
    }
  }

  lemma PrependOne(s: string, c: char, x: Option<Read>)
    ensures Prepend(s, Prepend([c], x)) == Prepend(s + [c], x)
  {
    if x.Some? {
      assert s + ([c] + x.value.value) == s + [c] + x.value.value;
    }
  }

  lemma TailAt(v: string, i: nat)
    requires i < |v|
    ensures v[i..] != "" && v[i..][0] == v[i] && v[i..][1..] == v[i + 1..]
  {}

  /** The character at `pos`, as the body of a string goes on. */
  lemma BodyAt(v: string, pos: nat)
    requires pos < |v|
    ensures v[pos] == '"' ==> ReadBody(v[pos..]) == Some(Read("", v[pos + 1..]))
    ensures v[pos] != '"' && v[pos] != '\\' ==> ReadBody(v[pos..]) == Prepend([v[pos]], ReadBody(v[pos + 1..]))
    ensures v[pos] == '\\' ==>
              ReadBody(v[pos..])
                == if pos + 1 == |v| || JsonEscape(v[pos + 1]).None? then None
                   else Prepend([JsonEscape(v[pos + 1]).value], ReadBody(v[pos + 2..]))
  {
    hide JsonEscape, Prepend;
    var r := v[pos..];
    assert r != "" && r[0] == v[pos] && r[1..] == v[pos + 1..];
    if |r| >= 2 {
      assert r[1] == v[pos + 1] && r[2..] == v[pos + 2..];
    }
  }

  lemma NothingPrepended(x: Option<Read>)
    ensures Prepend("", x) == x
  {
    if x.Some? {
      assert "" + x.value.value == x.value.value;
    }
  }

  lemma NothingMore(out: string, rest: string)
    ensures Prepend(out, Some(Read("", rest))) == Some(Read(out, rest))
    ensures Prepend(out, None) == None
  {
    assert out + "" == out;
  }

  lemma StringAt(v: string, start: nat)
    requires start <= |v|
    ensures start == |v| || v[start] != '"' ==> ReadString(v[start..]) == None
    ensures start < |v| && v[start] == '"' ==> ReadString(v[start..]) == ReadBody(v[start + 1..])
    ensures ReadBody(v[|v|..]) == None
  {
    hide ReadBody;
    if start < |v| {
      TailAt(v, start);
    }
    assert v[|v|..] == "";
    NothingToRead();
  }

  lemma NothingToRead()
    ensures ReadBody("") == None
  {}

  method ParseJsonString(value: string, start: nat) returns (ok: bool, pos: nat, out: string)
    requires start <= |value|
    ensures ok <==> ReadString(value[start..]).Some?
    ensures ok ==> start < pos <= |value| && Read(out, value[pos..]) == ReadString(value[start..]).value
  {
    hide JsonEscape, Prepend, ReadBody, ReadString;
    ok, pos, out := false, start, "";
    StringAt(value, start);
    if pos >= |value| || value[pos] != '"' {
      return;
    }
    pos := pos + 1;
    ghost var body := ReadBody(value[pos..]);
    NothingPrepended(body);
    while pos < |value|
      invariant start < pos <= |value| && !ok
      invariant Prepend(out, ReadBody(value[pos..])) == body
    {
      BodyAt(value, pos);
      var ch := value[pos];
      pos := pos + 1;
      NothingMore(out, value[pos..]);
      if ch == '"' {
        ok := true;
        return;
      }
      if ch != '\\' {
        PrependOne(out, ch, ReadBody(value[pos..]));
        out := out + [ch];
        continue;
      }
      if pos >= |value| {
        return;
      }
      var escaped := JsonEscape(value[pos]);
      pos := pos + 1;
      if escaped.None? {
        return;
      }
      PrependOne(out, escaped.value, ReadBody(value[pos..]));
      out := out + [escaped.value];
    }
    NothingMore(out, "");
  }

  lemma ReadMembersUnfolds(r: string, m: map<string, string>)
    ensures r == "" ==> ReadMembers(r, m) == Bad(Unterminated)
    ensures r != "" && ReadString(r).None? ==> ReadMembers(r, m) == Bad(BadKey)
    ensures ReadString(r).Some? ==> ReadMembers(r, m) == AfterKey(SkipSpace(ReadString(r).value.rest), ReadString(r).value.value, m)
  {}

  method ParseStringMapJson(value: string) returns (parsed: Parsed)
    ensures parsed == ReadObject(value)
  {
    hide SkipSpace, ReadString, IsSpace, ReadMembers;
    var entries: map<string, string> := map[];
    var pos := SkipJsonWhitespace(value, 0);
    assert value[0..] == value;
    if pos >= |value| || value[pos] != '{' {
      return Bad(NotAnObject);
    }
    TailAt(value, pos);
    pos := SkipJsonWhitespace(value, pos + 1);
    if pos < |value| && value[pos] == '}' {
      TailAt(value, pos);
      pos := SkipJsonWhitespace(value, pos + 1);
      return if pos == |value| then Ok(entries) else Bad(TrailingText);
    }
    while pos < |value|
      invariant pos <= |value| && ReadMembers(value[pos..], entries) == ReadObject(value)
    {
      hide ReadObject;
      ReadMembersUnfolds(value[pos..], entries);
      var ok, afterKey, key := ParseJsonString(value, pos);
      if !ok {
        return Bad(BadKey);
      }
      var colon := SkipJsonWhitespace(value, afterKey);
      if colon >= |value| || value[colon] != ':' {
        return Bad(NoColon);
      }
      TailAt(value, colon);
      var valueAt := SkipJsonWhitespace(value, colon + 1);
      var ok', afterValue, mapValue := ParseJsonString(value, valueAt);
      if !ok' {
        return Bad(BadValue);
      }
      entries := entries[key := mapValue];
      pos := SkipJsonWhitespace(value, afterValue);
      if pos < |value| && value[pos] == ',' {
        TailAt(value, pos);
        pos := SkipJsonWhitespace(value, pos + 1);
        continue;
      }
      if pos < |value| && value[pos] == '}' {
        TailAt(value, pos);
        pos := SkipJsonWhitespace(value, pos + 1);
        return if pos == |value| then Ok(entries) else Bad(TrailingText);
      }
      return Bad(NoSeparator);
    }
    ReadMembersUnfolds(value[pos..], entries);
    return Bad(Unterminated);
  }
}
