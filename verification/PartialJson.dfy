/** Extraction of one string field from JSON that is still being streamed. Byte
    strings are strings whose characters stand for bytes. */
module PartialJson {
  import opened Numerals
  import opened Strings

  predicate IsSpace(c: char) {
    c == ' ' || c == '\t' || c == '\n' || c == '\r'
  }

  // ---------- specification ----------

  function SkipSpace(json: string, i: nat): (r: nat)
    ensures i <= r && (r <= |json| || r == i)
    decreases |json| - i
  {
    if i < |json| && IsSpace(json[i]) then SkipSpace(json, i + 1) else i
  }

  /** The bytes at `i` are the key and a closing quote; a backslash never matches. */
  predicate KeyAt(json: string, i: nat, key: string) {
    && i + |key| < |json|
    && json[i..i + |key|] == key && json[i + |key|] == '"'
    && '\\' !in key
  }

  /** Where the string with contents starting at `i` ends: the index of its closing
      quote, or the end of the input. */
  function StringEnd(json: string, i: nat): (r: nat)
    requires i <= |json|
    ensures i <= r <= |json|
    ensures r < |json| ==> json[r] == '"'
    decreases |json| - i
  {
    if i == |json| || json[i] == '"' then i
    else if json[i] == '\\' && i + 1 < |json| then StringEnd(json, i + 2)
    else StringEnd(json, i + 1)
  }

  /** The index just past the closing quote of the first string at depth 1 that is
      the key. */
  function Find(json: string, i: nat, depth: nat, key: string): Option<nat>
    requires i <= |json|
    decreases |json| - i
  {
    if i == |json| then None
    else if json[i] == '{' || json[i] == '[' then Find(json, i + 1, depth + 1, key)
    else if json[i] == '}' || json[i] == ']' then
      if depth == 0 then None else Find(json, i + 1, depth - 1, key)
    else if json[i] != '"' then Find(json, i + 1, depth, key)
    else if depth == 1 && KeyAt(json, i + 1, key) then Some(i + 1 + |key| + 1)
    else
      var end := StringEnd(json, i + 1);
      if end == |json| then None else Find(json, end + 1, depth, key)
  }

  predicate IsHex(c: char) {
    '0' <= c <= '9' || 'a' <= c <= 'f' || 'A' <= c <= 'F'
  }

  function HexValue(c: char): (v: nat)
    requires IsHex(c)
    ensures v < 16
  {
    if '0' <= c <= '9' then c as int - '0' as int
    else if 'a' <= c <= 'f' then c as int - 'a' as int + 10
    else c as int - 'A' as int + 10
  }

  /** Four hex digits at `i`, most significant first. */
  function Hex4(json: string, i: nat): (r: Option<nat>)
    ensures r.Some? ==> r.value < 0x10000
  {
    if i + 4 > |json| || !IsHex(json[i]) || !IsHex(json[i + 1]) || !IsHex(json[i + 2]) || !IsHex(json[i + 3]) then None
    else Some(((HexValue(json[i]) * 16 + HexValue(json[i + 1])) * 16 + HexValue(json[i + 2])) * 16 + HexValue(json[i + 3]))
  }

  predicate HighSurrogate(u: nat) {
    0xD800 <= u <= 0xDBFF
  }

  predicate LowSurrogate(u: nat) {
    0xDC00 <= u <= 0xDFFF
  }

  function Combine(high: nat, low: nat): (cp: nat)
    requires HighSurrogate(high) && LowSurrogate(low)
    ensures 0x10000 <= cp <= 0x10FFFF
  {
    0x10000 + (high - 0xD800) * 0x400 + (low - 0xDC00)
  }

  function Byte(b: nat): char
    requires b < 0x100
  {
    b as char
  }

  /** The bytes appended for a code point. The shifts and masks of the program are
      divisions and remainders here. */
  function Utf8(cp: nat): string
    requires cp <= 0x10FFFF
  {
    if cp < 0x80 then [Byte(cp)]
    else if cp < 0x800 then [Byte(0xC0 + cp / 0x40), Byte(0x80 + cp % 0x40)]
    else if cp < 0x10000 then
      [Byte(0xE0 + cp / 0x1000), Byte(0x80 + cp / 0x40 % 0x40), Byte(0x80 + cp % 0x40)]
    else
      [Byte(0xF0 + cp / 0x40000), Byte(0x80 + cp / 0x1000 % 0x40), Byte(0x80 + cp / 0x40 % 0x40), Byte(0x80 + cp % 0x40)]
  }

  /** One unit of string contents: the bytes it stands for and where it ends. */
  datatype Unit = Stop | Unit(bytes: string, next: nat)

  /** The unit at `i`; `Stop` at a closing quote, at the end of the input, and where
      an escape is cut short or malformed. */
  function UnitAt(json: string, i: nat): (u: Unit)
    requires i <= |json|
    ensures u.Unit? ==> i < u.next <= |json|
  {
    if i == |json| || json[i] == '"' then Stop
    else if json[i] != '\\' then Unit([json[i]], i + 1)
    else if i + 1 >= |json| then Stop
    else if JsonEscape(json[i + 1]).Some? then Unit([JsonEscape(json[i + 1]).value], i + 2)
    else if json[i + 1] != 'u' || Hex4(json, i + 2).None? then Stop
    else
      var high := Hex4(json, i + 2).value;
      if !HighSurrogate(high) then Unit(Utf8(high), i + 6)
      else if i + 12 > |json| || json[i + 6] != '\\' || json[i + 7] != 'u' || Hex4(json, i + 8).None?
              || !LowSurrogate(Hex4(json, i + 8).value) then Stop
      else Unit(Utf8(Combine(high, Hex4(json, i + 8).value)), i + 12)
  }

  /** The contents decoded so far of the string whose contents start at `i`. */
  function Contents(json: string, i: nat): string
    requires i <= |json|
    decreases |json| - i
  {
    var u := UnitAt(json, i);
    if u.Stop? then "" else u.bytes + Contents(json, u.next)
  }

  /** The field of a partial object, as far as it has arrived. */
  function Extract(json: string, key: string): Option<string> {
    var afterKey := Find(json, 0, 0, key);
    if afterKey.None? || afterKey.value > |json| then None
    else
      var colon := SkipSpace(json, afterKey.value);
      if colon >= |json| || json[colon] != ':' then None
      else
        var quote := SkipSpace(json, colon + 1);
        if quote >= |json| || json[quote] != '"' then None
        else Some(Contents(json, quote + 1))
  }

  // ---------- streaming ----------

  lemma {:induction false} FindBounds(json: string, i: nat, depth: nat, key: string)
    requires i <= |json| && Find(json, i, depth, key).Some?
    ensures i + |key| + 2 <= Find(json, i, depth, key).value <= |json|
    decreases |json| - i
  {
    if json[i] == '{' || json[i] == '[' {
      FindBounds(json, i + 1, depth + 1, key);
    } else if json[i] == '}' || json[i] == ']' {
      FindBounds(json, i + 1, depth - 1, key);
    } else if json[i] != '"' {
      FindBounds(json, i + 1, depth, key);
    } else if depth == 1 && KeyAt(json, i + 1, key) {
    } else {
      FindBounds(json, StringEnd(json, i + 1) + 1, depth, key);
    }
  }

  lemma {:induction false} SkipSpaceMonotone(j1: string, j2: string, i: nat)
    requires j1 <= j2 && SkipSpace(j1, i) < |j1|
    ensures SkipSpace(j2, i) == SkipSpace(j1, i)
    decreases |j1| - i
  {
    if i >= |j1| || !IsSpace(j1[i]) {
    } else {
      SkipSpaceMonotone(j1, j2, i + 1);
    }
  }

  lemma {:induction false} StringEndMonotone(j1: string, j2: string, i: nat)
    requires j1 <= j2 && i <= |j1| && StringEnd(j1, i) < |j1|
    ensures StringEnd(j2, i) == StringEnd(j1, i)
    decreases |j1| - i
  {
    if j1[i] == '"' {
    } else if j1[i] == '\\' && i + 1 < |j1| {
      StringEndMonotone(j1, j2, i + 2);
    } else {
      StringEndMonotone(j1, j2, i + 1);
    }
  }

  /** Once the key is found it stays where it is: a string that was only a prefix of
      the key when the input ended cannot be followed by the key. */
  lemma {:induction false} FindMonotone(j1: string, j2: string, i: nat, depth: nat, key: string)
    requires j1 <= j2 && i <= |j1| && Find(j1, i, depth, key).Some?
    ensures Find(j2, i, depth, key) == Find(j1, i, depth, key)
    decreases |j1| - i
  {
    if j1[i] == '{' || j1[i] == '[' {
      FindMonotone(j1, j2, i + 1, depth + 1, key);
    } else if j1[i] == '}' || j1[i] == ']' {
      FindMonotone(j1, j2, i + 1, depth - 1, key);
    } else if j1[i] != '"' {
      FindMonotone(j1, j2, i + 1, depth, key);
    } else {
      FindBounds(j1, i, depth, key);
      assert i + 1 + |key| < |j1|;
      assert j1[i + 1..i + 1 + |key|] == j2[i + 1..i + 1 + |key|];
      if !(depth == 1 && KeyAt(j1, i + 1, key)) {
        StringEndMonotone(j1, j2, i + 1);
        FindMonotone(j1, j2, StringEnd(j1, i + 1) + 1, depth, key);
      }
    }
  }

  lemma UnitMonotone(j1: string, j2: string, i: nat)
    requires j1 <= j2 && i <= |j1| && UnitAt(j1, i).Unit?
    ensures UnitAt(j2, i) == UnitAt(j1, i)
  {}

  lemma {:induction false} ContentsMonotone(j1: string, j2: string, i: nat)
    requires j1 <= j2 && i <= |j1|
    ensures Contents(j1, i) <= Contents(j2, i)
    decreases |j1| - i
  {
    if UnitAt(j1, i).Stop? {
    } else {
      UnitMonotone(j1, j2, i);
      ContentsMonotone(j1, j2, UnitAt(j1, i).next);
    }
  }

  /** Streaming monotonicity: as more of the input arrives, what was extracted only
      ever grows at its end. It holds for all byte strings and all keys, wherever
      the input is cut. */
  lemma StreamingIsMonotone(j1: string, j2: string, key: string)
    requires j1 <= j2 && Extract(j1, key).Some?
    ensures Extract(j2, key).Some?
    ensures Extract(j1, key).value <= Extract(j2, key).value
  {
    hide Find, Contents, SkipSpace;
    FindMonotone(j1, j2, 0, 0, key);
    FindBounds(j1, 0, 0, key);
    var afterKey := Find(j1, 0, 0, key).value;
    var colon := SkipSpace(j1, afterKey);
    SkipSpaceMonotone(j1, j2, afterKey);
    SkipSpaceMonotone(j1, j2, colon + 1);
    ContentsMonotone(j1, j2, SkipSpace(j1, colon + 1) + 1);
  }

  // ---------- exact decoding ----------

  /** How a writer may spell one piece of string contents. */
  datatype Spelling =
    | Raw(c: char)                          // any byte but a quote or a backslash
    | Escape(c: char)                       // backslash and one of "\/bfnrt
    | Hex(digits: string)                   // \uXXXX, not a high surrogate
    | Pair(high: string, low: string)       // two \uXXXX, a surrogate pair

  predicate ValidSpelling(p: Spelling) {
    match p
    case Raw(c) => c != '"' && c != '\\'
    case Escape(c) => JsonEscape(c).Some?
    case Hex(d) => |d| == 4 && Hex4(d, 0).Some? && !HighSurrogate(Hex4(d, 0).value)
    case Pair(h, l) =>
      && |h| == 4 && Hex4(h, 0).Some? && HighSurrogate(Hex4(h, 0).value)
      && |l| == 4 && Hex4(l, 0).Some? && LowSurrogate(Hex4(l, 0).value)
  }

  function Spelled(p: Spelling): string {
    match p
    case Raw(c) => [c]
    case Escape(c) => ['\\', c]
    case Hex(d) => ['\\', 'u'] + d
    case Pair(h, l) => ['\\', 'u'] + h + ['\\', 'u'] + l
  }

  function Meaning(p: Spelling): string
    requires ValidSpelling(p)
  {
    match p
    case Raw(c) => [c]
    case Escape(c) => [JsonEscape(c).value]
    case Hex(d) => Utf8(Hex4(d, 0).value)
    case Pair(h, l) => Utf8(Combine(Hex4(h, 0).value, Hex4(l, 0).value))
  }

  function SpellAll(ps: seq<Spelling>): string {
    if ps == [] then "" else Spelled(ps[0]) + SpellAll(ps[1..])
  }

  predicate ValidSpellings(ps: seq<Spelling>) {
    forall i :: 0 <= i < |ps| ==> ValidSpelling(ps[i])
  }

  function MeaningOf(ps: seq<Spelling>): string
    requires ValidSpellings(ps)
  {
    if ps == [] then "" else Meaning(ps[0]) + MeaningOf(ps[1..])
  }

  /** The bytes of `json` from `i` on start with `part`. */
  predicate At(json: string, i: nat, part: string) {
    i + |part| <= |json| && json[i..i + |part|] == part
  }

  lemma AtConcat(json: string, i: nat, a: string, b: string)
    requires At(json, i, a + b)
    ensures At(json, i, a) && At(json, i + |a|, b)
  {
    assert json[i..i + |a|] == (a + b)[..|a|];
    assert json[i + |a|..i + |a + b|] == (a + b)[|a|..];
  }

  lemma AtIndex(json: string, i: nat, part: string, k: nat)
    requires At(json, i, part) && k < |part|
    ensures i + |part| <= |json| && json[i + k] == part[k]
  {
    assert json[i..i + |part|][k] == json[i + k];
  }

  lemma Hex4At(json: string, i: nat, digits: string)
    requires |digits| == 4 && At(json, i, digits)
    ensures Hex4(json, i) == Hex4(digits, 0)
  {
    AtIndex(json, i, digits, 0);
    AtIndex(json, i, digits, 1);
    AtIndex(json, i, digits, 2);
    AtIndex(json, i, digits, 3);
  }

  lemma HexEscapeAt(json: string, i: nat, digits: string)
    requires |digits| == 4 && At(json, i, ['\\', 'u'] + digits)
    ensures i + 6 <= |json| && json[i] == '\\' && json[i + 1] == 'u'
    ensures Hex4(json, i + 2) == Hex4(digits, 0)
  {
    AtIndex(json, i, ['\\', 'u'] + digits, 0);
    AtIndex(json, i, ['\\', 'u'] + digits, 1);
    AtConcat(json, i, ['\\', 'u'], digits);
    Hex4At(json, i + 2, digits);
  }

  lemma PairLength(h: string, l: string)
    requires |h| == 4 && |l| == 4
    ensures ['\\', 'u'] + h + ['\\', 'u'] + l == (['\\', 'u'] + h) + (['\\', 'u'] + l)
    ensures |['\\', 'u'] + h + ['\\', 'u'] + l| == 12
  {}

  lemma PairAt(json: string, i: nat, h: string, l: string)
    requires |h| == 4 && |l| == 4 && At(json, i, ['\\', 'u'] + h + ['\\', 'u'] + l)
    ensures i + 12 <= |json| && json[i] == '\\' && json[i + 1] == 'u' && json[i + 6] == '\\' && json[i + 7] == 'u'
    ensures Hex4(json, i + 2) == Hex4(h, 0) && Hex4(json, i + 8) == Hex4(l, 0)
  {
    hide At, Hex4;
    PairLength(h, l);
    AtConcat(json, i, ['\\', 'u'] + h, ['\\', 'u'] + l);
    HexEscapeAt(json, i, h);
    HexEscapeAt(json, i + 6, l);
  }

  lemma UnitOfPair(json: string, i: nat, p: Spelling)
    requires p.Pair? && ValidSpelling(p) && At(json, i, Spelled(p))
    ensures UnitAt(json, i) == Unit(Meaning(p), i + |Spelled(p)|)
  {
    hide At, Hex4, Utf8, Combine;
    PairAt(json, i, p.high, p.low);
    PairLength(p.high, p.low);
  }

  lemma UnitOfHex(json: string, i: nat, p: Spelling)
    requires p.Hex? && ValidSpelling(p) && At(json, i, Spelled(p))
    ensures UnitAt(json, i) == Unit(Meaning(p), i + |Spelled(p)|)
  {
    hide At, Hex4;
    HexEscapeAt(json, i, p.digits);
  }

  lemma UnitOfSpelling(json: string, i: nat, p: Spelling)
    requires ValidSpelling(p) && At(json, i, Spelled(p))
    ensures UnitAt(json, i) == Unit(Meaning(p), i + |Spelled(p)|)
  {
    hide At;
    match p
    case Raw(_) => AtIndex(json, i, Spelled(p), 0);
    case Escape(_) =>
      AtIndex(json, i, Spelled(p), 0);
      AtIndex(json, i, Spelled(p), 1);
    case Hex(_) => UnitOfHex(json, i, p);
    case Pair(_, _) => UnitOfPair(json, i, p);
  }

  lemma StopsAtQuote(json: string, i: nat)
    requires i < |json| && json[i] == '"'
    ensures UnitAt(json, i) == Stop
  {}

  /** Decoding is exact: whatever spelling the writer chose, the contents come back,
      and nothing after the closing quote matters. */
  lemma {:induction false} ContentsOfSpelling(json: string, i: nat, ps: seq<Spelling>)
    requires ValidSpellings(ps) && At(json, i, SpellAll(ps) + ['"'])
    ensures Contents(json, i) == MeaningOf(ps)
    decreases |ps|
  {
    hide UnitAt, Spelled, Meaning, ValidSpelling, At;
    if ps == [] {
      assert SpellAll(ps) + ['"'] == ['"'];
      AtIndex(json, i, ['"'], 0);
      StopsAtQuote(json, i);
    } else {
      assert SpellAll(ps) + ['"'] == Spelled(ps[0]) + (SpellAll(ps[1..]) + ['"']);
      AtConcat(json, i, Spelled(ps[0]), SpellAll(ps[1..]) + ['"']);
      UnitOfSpelling(json, i, ps[0]);
      ContentsOfSpelling(json, i + |Spelled(ps[0])|, ps[1..]);
    }
  }

  /** A key a caller can name as it is: no quote, no backslash. */
  predicate PlainKey(key: string) {
    '"' !in key && '\\' !in key
  }

  /** The depth after scanning all of `text`, when it ends outside a string, never
      closes more than it opened, and no string in it at depth 1 is the key. */
  function Skim(text: string, i: nat, depth: nat, key: string): Option<nat>
    requires i <= |text|
    decreases |text| - i
  {
    if i == |text| then Some(depth)
    else if text[i] == '{' || text[i] == '[' then Skim(text, i + 1, depth + 1, key)
    else if text[i] == '}' || text[i] == ']' then
      if depth == 0 then None else Skim(text, i + 1, depth - 1, key)
    else if text[i] != '"' then Skim(text, i + 1, depth, key)
    else
      var end := StringEnd(text, i + 1);
      if end == |text| || (depth == 1 && text[i + 1..end] == key) then None
      else Skim(text, end + 1, depth, key)
  }

  lemma {:induction false} PlainStringEnd(json: string, i: nat, key: string)
    requires PlainKey(key) && At(json, i, key) && i + |key| < |json| && json[i + |key|] == '"'
    ensures StringEnd(json, i) == i + |key|
    decreases |key|
  {
    if key == "" {
    } else {
      AtIndex(json, i, key, 0);
      assert key == [key[0]] + key[1..];
      AtConcat(json, i, [key[0]], key[1..]);
      PlainStringEnd(json, i + 1, key[1..]);
    }
  }

  /** For a plain key, matching it byte by byte up to a closing quote is comparing
      the whole string. */
  lemma KeyAtIsWholeString(json: string, i: nat, key: string)
    requires PlainKey(key) && i <= |json|
    ensures KeyAt(json, i, key) <==> StringEnd(json, i) < |json| && json[i..StringEnd(json, i)] == key
  {
    if KeyAt(json, i, key) {
      PlainStringEnd(json, i, key);
    }
  }

  lemma {:induction false} FindAfterSkim(prefix: string, json: string, i: nat, depth: nat, key: string)
    requires prefix <= json && i <= |prefix| && PlainKey(key)
    requires Skim(prefix, i, depth, key).Some?
    ensures Find(json, i, depth, key) == Find(json, |prefix|, Skim(prefix, i, depth, key).value, key)
    decreases |prefix| - i
  {
    if i == |prefix| {
    } else if prefix[i] == '{' || prefix[i] == '[' {
      FindAfterSkim(prefix, json, i + 1, depth + 1, key);
    } else if prefix[i] == '}' || prefix[i] == ']' {
      FindAfterSkim(prefix, json, i + 1, depth - 1, key);
    } else if prefix[i] != '"' {
      FindAfterSkim(prefix, json, i + 1, depth, key);
    } else {
      var end := StringEnd(prefix, i + 1);
      StringEndMonotone(prefix, json, i + 1);
      KeyAtIsWholeString(json, i + 1, key);
      assert json[i + 1..end] == prefix[i + 1..end];
      FindAfterSkim(prefix, json, end + 1, depth, key);
    }
  }

  predicate AllSpace(ws: string) {
    forall i :: 0 <= i < |ws| ==> IsSpace(ws[i])
  }

  lemma {:induction false} SkipSpaceOver(json: string, i: nat, ws: string)
    requires AllSpace(ws) && At(json, i, ws)
    requires i + |ws| < |json| && !IsSpace(json[i + |ws|])
    ensures SkipSpace(json, i) == i + |ws|
    decreases |ws|
  {
    if ws == "" {
    } else {
      AtIndex(json, i, ws, 0);
      assert ws == [ws[0]] + ws[1..];
      AtConcat(json, i, [ws[0]], ws[1..]);
      SkipSpaceOver(json, i + 1, ws[1..]);
    }
  }

  /** The quoted key, a colon with any spacing around it, and a spelled string. */
  function Field(key: string, ws1: string, ws2: string, ps: seq<Spelling>): string {
    ['"'] + key + ['"'] + ws1 + [':'] + ws2 + ['"'] + (SpellAll(ps) + ['"'])
  }

  /** Where the parts of a field are, for a field at `n`. */
  predicate Laid(json: string, n: nat, key: string, ws1: string, ws2: string, contents: string) {
    var a := n + 1 + |key| + 1;
    var b := a + |ws1|;
    var c := b + 1 + |ws2|;
    && c < |json|
    && json[n] == '"' && At(json, n + 1, key) && json[n + 1 + |key|] == '"'
    && At(json, a, ws1) && json[b] == ':'
    && At(json, b + 1, ws2) && json[c] == '"' && At(json, c + 1, contents)
  }

  /** Key and colon, and what comes behind them. */
  lemma FieldHead(json: string, n: nat, key: string, ws1: string)
    requires At(json, n, ['"'] + key + ['"'] + ws1 + [':'])
    ensures var b := n + 1 + |key| + 1 + |ws1|;
            && b < |json| && json[n] == '"' && json[n + 1 + |key|] == '"' && json[b] == ':'
            && At(json, n + 1, key) && At(json, n + 1 + |key| + 1, ws1)
  {
    hide At;
    AtConcat(json, n, ['"'] + key + ['"'] + ws1, [':']);
    AtConcat(json, n, ['"'] + key + ['"'], ws1);
    AtConcat(json, n, ['"'] + key, ['"']);
    AtConcat(json, n, ['"'], key);
    AtIndex(json, n, ['"'], 0);
    AtIndex(json, n + 1 + |key|, ['"'], 0);
    AtIndex(json, n + 1 + |key| + 1 + |ws1|, [':'], 0);
  }

  lemma FieldLayout(json: string, n: nat, key: string, ws1: string, ws2: string, contents: string)
    requires At(json, n, ['"'] + key + ['"'] + ws1 + [':'] + ws2 + ['"'] + contents)
    ensures Laid(json, n, key, ws1, ws2, contents)
  {
    hide At;
    var head := ['"'] + key + ['"'] + ws1 + [':'];
    AtConcat(json, n, head + ws2 + ['"'], contents);
    AtConcat(json, n, head + ws2, ['"']);
    AtConcat(json, n, head, ws2);
    FieldHead(json, n, key, ws1);
    AtIndex(json, n + |head| + |ws2|, ['"'], 0);
  }

  lemma FindField(prefix: string, json: string, key: string)
    requires PlainKey(key) && prefix <= json && Skim(prefix, 0, 0, key) == Some(1)
    requires var n := |prefix|;
             n + 1 + |key| < |json| && json[n] == '"' && At(json, n + 1, key) && json[n + 1 + |key|] == '"'
    ensures Find(json, 0, 0, key) == Some(|prefix| + 1 + |key| + 1)
  {
    FindAfterSkim(prefix, json, 0, 0, key);
    assert KeyAt(json, |prefix| + 1, key);
  }

  lemma ExtractLaidField(prefix: string, json: string, key: string, ws1: string, ws2: string, ps: seq<Spelling>)
    requires PlainKey(key) && AllSpace(ws1) && AllSpace(ws2) && ValidSpellings(ps)
    requires Skim(prefix, 0, 0, key) == Some(1)
    requires prefix <= json && Laid(json, |prefix|, key, ws1, ws2, SpellAll(ps) + ['"'])
    ensures Extract(json, key) == Some(MeaningOf(ps))
  {
    hide Find, Contents, SkipSpace, Skim, SpellAll, MeaningOf, ValidSpellings, AllSpace, PlainKey, At;
    var a := |prefix| + 1 + |key| + 1;
    var b := a + |ws1|;
    var c := b + 1 + |ws2|;
    FindField(prefix, json, key);
    SkipSpaceOver(json, a, ws1);
    SkipSpaceOver(json, b + 1, ws2);
    ContentsOfSpelling(json, c + 1, ps);
  }

  lemma FieldAt(json: string, n: nat, key: string, ws1: string, ws2: string, ps: seq<Spelling>)
    requires At(json, n, Field(key, ws1, ws2, ps))
    ensures Laid(json, n, key, ws1, ws2, SpellAll(ps) + ['"'])
  {
    hide Laid;
    FieldLayout(json, n, key, ws1, ws2, SpellAll(ps) + ['"']);
  }

  /** When no earlier string at depth 1 is the key, extracting the field from an
      object returns exactly the bytes its writer spelled, whatever follows. */
  lemma ExtractionIsExact(prefix: string, key: string, ws1: string, ws2: string, ps: seq<Spelling>, rest: string)
    requires PlainKey(key) && AllSpace(ws1) && AllSpace(ws2) && ValidSpellings(ps)
    requires Skim(prefix, 0, 0, key) == Some(1)
    ensures Extract(prefix + Field(key, ws1, ws2, ps) + rest, key) == Some(MeaningOf(ps))
  {
    hide Field, Extract, MeaningOf, Skim, ValidSpellings;
    var field := Field(key, ws1, ws2, ps);
    var json := prefix + field + rest;
    assert json[|prefix|..|prefix| + |field|] == field;
    FieldAt(json, |prefix|, key, ws1, ws2, ps);
    ExtractLaidField(prefix, json, key, ws1, ws2, ps);
  }

  /** Whatever has arrived so far, the value shown for the field is a prefix of the one
      its writer spelled. */
  lemma EveryCutShowsAPrefix(part: string, prefix: string, key: string, ws1: string, ws2: string, ps: seq<Spelling>, rest: string)
    requires PlainKey(key) && AllSpace(ws1) && AllSpace(ws2) && ValidSpellings(ps)
    requires Skim(prefix, 0, 0, key) == Some(1)
    requires part <= prefix + Field(key, ws1, ws2, ps) + rest && Extract(part, key).Some?
    ensures Extract(part, key).value <= MeaningOf(ps)
  {
    hide Field, Extract, MeaningOf, Skim, ValidSpellings;
    ExtractionIsExact(prefix, key, ws1, ws2, ps, rest);
    StreamingIsMonotone(part, prefix + Field(key, ws1, ws2, ps) + rest, key);
  }

  /** A key with a backslash in it is never found. */
  lemma {:induction false} BackslashKeysAreNeverFound(json: string, i: nat, depth: nat, key: string)
    requires i <= |json| && '\\' in key
    ensures Find(json, i, depth, key) == None
    decreases |json| - i
  {
    if i == |json| {
    } else if json[i] == '{' || json[i] == '[' {
      BackslashKeysAreNeverFound(json, i + 1, depth + 1, key);
    } else if json[i] == '}' || json[i] == ']' {
      if depth > 0 {
        BackslashKeysAreNeverFound(json, i + 1, depth - 1, key);
      }
    } else if json[i] != '"' {
      BackslashKeysAreNeverFound(json, i + 1, depth, key);
    } else if StringEnd(json, i + 1) < |json| {
      BackslashKeysAreNeverFound(json, StringEnd(json, i + 1) + 1, depth, key);
    }
  }

  // ---------- surrogates and UTF-8 ----------

  function SplitPair(cp: nat): (nat, nat)
    requires 0x10000 <= cp <= 0x10FFFF
  {
    (0xD800 + (cp - 0x10000) / 0x400, 0xDC00 + (cp - 0x10000) % 0x400)
  }

  /** Surrogate pairs map one-to-one onto the code points from 0x10000 on. */
  lemma SurrogatePairsAreABijection(high: nat, low: nat, cp: nat)
    requires HighSurrogate(high) && LowSurrogate(low) && 0x10000 <= cp <= 0x10FFFF
    ensures SplitPair(Combine(high, low)) == (high, low)
    ensures HighSurrogate(SplitPair(cp).0) && LowSurrogate(SplitPair(cp).1)
    ensures Combine(SplitPair(cp).0, SplitPair(cp).1) == cp
  {
    var h, l := high - 0xD800, low - 0xDC00;
    assert (h * 0x400 + l) / 0x400 == h;
    assert (h * 0x400 + l) % 0x400 == l;
  }

  predicate Scalar(cp: nat) {
    cp <= 0x10FFFF && !HighSurrogate(cp) && !LowSurrogate(cp)
  }

  predicate Tail(c: char) {
    0x80 <= c as int <= 0xBF
  }

  function Low6(c: char): nat
    requires Tail(c)
  {
    c as int - 0x80
  }

  /** The first character of a byte string and its length, by the byte ranges of
      section 4 of RFC 3629. */
  function DecodeUtf8(b: string): Option<(nat, nat)> {
    if b == "" then None
    else
      var b0 := b[0] as int;
      if b0 < 0x80 then Some((b0, 1))
      else if 0xC2 <= b0 <= 0xDF then
        if |b| >= 2 && Tail(b[1]) then Some(((b0 - 0xC0) * 0x40 + Low6(b[1]), 2)) else None
      else if 0xE0 <= b0 <= 0xEF then
        if |b| >= 3 && Tail(b[1]) && Tail(b[2])
           && (b0 == 0xE0 ==> b[1] as int >= 0xA0) && (b0 == 0xED ==> b[1] as int <= 0x9F)
        then Some((((b0 - 0xE0) * 0x40 + Low6(b[1])) * 0x40 + Low6(b[2]), 3)) else None
      else if 0xF0 <= b0 <= 0xF4 then
        if |b| >= 4 && Tail(b[1]) && Tail(b[2]) && Tail(b[3])
           && (b0 == 0xF0 ==> b[1] as int >= 0x90) && (b0 == 0xF4 ==> b[1] as int <= 0x8F)
        then Some(((((b0 - 0xF0) * 0x40 + Low6(b[1])) * 0x40 + Low6(b[2])) * 0x40 + Low6(b[3]), 4)) else None
      else None
  }

  /** The bytes written for a code point decode to it exactly when it is a scalar
      value. A lone low surrogate is written too, and is not UTF-8. */
  lemma Utf8DecodesExactlyScalars(cp: nat, rest: string)
    requires cp <= 0x10FFFF
    ensures Scalar(cp) ==> DecodeUtf8(Utf8(cp) + rest) == Some((cp, |Utf8(cp)|))
    ensures !Scalar(cp) ==> DecodeUtf8(Utf8(cp) + rest) == None
  {
    if cp < 0x800 {
      assert cp / 0x40 * 0x40 + cp % 0x40 == cp;
    } else if cp < 0x10000 {
      ThreeBytes(cp, rest);
    } else {
      FourBytes(cp, rest);
    }
  }

  lemma ThreeBytes(cp: nat, rest: string)
    requires 0x800 <= cp < 0x10000
    ensures Scalar(cp) ==> DecodeUtf8(Utf8(cp) + rest) == Some((cp, 3))
    ensures !Scalar(cp) ==> DecodeUtf8(Utf8(cp) + rest) == None
  {
    var hi, mid, lo := cp / 0x1000, cp / 0x40 % 0x40, cp % 0x40;
    assert cp == (hi * 0x40 + mid) * 0x40 + lo;
    var b := Utf8(cp) + rest;
    assert b[0] == Byte(0xE0 + hi) && b[1] == Byte(0x80 + mid) && b[2] == Byte(0x80 + lo);
  }

  lemma FourBytes(cp: nat, rest: string)
    requires 0x10000 <= cp <= 0x10FFFF
    ensures DecodeUtf8(Utf8(cp) + rest) == Some((cp, 4))
  {
    var top, hi, mid, lo := cp / 0x40000, cp / 0x1000 % 0x40, cp / 0x40 % 0x40, cp % 0x40;
    assert cp == ((top * 0x40 + hi) * 0x40 + mid) * 0x40 + lo;
    var b := Utf8(cp) + rest;
    assert b[0] == Byte(0xF0 + top) && b[1] == Byte(0x80 + hi) && b[2] == Byte(0x80 + mid) && b[3] == Byte(0x80 + lo);
  }

  // ---------- the program's loops ----------

  method SkipWhitespace(json: string, start: nat) returns (found: bool, cursor: nat)
    ensures cursor == SkipSpace(json, start)
    ensures found <==> cursor < |json|
  {
    cursor := start;
    while cursor < |json|
      invariant SkipSpace(json, cursor) == SkipSpace(json, start)
    {
      if !IsSpace(json[cursor]) {
        return true, cursor;
      }
      cursor := cursor + 1;
    }
    found := false;
  }

  lemma DiffersAt(json: string, start: nat, key: string, k: nat)
    requires start + k < |json| && k < |key| && (json[start + k] != key[k] || key[k] == '\\')
    ensures !KeyAt(json, start, key)
  {
    if KeyAt(json, start, key) {
      AtIndex(json, start, key, k);
    }
  }

  method MatchesKey(json: string, start: nat, key: string) returns (matches: bool)
    ensures matches <==> KeyAt(json, start, key)
  {
    var cursor, offset := start, 0;
    while cursor < |json| && offset < |key|
      invariant 0 <= offset <= |key| && cursor == start + offset
      invariant offset > 0 ==> cursor <= |json|
      invariant forall k :: 0 <= k < offset ==> json[start + k] == key[k] && key[k] != '\\'
    {
      var character := json[cursor];
      if character == '\\' {
        DiffersAt(json, start, key, offset);
        return false;
      }
      if character != key[offset] {
        DiffersAt(json, start, key, offset);
        return false;
      }
      cursor := cursor + 1;
      offset := offset + 1;
    }
    if offset != |key| {
      return false;
    }
    matches := cursor < |json| && json[cursor] == '"';
  }

  method ParseHex4(json: string, cursor: nat) returns (value: Option<nat>)
    ensures value == Hex4(json, cursor)
  {
    if cursor + 4 > |json| {
      return None;
    }
    var v := 0;
    var offset := 0;
    while offset < 4
      invariant 0 <= offset <= 4
      invariant forall k :: cursor <= k < cursor + offset ==> IsHex(json[k])
      invariant offset == 1 ==> v == HexValue(json[cursor])
      invariant offset == 2 ==> v == HexValue(json[cursor]) * 16 + HexValue(json[cursor + 1])
      invariant offset == 3 ==> v == (HexValue(json[cursor]) * 16 + HexValue(json[cursor + 1])) * 16 + HexValue(json[cursor + 2])
      invariant offset == 0 ==> v == 0
      invariant offset == 4 ==> Hex4(json, cursor) == Some(v)
    {
      var character := json[cursor + offset];
      if '0' <= character <= '9' {
        v := v * 16 + (character as int - '0' as int);
      } else if 'a' <= character <= 'f' {
        v := v * 16 + (character as int - 'a' as int + 10);
      } else if 'A' <= character <= 'F' {
        v := v * 16 + (character as int - 'A' as int + 10);
      } else {
        assert !IsHex(json[cursor + offset]);
        return None;
      }
      offset := offset + 1;
    }
    value := Some(v);
  }

  method AppendHexCodepoint(cp: nat, out: string) returns (longer: string)
    requires cp <= 0x10FFFF
    ensures longer == out + Utf8(cp)
  {
    if cp < 0x80 {
      longer := out + [Byte(cp)];
    } else if cp < 0x800 {
      longer := out + [Byte(0xC0 + cp / 0x40)];
      longer := longer + [Byte(0x80 + cp % 0x40)];
    } else if cp < 0x10000 {
      longer := out + [Byte(0xE0 + cp / 0x1000)];
      longer := longer + [Byte(0x80 + cp / 0x40 % 0x40)];
      longer := longer + [Byte(0x80 + cp % 0x40)];
    } else {
      longer := out + [Byte(0xF0 + cp / 0x40000)];
      longer := longer + [Byte(0x80 + cp / 0x1000 % 0x40)];
      longer := longer + [Byte(0x80 + cp / 0x40 % 0x40)];
      longer := longer + [Byte(0x80 + cp % 0x40)];
    }
  }

  method FindKey(json: string, key: string) returns (after: Option<nat>)
    ensures after == Find(json, 0, 0, key)
  {
    var cursor, depth := 0, 0;
    while cursor < |json|
      invariant cursor <= |json|
      invariant Find(json, cursor, depth, key) == Find(json, 0, 0, key)
    {
      var character := json[cursor];
      if character == '{' || character == '[' {
        depth := depth + 1;
        cursor := cursor + 1;
        continue;
      }
      if character == '}' || character == ']' {
        if depth == 0 {
          return None;
        }
        depth := depth - 1;
        cursor := cursor + 1;
        continue;
      }
      if character != '"' {
        cursor := cursor + 1;
        continue;
      }
      var stringStart := cursor + 1;
      if depth == 1 {
        var matches := MatchesKey(json, stringStart, key);
        if matches {
          return Some(stringStart + |key| + 1);
        }
      }
      var scan := stringStart;
      while scan < |json| && json[scan] != '"'
        invariant stringStart <= scan <= |json|
        invariant StringEnd(json, scan) == StringEnd(json, stringStart)
      {
        if json[scan] == '\\' && scan + 1 < |json| {
          scan := scan + 2;
        } else {
          scan := scan + 1;
        }
      }
      if scan >= |json| {
        return None;
      }
      cursor := scan + 1;
    }
    after := None;
  }

  method ExtractStringFieldPartial(json: string, key: string) returns (field: Option<string>)
    ensures field == Extract(json, key)
  {
    var afterKey := FindKey(json, key);
    if afterKey.None? {
      return None;
    }
    FindBounds(json, 0, 0, key);
    var found, cursor := SkipWhitespace(json, afterKey.value);
    if !found || json[cursor] != ':' {
      return None;
    }
    found, cursor := SkipWhitespace(json, cursor + 1);
    if !found || json[cursor] != '"' {
      return None;
    }
    var out := DecodeContents(json, cursor + 1);
    field := Some(out);
  }

  /** The decoding loop of the extractor. */
  method DecodeContents(json: string, start: nat) returns (out: string)
    requires start <= |json|
    ensures out == Contents(json, start)
  {
    var cursor := start;
    out := "";
    while cursor < |json|
      invariant start <= cursor <= |json|
      invariant out + Contents(json, cursor) == Contents(json, start)
    {
      var unit := DecodeUnit(json, cursor);
      if unit.Stop? {
        return;
      }
      assert out + (unit.bytes + Contents(json, unit.next)) == out + unit.bytes + Contents(json, unit.next);
      out := out + unit.bytes;
      cursor := unit.next;
    }
  }

  /** One turn of the decoding loop: a plain byte, or the switch over an escape. */
  method DecodeUnit(json: string, cursor: nat) returns (unit: Unit)
    requires cursor < |json|
    ensures unit == UnitAt(json, cursor)
  {
    var character := json[cursor];
    if character == '"' {
      return Stop;
    }
    if character != '\\' {
      return Unit([character], cursor + 1);
    }
    if cursor + 1 >= |json| {
      return Stop;
    }
    var escape := JsonEscape(json[cursor + 1]);
    if escape.Some? {
      return Unit([escape.value], cursor + 2);
    }
    if json[cursor + 1] != 'u' {
      return Stop;
    }
    var first := ParseHex4(json, cursor + 2);
    if first.None? {
      return Stop;
    }
    var codePoint := first.value;
    var next := cursor + 6;
    if 0xD800 <= codePoint <= 0xDBFF {
      if next + 6 > |json| || json[next] != '\\' || json[next + 1] != 'u' {
        return Stop;
      }
      var second := ParseHex4(json, next + 2);
      if second.None? || second.value < 0xDC00 || second.value > 0xDFFF {
        return Stop;
      }
      codePoint := 0x10000 + (codePoint - 0xD800) * 0x400 + (second.value - 0xDC00);
      next := next + 6;
    }
    var bytes := AppendHexCodepoint(codePoint, "");
    unit := Unit(bytes, next);
  }
}
