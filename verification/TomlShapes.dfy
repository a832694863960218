/** Which lines the editor takes for headers and assignments, spelled out. */
module TomlShapes {
  import opened Ascii
  import opened Numerals
  import opened Strings
  import opened TomlLines
  import opened TomlSyntax

  predicate Spaces(s: string) {
    forall c :: c in s ==> IsSpace(c)
  }

  /** No blanks at either end. */
  predicate Bare(s: string) {
    s != "" ==> !IsSpace(s[0]) && !IsSpace(s[|s| - 1])
  }

  // ---------- trimming ----------

  lemma {:induction false} LeftSplit(s: string) returns (k: nat)
    ensures k <= |s| && Spaces(s[..k]) && TrimLeft(s) == s[k..]
    decreases |s|
  {
    if s != "" && IsSpace(s[0]) {
      var j := LeftSplit(s[1..]);
      k := j + 1;
      assert s[..k] == [s[0]] + s[1..][..j];
    } else {
      k := 0;
    }
  }

  lemma {:induction false} RightSplit(s: string) returns (k: nat)
    ensures k <= |s| && Spaces(s[k..]) && TrimRight(s) == s[..k]
    ensures TrimRight(s) != "" ==> !IsSpace(s[k - 1])
    decreases |s|
  {
    if s != "" && IsSpace(s[|s| - 1]) {
      var front := s[..|s| - 1];
      k := RightSplit(front);
      MoreSpaces(s, k);
    } else {
      k := |s|;
      assert s[..k] == s;
    }
  }

  lemma MoreSpaces(s: string, k: nat)
    requires k < |s| && IsSpace(s[|s| - 1]) && Spaces(s[..|s| - 1][k..])
    ensures Spaces(s[k..]) && s[..|s| - 1][..k] == s[..k]
  {
    var front := s[..|s| - 1];
    hide IsSpace;
    assert s[k..] == front[k..] + [s[|s| - 1]];
  }

  lemma {:induction false} LeftOf(w: string, t: string)
    requires Spaces(w) && (t != "" ==> !IsSpace(t[0]))
    ensures TrimLeft(w + t) == t
    decreases |w|
  {
    if w == "" {
      assert w + t == t;
    } else {
      assert w[0] in w && (w + t)[0] == w[0];
      assert (w + t)[1..] == w[1..] + t;
      LeftOf(w[1..], t);
    }
  }

  lemma {:induction false} RightOf(t: string, w: string)
    requires Spaces(w) && (t != "" ==> !IsSpace(t[|t| - 1]))
    ensures TrimRight(t + w) == t
    decreases |w|
  {
    if w == "" {
      assert t + w == t;
    } else {
      var n := |w| - 1;
      assert w[n] in w && (t + w)[|t + w| - 1] == w[n];
      assert (t + w)[..|t + w| - 1] == t + w[..n];
      RightOf(t, w[..n]);
    }
  }

  /** What is left of a line is what stands between its outer blanks. */
  lemma TrimIs(w: string, t: string, w': string)
    requires Spaces(w) && Spaces(w') && Bare(t)
    ensures Trim(w + t + w') == t
  {
    if t == "" {
      assert w + t + w' == (w + w') + "";
      LeftOf(w + w', "");
    } else {
      assert w + t + w' == w + (t + w');
      LeftOf(w, t + w');
      RightOf(t, w');
    }
  }

  lemma TrimSplit(s: string) returns (w: string, w': string)
    ensures Spaces(w) && Spaces(w') && s == w + Trim(s) + w' && Bare(Trim(s))
  {
    var k := LeftSplit(s);
    var n := RightSplit(s[k..]);
    w, w' := s[..k], s[k..][n..];
    InThree(s, k, n);
    hide TrimLeft, TrimRight, Spaces;
    if Trim(s) != "" {
      assert s[k..][..n][0] == s[k..][0];
    }
  }

  lemma InThree(s: string, k: nat, n: nat)
    requires k <= |s| && n <= |s[k..]|
    ensures s == s[..k] + s[k..][..n] + s[k..][n..]
  {}

  // ---------- what may follow ----------

  /** Blanks, or a comment behind them. */
  ghost predicate Remark(s: string) {
    exists w, rest :: Spaces(w) && (s == w || s == w + ("#" + rest))
  }

  lemma RemarkIsBlankOrComment(s: string)
    ensures Remark(s) <==> BlankOrComment(s)
  {
    if BlankOrComment(s) {
      var w, w' := TrimSplit(s);
      if Trim(s) == "" {
        assert s == w + w';
        assert Spaces(s) && s == s;
      } else {
        var rest := Trim(s)[1..] + w';
        assert s == w + ("#" + rest);
      }
    }
    if Remark(s) {
      var w, rest :| Spaces(w) && (s == w || s == w + ("#" + rest));
      hide Remark, TrimRight, TrimLeft;
      if s == w {
        assert w + "" + "" == s;
        TrimIs(w, "", "");
      } else {
        LeftOf(w, "#" + rest);
        TheHashStays(rest);
      }
    }
  }

  lemma TheHashStays(rest: string)
    ensures var t := TrimRight("#" + rest); t != "" && t[0] == '#'
  {
    var l := "#" + rest;
    var k := RightSplit(l);
    NotAllSpaces(l);
    assert l[0..] == l;
    hide TrimRight;
  }

  lemma NotAllSpaces(s: string)
    requires s != "" && !IsSpace(s[0])
    ensures !Spaces(s)
  {
    assert s[0] in s;
  }

  lemma RemarkBeforeBlanks(s: string, w': string)
    requires Spaces(w')
    ensures Remark(s + w') <==> Remark(s)
  {
    RemarkIsBlankOrComment(s + w');
    RemarkIsBlankOrComment(s);
    SameTrim(s, w');
    hide Remark;
  }

  lemma SameTrim(s: string, w': string)
    requires Spaces(w')
    ensures Trim(s + w') == Trim(s)
  {
    var w, w'' := TrimSplit(s);
    var t := Trim(s);
    assert s + w' == w + t + (w'' + w');
    TrimIs(w, t, w'' + w');
  }

  // ---------- headers ----------

  /** `part` does not begin in `s` before its end. */
  predicate FirstBehind(s: string, part: string) {
    forall i :: 0 <= i < |s| ==> !(part <= (s + part)[i..])
  }

  lemma {:induction false} FindIsFirst(s: string, part: string)
    requires Find(s, part).Some?
    ensures forall i :: 0 <= i < Find(s, part).value ==> !(part <= s[i..])
    decreases |s|
  {
    if !(part <= s) && s != "" {
      FindIsFirst(s[1..], part);
      forall i | 0 <= i < Find(s, part).value
        ensures !(part <= s[i..])
      {
        if i > 0 {
          assert s[i..] == s[1..][i - 1..];
        }
      }
    }
  }

  lemma {:induction false} FindIs(s: string, part: string, r: nat)
    requires r <= |s| && part <= s[r..] && forall i :: 0 <= i < r ==> !(part <= s[i..])
    ensures Find(s, part) == Some(r)
    decreases |s|
  {
    if r == 0 {
      assert s[0..] == s;
    } else {
      assert s[0..] == s && !(part <= s[0..]);
      assert s[1..][r - 1..] == s[r..];
      forall i | 0 <= i < r - 1
        ensures !(part <= s[1..][i..])
      {
        assert s[1..][i..] == s[i + 1..];
      }
      FindIs(s[1..], part, r - 1);
    }
  }

  /** Between blanks and a remark the line is a name in brackets, with blanks around it. */
  ghost predicate Header(line: string, open: string, close: string, name: string) {
    exists w, a, b, rest ::
      && Spaces(w) && Spaces(a) && Spaces(b) && Bare(name) && Remark(rest)
      && FirstBehind(a + name + b, close)
      && line == w + (open + (a + name + b) + close) + rest
  }

  lemma PrefixOfMore(part: string, x: string, y: string)
    requires |part| <= |x|
    ensures part <= x + y <==> part <= x
  {}

  lemma InnerAndClose(l: string, open: nat, c: nat, close: string, i: nat)
    requires open + i <= c && c + |close| <= |l| && l[c..c + |close|] == close
    ensures l[open + i..] == (l[open..c] + close)[i..] + l[c + |close|..]
  {}

  lemma FirstInside(l: string, open: nat, c: nat, close: string)
    requires open <= c && c + |close| <= |l| && l[c..c + |close|] == close
    requires forall i :: 0 <= i < c ==> !(close <= l[i..])
    ensures FirstBehind(l[open..c], close)
  {
    var inner := l[open..c];
    forall i | 0 <= i < |inner|
      ensures !(close <= (inner + close)[i..])
    {
      InnerAndClose(l, open, c, close, i);
      PrefixOfMore(close, (inner + close)[i..], l[c + |close|..]);
      assert !(close <= l[open + i..]);
    }
  }

  lemma IsHeader(line: string, open: string, close: string, name: string, w: string, a: string, b: string, rest: string)
    requires Spaces(w) && Spaces(a) && Spaces(b) && Bare(name) && Remark(rest)
    requires FirstBehind(a + name + b, close) && line == w + (open + (a + name + b) + close) + rest
    ensures Header(line, open, close, name)
  {}

  lemma Reassoc(w: string, body: string, rest: string, w': string)
    ensures w + (body + rest) + w' == w + body + (rest + w')
  {}

  /** What the recognisers look at, in a line without outer blanks. */
  predicate Recognised(l: string, open: string, close: string, name: string) {
    && open <= l && Find(l, close).Some? && |open| <= Find(l, close).value
    && BlankOrComment(l[Find(l, close).value + |close|..])
    && Trim(l[|open|..Find(l, close).value]) == name
  }

  lemma IsRecognised(l: string, open: string, inner: string, close: string, tail: string, name: string)
    requires l == open + inner + close + tail && Find(l, close) == Some(|open| + |inner|)
    requires BlankOrComment(tail) && Trim(inner) == name
    ensures Recognised(l, open, close, name)
  {
    hide Find, BlankOrComment, Trim;
    Slices(open, inner, close, tail);
  }

  /** What the recognisers look at makes the line a header. */
  lemma RecognisedIsHeader(line: string, open: string, close: string)
    requires var l := Trim(line);
             && open <= l && Find(l, close).Some? && Find(l, close).value >= |open|
             && BlankOrComment(l[Find(l, close).value + |close|..])
    ensures var l := Trim(line); Header(line, open, close, Trim(l[|open|..Find(l, close).value]))
  {
    hide *;
    var l := Trim(line);
    var c := Find(l, close).value;
    FindIsFirst(l, close);
    FirstInside(l, |open|, c, close);
    var w, w' := TrimSplit(line);
    var inner, rest := l[|open|..c], l[c + |close|..];
    var a, b := TrimSplit(inner);
    RemarkIsBlankOrComment(rest);
    RemarkBeforeBlanks(rest, w');
    Pieces(l, open, close, c);
    Reassoc(w, open + inner + close, rest, w');
    IsHeader(line, open, close, Trim(inner), w, a, b, rest + w');
  }

  lemma Pieces(l: string, open: string, close: string, c: nat)
    requires open <= l && |open| <= c && c + |close| <= |l| && l[c..c + |close|] == close
    ensures l == (open + l[|open|..c] + close) + l[c + |close|..]
  {}

  lemma {:induction false} TrimRightBehind(x: string, y: string)
    requires x != "" && !IsSpace(x[|x| - 1])
    ensures TrimRight(x + y) == x + TrimRight(y)
    decreases |y|
  {
    if y == "" {
      assert x + y == x && x + TrimRight(y) == x;
    } else {
      var n := |y| - 1;
      assert (x + y)[|x + y| - 1] == y[n] && (x + y)[..|x + y| - 1] == x + y[..n];
      TrimRightBehind(x, y[..n]);
    }
  }

  /** Trimming a header leaves it and the remark. */
  lemma TrimmedHeader(w: string, body: string, rest: string)
    requires Spaces(w) && body != "" && !IsSpace(body[0]) && !IsSpace(body[|body| - 1])
    ensures Trim(w + body + rest) == body + TrimRight(rest)
    ensures BlankOrComment(rest) <==> BlankOrComment(TrimRight(rest))
  {
    assert w + body + rest == w + (body + rest);
    LeftOf(w, body + rest);
    TrimRightBehind(body, rest);
    var k := RightSplit(rest);
    assert rest == rest[..k] + rest[k..];
    SameTrim(rest[..k], rest[k..]);
  }

  lemma ClosesThere(open: string, inner: string, close: string, rest: string)
    requires close != "" && close[0] !in open && FirstBehind(inner, close)
    ensures Find(open + inner + close + rest, close) == Some(|open| + |inner|)
  {
    var l, c := open + inner + close + rest, |open| + |inner|;
    assert l[c..] == close + rest;
    forall i | 0 <= i < c
      ensures !(close <= l[i..])
    {
      if i < |open| {
        assert l[i..][0] == open[i];
      } else {
        var j := i - |open|;
        assert l[i..] == (inner + close)[j..] + rest;
        PrefixOfMore(close, (inner + close)[j..], rest);
      }
    }
    FindIs(l, close, c);
  }

  lemma Slices(open: string, inner: string, close: string, tail: string)
    ensures var l := open + inner + close + tail;
            && open <= l && l[|open|..|open| + |inner|] == inner
            && l[|open| + |inner| + |close|..] == tail
  {}

  lemma Ends(open: string, inner: string, close: string)
    requires open != "" && close != ""
    ensures var body := open + inner + close;
            body != "" && body[0] == open[0] && body[|body| - 1] == close[|close| - 1]
  {}

  lemma WrittenHeaderIsRecognised(open: string, close: string, name: string, w: string, a: string, b: string, rest: string)
    requires Spaces(w) && Spaces(a) && Spaces(b) && Bare(name) && Remark(rest) && FirstBehind(a + name + b, close)
    requires open != "" && close != "" && close[0] !in open && !IsSpace(open[0]) && !IsSpace(close[|close| - 1])
    ensures Recognised(Trim(w + (open + (a + name + b) + close) + rest), open, close, name)
  {
    hide *;
    var inner := a + name + b;
    var body := open + inner + close;
    Ends(open, inner, close);
    RemarkIsBlankOrComment(rest);
    TrimmedHeader(w, body, rest);
    ClosesThere(open, inner, close, TrimRight(rest));
    TrimIs(a, name, b);
    IsRecognised(Trim(w + body + rest), open, inner, close, TrimRight(rest), name);
  }

  /** A header is recognised, with its name. */
  lemma HeaderIsRecognised(line: string, open: string, close: string, name: string)
    requires Header(line, open, close, name)
    requires open != "" && close != "" && close[0] !in open && !IsSpace(open[0]) && !IsSpace(close[|close| - 1])
    ensures Recognised(Trim(line), open, close, name)
  {
    var w, a, b, rest :|
      && Spaces(w) && Spaces(a) && Spaces(b) && Bare(name) && Remark(rest)
      && FirstBehind(a + name + b, close)
      && line == w + (open + (a + name + b) + close) + rest;
    WrittenHeaderIsRecognised(open, close, name, w, a, b, rest);
    hide *;
  }

  /** A line is taken for a `[name]` header exactly if, between blanks and a remark, it is
      a name in single brackets. */
  lemma TableHeadersExactly(line: string, name: string)
    ensures TableHeader(line) == Some(name) <==> Header(line, "[", "]", name) && !("[[" <= Trim(line))
  {
    hide Header, Trim, Find, BlankOrComment;
    var l := Trim(line);
    if TableHeader(line) == Some(name) {
      assert "[" <= l;
      RecognisedIsHeader(line, "[", "]");
    }
    if Header(line, "[", "]", name) && !("[[" <= l) {
      HeaderIsRecognised(line, "[", "]", name);
    }
  }

  /** And for a `[[name]]` header exactly if it is one in double brackets. */
  lemma ArrayHeadersExactly(line: string, name: string)
    ensures ArrayHeader(line) == Some(name) <==> Header(line, "[[", "]]", name)
  {
    hide Header, Trim, Find, BlankOrComment;
    if ArrayHeader(line) == Some(name) {
      RecognisedIsHeader(line, "[[", "]]");
    }
    if Header(line, "[[", "]]", name) {
      HeaderIsRecognised(line, "[[", "]]", name);
    }
  }

  /** Between blanks, the key and an equals sign. */
  ghost predicate Assigns(line: string, key: string) {
    exists w, v, rest :: Spaces(w) && Spaces(v) && line == w + (key + (v + ("=" + rest)))
  }

  lemma RecognisedAssigns(line: string, key: string)
    requires IsAssignment(line, key)
    ensures Assigns(line, key)
  {
    var k := LeftSplit(line);
    var l := line[k..];
    var n := LeftSplit(l[|key|..]);
    var v, rest := l[|key|..][..n], l[|key|..][n..];
    hide *;
    AtItsPlace(l, key);
    CutAt(l[|key|..], n);
    CutAt(line, k);
    AtItsPlace(rest, "=");
    ItAssigns(line, key, line[..k], v, rest[1..]);
  }

  lemma CutAt(s: string, k: nat)
    requires k <= |s|
    ensures s == s[..k] + s[k..]
  {}

  lemma AtItsPlace(s: string, start: string)
    requires start <= s
    ensures s == start + s[|start|..]
  {}

  lemma ItAssigns(line: string, key: string, w: string, v: string, rest: string)
    requires Spaces(w) && Spaces(v) && line == w + (key + (v + ("=" + rest)))
    ensures Assigns(line, key)
  {}

  lemma WrittenAssignment(key: string, w: string, v: string, rest: string)
    requires key != "" && !IsSpace(key[0]) && key[0] != '#' && Spaces(w) && Spaces(v)
    ensures IsAssignment(w + (key + (v + ("=" + rest))), key)
  {
    LeftOf(w, key + (v + ("=" + rest)));
    LeftOf(v, "=" + rest);
    hide TrimLeft, Spaces;
    assert (key + (v + ("=" + rest)))[|key|..] == v + ("=" + rest);
  }

  /** A line is taken for an assignment of a key exactly if it is the key and an equals
      sign, with blanks before either and anything behind. */
  lemma AssignmentsExactly(line: string, key: string)
    requires key != "" && !IsSpace(key[0]) && key[0] != '#'
    ensures IsAssignment(line, key) <==> Assigns(line, key)
  {
    if IsAssignment(line, key) {
      RecognisedAssigns(line, key);
    }
    if Assigns(line, key) {
      var w, v, rest :| Spaces(w) && Spaces(v) && line == w + (key + (v + ("=" + rest)));
      WrittenAssignment(key, w, v, rest);
    }
    hide IsAssignment, Assigns;
  }
}
