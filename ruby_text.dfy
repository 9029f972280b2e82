/** The Ruby string operations the CLI relies on: String#strip (applied to
    every captured engine reply), String#lines and String#split(/\s+/)
    (used to read the `docker images` listing), and the `^prefix` match. */
module RubyText {

  /** Whitespace in the sense of Ruby's `\s` and of String#strip:
      space, tab, line feed, vertical tab, form feed, carriage return. */
  predicate IsSpace(c: char) {
    c == ' ' || c == '\t' || c == '\n' || c == '\U{B}' || c == '\U{C}' || c == '\r'
  }

  predicate AllSpace(s: string) {
    forall i :: 0 <= i < |s| ==> IsSpace(s[i])
  }

  predicate NoSpace(s: string) {
    forall i :: 0 <= i < |s| ==> !IsSpace(s[i])
  }

  /** `s =~ /^prefix/` for a string without line breaks. */
  predicate StartsWith(s: string, prefix: string) {
    |prefix| <= |s| && s[..|prefix|] == prefix
  }

  // ---------------------------------------------------------------- strip

  /** String#lstrip: drops the leading whitespace. */
  function TrimLeft(s: string): string {
    if |s| > 0 && IsSpace(s[0]) then TrimLeft(s[1..]) else s
  }

  /** String#rstrip: drops the trailing whitespace. */
  function TrimRight(s: string): string {
    if |s| > 0 && IsSpace(s[|s| - 1]) then TrimRight(s[..|s| - 1]) else s
  }

  /** String#strip */
  function Strip(s: string): string {
    TrimRight(TrimLeft(s))
  }

  /** lstrip removes a whitespace prefix and stops at the first other character. */
  lemma {:induction false} TrimLeftDrops(s: string)
    ensures var r := TrimLeft(s);
      && |r| <= |s| && r == s[|s| - |r|..]
      && AllSpace(s[..|s| - |r|])
      && (r == [] || !IsSpace(r[0]))
  {
    if |s| > 0 && IsSpace(s[0]) {
      TrimLeftDrops(s[1..]);
      var r := TrimLeft(s);
      assert s[..|s| - |r|] == [s[0]] + s[1..][..|s| - 1 - |r|];
    }
  }

  /** rstrip removes a whitespace suffix and stops at the last other character. */
  lemma {:induction false} TrimRightDrops(s: string)
    ensures var r := TrimRight(s);
      && |r| <= |s| && r == s[..|r|]
      && AllSpace(s[|r|..])
      && (r == [] || !IsSpace(r[|r| - 1]))
  {
    if |s| > 0 && IsSpace(s[|s| - 1]) {
      var t := s[..|s| - 1];
      TrimRightDrops(t);
      var r := TrimRight(s);
      assert s[|r|..] == t[|r|..] + [s[|s| - 1]];
    }
  }

  /** The result of strip is the input with whitespace removed from both
      ends, and neither starts nor ends with whitespace. */
  lemma StripEdges(s: string)
    ensures var r := Strip(s);
      && |r| <= |s|
      && (r == [] || (!IsSpace(r[0]) && !IsSpace(r[|r| - 1])))
  {
    TrimLeftDrops(s);
    TrimRightDrops(TrimLeft(s));
  }

  lemma {:induction false} TrimLeftPadded(lead: string, rest: string)
    requires AllSpace(lead) && (rest == [] || !IsSpace(rest[0]))
    ensures TrimLeft(lead + rest) == rest
  {
    if lead == [] {
      assert lead + rest == rest;
    } else {
      assert (lead + rest)[1..] == lead[1..] + rest;
      TrimLeftPadded(lead[1..], rest);
    }
  }

  lemma {:induction false} TrimRightPadded(rest: string, trail: string)
    requires AllSpace(trail) && (rest == [] || !IsSpace(rest[|rest| - 1]))
    ensures TrimRight(rest + trail) == rest
  {
    if trail == [] {
      assert rest + trail == rest;
    } else {
      var t := trail[..|trail| - 1];
      assert (rest + trail)[..|rest + trail| - 1] == rest + t;
      TrimRightPadded(rest, t);
    }
  }

  /** Strip undoes any whitespace padding: a container id printed by the
      engine with a trailing newline comes back as the id itself. */
  lemma StripPadded(lead: string, w: string, trail: string)
    requires AllSpace(lead) && AllSpace(trail)
    requires w == [] || (!IsSpace(w[0]) && !IsSpace(w[|w| - 1]))
    ensures Strip(lead + w + trail) == w
  {
    if w == [] {
      assert lead + w + trail == lead + trail;
      TrimLeftPadded(lead + trail, []);
      assert lead + trail + [] == lead + trail;
    } else {
      assert lead + w + trail == lead + (w + trail);
      TrimLeftPadded(lead, w + trail);
      TrimRightPadded(w, trail);
    }
  }

  // ---------------------------------------------------------------- lines

  /** Index just past the first line feed of s, or |s| when there is none. */
  function LineEnd(s: string): (k: nat)
    ensures k <= |s| && (s != [] ==> k > 0)
    ensures forall i :: 0 <= i < k - 1 ==> s[i] != '\n'
    ensures k == |s| || s[k - 1] == '\n'
  {
    if s == [] then 0 else if s[0] == '\n' then 1 else 1 + LineEnd(s[1..])
  }

  /** String#lines: the pieces of s, each ending just after a line feed,
      except possibly the last one. */
  function Lines(s: string): (r: seq<string>)
    ensures forall i :: 0 <= i < |r| ==> r[i] != []
    decreases |s|
  {
    if s == [] then [] else [s[..LineEnd(s)]] + Lines(s[LineEnd(s)..])
  }

  function Concat(ls: seq<string>): string {
    if ls == [] then [] else ls[0] + Concat(ls[1..])
  }

  /** Lines loses nothing: joining the lines gives back the text. */
  lemma {:induction false} LinesConcat(s: string)
    ensures Concat(Lines(s)) == s
    decreases |s|
  {
    if s != [] {
      var k := LineEnd(s);
      LinesConcat(s[k..]);
      assert Lines(s)[1..] == Lines(s[k..]);
      assert s == s[..k] + s[k..];
    }
  }

  function Terminated(ls: seq<string>): (r: seq<string>)
    ensures |r| == |ls|
  {
    if ls == [] then [] else [ls[0] + "\n"] + Terminated(ls[1..])
  }

  function Unlines(ls: seq<string>): string {
    if ls == [] then [] else ls[0] + "\n" + Unlines(ls[1..])
  }

  lemma {:induction false} LineEndAfter(line: string, rest: string)
    requires '\n' !in line
    ensures LineEnd(line + "\n" + rest) == |line| + 1
  {
    if line != [] {
      assert (line + "\n" + rest)[1..] == line[1..] + "\n" + rest;
      LineEndAfter(line[1..], rest);
    }
  }

  /** Lines is the inverse of writing one line-feed terminated line per row. */
  lemma {:induction false} LinesOfUnlines(ls: seq<string>)
    requires forall i :: 0 <= i < |ls| ==> '\n' !in ls[i]
    ensures Lines(Unlines(ls)) == Terminated(ls)
  {
    if ls != [] {
      var s := Unlines(ls);
      var rest := Unlines(ls[1..]);
      assert s == ls[0] + "\n" + rest;
      LineEndAfter(ls[0], rest);
      assert s[..|ls[0]| + 1] == ls[0] + "\n";
      assert s[|ls[0]| + 1..] == rest;
      LinesOfUnlines(ls[1..]);
    }
  }

  // ---------------------------------------------------------------- split

  /** Index of the first whitespace character of s, or |s|. */
  function WordEnd(s: string): (k: nat)
    ensures k <= |s|
    ensures NoSpace(s[..k])
    ensures k == |s| || IsSpace(s[k])
  {
    if s == [] || IsSpace(s[0]) then 0 else 1 + WordEnd(s[1..])
  }

  /** The maximal runs of non-whitespace characters of s, in order. */
  function Words(s: string): (r: seq<string>)
    ensures forall i :: 0 <= i < |r| ==> r[i] != [] && NoSpace(r[i])
    decreases |s|
  {
    if s == [] then []
    else if IsSpace(s[0]) then Words(s[1..])
    else
      var k := WordEnd(s);
      assert k > 0;
      [s[..k]] + Words(s[k..])
  }

  /** `line.split(/\s+/)`: the whitespace-separated fields; a line that
      starts with whitespace yields a leading empty field, and trailing
      empty fields are dropped. */
  function Fields(line: string): (r: seq<string>)
    ensures forall i :: 0 <= i < |r| ==> NoSpace(r[i])
    ensures forall i :: 0 < i < |r| ==> r[i] != []
    ensures r != [] && r[0] == [] ==> |line| > 0 && IsSpace(line[0])
  {
    (if |line| > 0 && IsSpace(line[0]) && Words(line) != [] then [""] else []) + Words(line)
  }

  /** `fields[i]`, where Ruby's nil for a missing column is read as "". */
  function Column(fields: seq<string>, i: nat): string {
    if i < |fields| then fields[i] else ""
  }

  predicate IsWord(w: string) {
    w != [] && NoSpace(w)
  }

  /** The blanks between two columns of a listing: a non-empty run of
      whitespace within the line. */
  predicate IsGap(g: string) {
    g != [] && AllSpace(g) && '\n' !in g
  }

  /** The columns written one after another, `gaps[i]` between column i
      and column i + 1. */
  function Joined(cols: seq<string>, gaps: seq<string>): string
    requires cols != [] && |gaps| == |cols| - 1
    decreases |cols|
  {
    if |cols| == 1 then cols[0] else cols[0] + gaps[0] + Joined(cols[1..], gaps[1..])
  }

  lemma {:induction false} WordEndOfWord(w: string, t: string)
    requires NoSpace(w) && (t == [] || IsSpace(t[0]))
    ensures WordEnd(w + t) == |w|
  {
    if w == [] {
      assert w + t == t;
    } else {
      assert (w + t)[1..] == w[1..] + t;
      WordEndOfWord(w[1..], t);
    }
  }

  lemma {:induction false} WordsOfSpaces(s: string)
    requires AllSpace(s)
    ensures Words(s) == []
  {
    if s != [] { WordsOfSpaces(s[1..]); }
  }

  /** Leading whitespace does not change the words. */
  lemma {:induction false} WordsAfterSpaces(sp: string, t: string)
    requires AllSpace(sp)
    ensures Words(sp + t) == Words(t)
  {
    if sp == [] {
      assert sp + t == t;
    } else {
      assert (sp + t)[1..] == sp[1..] + t;
      WordsAfterSpaces(sp[1..], t);
    }
  }

  lemma {:induction false} WordsOfJoined(cols: seq<string>, gaps: seq<string>, tail: string)
    requires cols != [] && |gaps| == |cols| - 1
    requires forall i :: 0 <= i < |cols| ==> IsWord(cols[i])
    requires forall i :: 0 <= i < |gaps| ==> IsGap(gaps[i])
    requires AllSpace(tail)
    ensures Words(Joined(cols, gaps) + tail) == cols
    decreases |cols|
  {
    var w := cols[0];
    if |cols| == 1 {
      var s := w + tail;
      WordEndOfWord(w, tail);
      assert s[..|w|] == w;
      assert s[|w|..] == tail;
      WordsOfSpaces(tail);
    } else {
      var g := gaps[0];
      var rest := Joined(cols[1..], gaps[1..]) + tail;
      var s := w + (g + rest);
      assert Joined(cols, gaps) + tail == s;
      assert IsGap(g);
      WordEndOfWord(w, g + rest);
      assert s[..|w|] == w;
      assert s[|w|..] == g + rest;
      WordsAfterSpaces(g, rest);
      WordsOfJoined(cols[1..], gaps[1..], tail);
      assert cols == [w] + cols[1..];
    }
  }

  lemma {:induction false} JoinedHead(cols: seq<string>, gaps: seq<string>)
    requires cols != [] && |gaps| == |cols| - 1 && cols[0] != []
    ensures Joined(cols, gaps)[0] == cols[0][0]
  {
    if |cols| > 1 {
      assert Joined(cols, gaps) == cols[0] + (gaps[0] + Joined(cols[1..], gaps[1..]));
    }
  }

  /** Splitting a row of columns separated by runs of blanks, with any
      blanks before its line feed, gives back exactly its columns, as
      `split(/\s+/)` does on a column-aligned listing. */
  lemma FieldsOfRow(cols: seq<string>, gaps: seq<string>, trail: string)
    requires cols != [] && |gaps| == |cols| - 1
    requires forall i :: 0 <= i < |cols| ==> IsWord(cols[i])
    requires forall i :: 0 <= i < |gaps| ==> IsGap(gaps[i])
    requires AllSpace(trail)
    ensures Fields(Joined(cols, gaps) + trail + "\n") == cols
  {
    var s := Joined(cols, gaps) + (trail + "\n");
    assert AllSpace(trail + "\n");
    assert Joined(cols, gaps) + trail + "\n" == s;
    WordsOfJoined(cols, gaps, trail + "\n");
    assert IsWord(cols[0]);
    JoinedHead(cols, gaps);
    assert !IsSpace(s[0]);
    assert Fields(s) == [] + Words(s);
  }

  /** A row written from words and gaps holds no line feed. */
  lemma {:induction false} JoinedNoNewline(cols: seq<string>, gaps: seq<string>)
    requires cols != [] && |gaps| == |cols| - 1
    requires forall i :: 0 <= i < |cols| ==> IsWord(cols[i])
    requires forall i :: 0 <= i < |gaps| ==> IsGap(gaps[i])
    ensures '\n' !in Joined(cols, gaps)
    decreases |cols|
  {
    assert IsWord(cols[0]);
    assert '\n' !in cols[0] by {
      forall i | 0 <= i < |cols[0]| ensures cols[0][i] != '\n' {
        assert !IsSpace(cols[0][i]);
      }
    }
    if |cols| > 1 {
      assert IsGap(gaps[0]);
      JoinedNoNewline(cols[1..], gaps[1..]);
    }
  }
}
