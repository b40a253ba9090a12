// Python string operations used by the formatter, and the reading of a text as
// visible cells: what a SQL text says once the amount of whitespace is ignored.
module Text {

  // ---------------------------------------------------------------------
  // Characters
  // ---------------------------------------------------------------------

  // Whitespace in the sense of Python's str.isspace / str.split.
  predicate IsSpace(c: char) {
    || '\t' <= c <= '\r'
    || '\U{1c}' <= c <= ' '
    || c == '\U{85}' || c == '\U{a0}' || c == '\U{1680}'
    || '\U{2000}' <= c <= '\U{200a}'
    || c == '\U{2028}' || c == '\U{2029}' || c == '\U{202f}' || c == '\U{205f}' || c == '\U{3000}'
  }

  // The code points of whitespace, one by one.
  const SPACES := {9, 10, 11, 12, 13, 28, 29, 30, 31, 32, 133, 160, 5760, 8192, 8193, 8194, 8195, 8196, 8197, 8198,
    8199, 8200, 8201, 8202, 8232, 8233, 8239, 8287, 12288}

  lemma SpaceIs(c: char)
    ensures IsSpace(c) <==> c as int in SPACES
  {
  }

  // Upper and lower case of the ASCII letters; other characters have no case here.
  function Up(c: char): (u: char)
    ensures IsSpace(u) <==> IsSpace(c)
    ensures !('a' <= u <= 'z')
  {
    if 'a' <= c <= 'z' then (c as int - 32) as char else c
  }

  function Low(c: char): (l: char)
    ensures IsSpace(l) <==> IsSpace(c)
    ensures Up(l) == Up(c)
  {
    if 'A' <= c <= 'Z' then (c as int + 32) as char else c
  }

  // Two characters have the same capital only if they are the same letter.
  lemma CaseOnly(c: char, d: char)
    ensures Up(c) == Up(d) <==>
      || c == d
      || ('a' <= c <= 'z' && d as int == c as int - 32)
      || ('A' <= c <= 'Z' && d as int == c as int + 32)
    ensures Low(c) == Low(d) <==> Up(c) == Up(d)
  {
  }

  function Upper(s: string): (r: string)
    ensures |r| == |s|
  {
    seq(|s|, i requires 0 <= i < |s| => Up(s[i]))
  }

  function Lower(s: string): (r: string)
    ensures |r| == |s|
  {
    seq(|s|, i requires 0 <= i < |s| => Low(s[i]))
  }

  // ---------------------------------------------------------------------
  // Python helpers
  // ---------------------------------------------------------------------

  function Spaces(n: nat): (r: string)
    ensures |r| == n
    ensures forall i :: 0 <= i < n ==> r[i] == ' '
  {
    seq(n, _ => ' ')
  }

  predicate Blank(s: string) {
    forall i :: 0 <= i < |s| ==> IsSpace(s[i])
  }

  function TrimLeft(s: string): (r: string)
    ensures |r| <= |s|
    ensures r != "" ==> !IsSpace(r[0])
  {
    if s != "" && IsSpace(s[0]) then TrimLeft(s[1..]) else s
  }

  function TrimRight(s: string): (r: string)
    ensures |r| <= |s|
    ensures r != "" ==> !IsSpace(r[|r| - 1])
  {
    if s != "" && IsSpace(s[|s| - 1]) then TrimRight(s[..|s| - 1]) else s
  }

  function Strip(s: string): string {
    TrimRight(TrimLeft(s))
  }

  // Length of the leading run of non-whitespace characters.
  function WordLength(s: string): (n: nat)
    ensures n <= |s|
    ensures forall i :: 0 <= i < n ==> !IsSpace(s[i])
    ensures n < |s| ==> IsSpace(s[n])
  {
    if s == "" || IsSpace(s[0]) then 0 else 1 + WordLength(s[1..])
  }

  // s.split()
  function Words(s: string): seq<string>
    decreases |s|
  {
    var t := TrimLeft(s);
    if t == "" then []
    else
      var n := WordLength(t);
      [t[..n]] + Words(t[n..])
  }

  // sep.join(xs)
  function Join(sep: string, xs: seq<string>): string {
    if xs == [] then ""
    else if |xs| == 1 then xs[0]
    else xs[0] + sep + Join(sep, xs[1..])
  }

  function Concat(xs: seq<string>): string {
    if xs == [] then "" else Concat(xs[..|xs| - 1]) + xs[|xs| - 1]
  }

  // Text up to the first c, and the text after it (None when c does not occur).
  function IndexOf(s: string, c: char): (i: nat)
    ensures i <= |s|
    ensures forall k :: 0 <= k < i ==> s[k] != c
    ensures i < |s| ==> s[i] == c
  {
    if s == "" || s[0] == c then 0 else 1 + IndexOf(s[1..], c)
  }

  // pat in s
  predicate Contains(s: string, pat: string) {
    pat <= s || (s != "" && Contains(s[1..], pat))
  }

  // s.count(pat): non-overlapping occurrences, left to right.
  function Count(s: string, pat: string): nat
    requires pat != ""
  {
    if s == "" then 0
    else if pat <= s then 1 + Count(s[|pat|..], pat)
    else Count(s[1..], pat)
  }

  // s.split("\n")
  function Lines(s: string): (ls: seq<string>)
    ensures |ls| >= 1
    decreases |s|
  {
    var i := IndexOf(s, '\n');
    if i == |s| then [s] else [s[..i]] + Lines(s[i + 1..])
  }

  // " ".join(value.upper().split())
  function Normalize(value: string): string {
    Join(" ", Words(Upper(value)))
  }

  // A single word in capitals is its own normal form.
  lemma CapitalsNormal(w: string)
    requires w != "" && forall i :: 0 <= i < |w| ==> 'A' <= w[i] <= 'Z'
    ensures Normalize(w) == w
  {
    hide Words, WordLength;
    assert Upper(w) == w;
    CapitalsLength(w);
    OneWord(w);
  }

  lemma {:induction false} CapitalsLength(w: string)
    requires forall i :: 0 <= i < |w| ==> 'A' <= w[i] <= 'Z'
    ensures WordLength(w) == |w|
  {
    if w != "" {
      CapitalsLength(w[1..]);
    }
  }

  lemma OneWord(w: string)
    requires w != "" && !IsSpace(w[0]) && WordLength(w) == |w|
    ensures Words(w) == [w] && Join(" ", [w]) == w
  {
    hide WordLength;
    assert TrimLeft(w) == w;
    assert w[..|w|] == w && w[|w|..] == "";
    assert Words("") == [];
  }

  // re.sub(r"\s+", " ", s)
  function SquashSpaces(s: string): string
    decreases |s|
  {
    if s == "" then ""
    else if IsSpace(s[0]) then " " + SquashSpaces(TrimLeft(s[1..]))
    else [s[0]] + SquashSpaces(s[1..])
  }

  // ---------------------------------------------------------------------
  // Visible cells
  // ---------------------------------------------------------------------

  // One visible character, case ignored, and whether whitespace (or the start
  // of the text) comes right before it.
  datatype Cell = Cell(ch: char, gap: bool)

  function Cells(s: string, g: bool): seq<Cell> {
    if s == "" then []
    else if IsSpace(s[0]) then Cells(s[1..], true)
    else [Cell(Up(s[0]), g)] + Cells(s[1..], false)
  }

  // Whether whitespace comes right before whatever is appended to s.
  function Trail(s: string, g: bool): bool {
    if s == "" then g else IsSpace(s[|s| - 1])
  }

  // The text with all whitespace removed and case ignored.
  function Canon(s: string): string {
    if s == "" then ""
    else if IsSpace(s[0]) then Canon(s[1..])
    else [Up(s[0])] + Canon(s[1..])
  }

  lemma {:induction false} CellsAppend(a: string, b: string, g: bool)
    ensures Cells(a + b, g) == Cells(a, g) + Cells(b, Trail(a, g))
  {
    if a == "" {
      assert a + b == b;
    } else {
      assert (a + b)[1..] == a[1..] + b;
      if IsSpace(a[0]) {
        CellsAppend(a[1..], b, true);
      } else {
        CellsAppend(a[1..], b, false);
      }
      assert |a| > 1 ==> a[1..][|a[1..]| - 1] == a[|a| - 1];
    }
  }

  lemma TrailAppend(a: string, b: string, g: bool)
    ensures Trail(a + b, g) == Trail(b, Trail(a, g))
  {
  }

  lemma {:induction false} CanonAppend(a: string, b: string)
    ensures Canon(a + b) == Canon(a) + Canon(b)
  {
    if a == "" {
      assert a + b == b;
    } else {
      assert (a + b)[1..] == a[1..] + b;
      CanonAppend(a[1..], b);
    }
  }

  // The characters of the cells are the canonical text.
  lemma {:induction false} CellsCanon(s: string, g: bool)
    ensures |Cells(s, g)| == |Canon(s)|
    ensures forall i :: 0 <= i < |Canon(s)| ==> Cells(s, g)[i].ch == Canon(s)[i]
  {
    if s != "" {
      CellsCanon(s[1..], IsSpace(s[0]));
    }
  }

  lemma {:induction false} BlankCells(s: string, g: bool)
    requires Blank(s)
    ensures Cells(s, g) == [] && Canon(s) == ""
  {
    if s != "" {
      assert Blank(s[1..]);
      BlankCells(s[1..], true);
    }
  }

  // Only the first gap depends on what precedes the text.
  lemma CellsGap(s: string, g: bool)
    ensures |Cells(s, g)| == |Cells(s, true)|
    ensures Cells(s, g) != [] ==>
      && Cells(s, g)[1..] == Cells(s, true)[1..]
      && Cells(s, g)[0].ch == Cells(s, true)[0].ch
      && Cells(s, true)[0].gap
      && Cells(s, g)[0].gap == (g || IsSpace(s[0]))
  {
    if s != "" && IsSpace(s[0]) {
      LeadingGap(s[1..]);
    }
  }

  lemma {:induction false} LeadingGap(s: string)
    ensures Cells(s, true) != [] ==> Cells(s, true)[0].gap
  {
    if s != "" && IsSpace(s[0]) {
      LeadingGap(s[1..]);
    }
  }

  lemma {:induction false} TrimLeftCells(s: string)
    ensures Cells(TrimLeft(s), true) == Cells(s, true)
    ensures Canon(TrimLeft(s)) == Canon(s)
  {
    if s != "" && IsSpace(s[0]) {
      TrimLeftCells(s[1..]);
    }
  }

  lemma {:induction false} TrimRightCells(s: string, g: bool)
    ensures Cells(TrimRight(s), g) == Cells(s, g)
  {
    if s != "" && IsSpace(s[|s| - 1]) {
      var t := s[..|s| - 1];
      assert s == t + [s[|s| - 1]];
      CellsAppend(t, [s[|s| - 1]], g);
      BlankCells([s[|s| - 1]], Trail(t, g));
      TrimRightCells(t, g);
    }
  }

  lemma StripCells(s: string)
    ensures Cells(Strip(s), true) == Cells(s, true)
  {
    TrimLeftCells(s);
    TrimRightCells(TrimLeft(s), true);
  }

  lemma {:induction false} SquashCells(s: string, g: bool)
    ensures Cells(SquashSpaces(s), g) == Cells(s, g)
    decreases |s|
  {
    if s == "" {
    } else if IsSpace(s[0]) {
      var rest := TrimLeft(s[1..]);
      assert (" " + SquashSpaces(rest))[1..] == SquashSpaces(rest);
      SquashCells(rest, true);
      TrimLeftCells(s[1..]);
    } else {
      assert ([s[0]] + SquashSpaces(s[1..]))[1..] == SquashSpaces(s[1..]);
      SquashCells(s[1..], false);
    }
  }

  // Splitting at whitespace and joining with single blanks keeps every gap.
  lemma {:induction false} WordsCells(s: string)
    ensures Cells(Join(" ", Words(s)), true) == Cells(s, true)
    decreases |s|
  {
    hide Cells, TrimLeft, Join;
    TrimLeftCells(s);
    var t := TrimLeft(s);
    if t == "" {
      NoWords();
    } else {
      var n := WordLength(t);
      var word, rest := t[..n], t[n..];
      assert t == word + rest;
      CellsAppend(word, rest, true);
      WordsCells(rest);
      OntoWord(word, Words(rest));
      if Words(rest) == [] {
        NoWords();
        CellsGap(rest, Trail(word, true));
      } else {
        assert rest != "" && IsSpace(rest[0]) by { WordsOfNothing(); }
        CellsAppend(word, " " + Join(" ", Words(rest)), true);
        BlankFirst(Join(" ", Words(rest)), Trail(word, true));
        SpaceFirst(rest, Trail(word, true));
      }
    }
  }

  lemma WordsOfNothing()
    ensures Words("") == []
  {
  }

  lemma NoWords()
    ensures Join(" ", []) == "" && Cells("", true) == []
  {
  }

  lemma OntoWord(word: string, ws: seq<string>)
    ensures Join(" ", [word] + ws) == if ws == [] then word else word + (" " + Join(" ", ws))
  {
    JoinCons(" ", word, ws);
    assert word + " " + Join(" ", ws) == word + (" " + Join(" ", ws));
  }

  lemma BlankFirst(t: string, g: bool)
    ensures Cells(" " + t, g) == Cells(t, true)
  {
    assert (" " + t)[1..] == t;
  }

  lemma SpaceFirst(t: string, g: bool)
    requires t != "" && IsSpace(t[0])
    ensures Cells(t, g) == Cells(t, true)
  {
  }

  lemma {:induction false} UpperCells(s: string, g: bool)
    ensures Cells(Upper(s), g) == Cells(s, g)
  {
    if s != "" {
      assert Upper(s)[1..] == Upper(s[1..]);
      UpperCells(s[1..], IsSpace(s[0]));
    }
  }

  lemma {:induction false} LowerCells(s: string, g: bool)
    ensures Cells(Lower(s), g) == Cells(s, g)
  {
    if s != "" {
      assert Lower(s)[1..] == Lower(s[1..]);
      LowerCells(s[1..], IsSpace(s[0]));
    }
  }

  lemma NormalizeCells(s: string)
    ensures Cells(Normalize(s), true) == Cells(s, true)
  {
    WordsCells(Upper(s));
    UpperCells(s, true);
  }

  // Equal cells are equal canonical texts.
  lemma SameCellsSameCanon(a: string, b: string)
    requires Cells(a, true) == Cells(b, true)
    ensures Canon(a) == Canon(b)
  {
    CellsCanon(a, true);
    CellsCanon(b, true);
  }

  // ---------------------------------------------------------------------
  // Concatenation of parts
  // ---------------------------------------------------------------------

  lemma ConcatPush(xs: seq<string>, x: string)
    ensures Concat(xs + [x]) == Concat(xs) + x
  {
    assert (xs + [x])[..|xs|] == xs;
  }

  // ---------------------------------------------------------------------
  // Lines
  // ---------------------------------------------------------------------

  lemma {:induction false} JoinLines(s: string)
    ensures Join("\n", Lines(s)) == s
    decreases |s|
  {
    hide Join;
    var i := IndexOf(s, '\n');
    if i < |s| {
      JoinLines(s[i + 1..]);
      JoinCons("\n", s[..i], Lines(s[i + 1..]));
      assert s == s[..i] + "\n" + s[i + 1..];
    } else {
      JoinCons("\n", s, []);
      assert [s] + [] == [s];
    }
  }

  lemma JoinCons(sep: string, x: string, xs: seq<string>)
    ensures Join(sep, [x] + xs) == if xs == [] then x else x + sep + Join(sep, xs)
  {
    assert ([x] + xs)[1..] == xs;
  }
}
