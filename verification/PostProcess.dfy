// The clean-up pass over rendered SQL, and what it may and may not change.
module PostProcess {
  import opened Text

  // Number of leading ' ' characters.
  function SpaceRun(s: string): (n: nat)
    ensures n <= |s|
    ensures forall i :: 0 <= i < n ==> s[i] == ' '
    ensures n < |s| ==> s[n] != ' '
  {
    if s == "" || s[0] != ' ' then 0 else 1 + SpaceRun(s[1..])
  }

  // re.sub(r" +\n", "\n", s)
  function DropTrailingSpaces(s: string): string
    decreases |s|
  {
    if s == "" then ""
    else if s[0] == ' ' then
      var n := SpaceRun(s);
      if n < |s| && s[n] == '\n' then "\n" + DropTrailingSpaces(s[n + 1..])
      else s[..n] + DropTrailingSpaces(s[n..])
    else [s[0]] + DropTrailingSpaces(s[1..])
  }

  // re.sub(r"(?<=[^\n]) {2,}", " ", s); preceded says that a character other
  // than a line feed comes right before s.
  function CollapseRuns(s: string, preceded: bool): string
    decreases |s|
  {
    if s == "" then ""
    else if s[0] == ' ' && preceded then " " + CollapseRuns(s[SpaceRun(s)..], true)
    else [s[0]] + CollapseRuns(s[1..], s[0] != '\n')
  }

  // One line: the indentation is kept, the content has its runs collapsed.
  function CleanLine(line: string): string {
    var leading := SpaceRun(line);
    line[..leading] + TrimRight(CollapseRuns(line[leading..], false))
  }

  function CleanLines(lines: seq<string>): (r: seq<string>)
    ensures |r| == |lines|
  {
    if lines == [] then [] else [CleanLine(lines[0])] + CleanLines(lines[1..])
  }

  // re.sub(r"^\n+", "", s)
  function DropLeadingNewlines(s: string): string {
    if s != "" && s[0] == '\n' then DropLeadingNewlines(s[1..]) else s
  }

  // re.sub(r"\n+$", "", s)
  function DropTrailingNewlines(s: string): string {
    if s != "" && s[|s| - 1] == '\n' then DropTrailingNewlines(s[..|s| - 1]) else s
  }

  function Clean(s: string): string {
    var joined := Join("\n", CleanLines(Lines(DropTrailingSpaces(s))));
    DropTrailingNewlines(DropLeadingNewlines(joined))
  }

  // ---------------------------------------------------------------------
  // Every visible character and every gap between two of them survives
  // ---------------------------------------------------------------------

  lemma {:induction false} DropTrailingSpacesCells(s: string, g: bool)
    ensures Cells(DropTrailingSpaces(s), g) == Cells(s, g)
    decreases |s|
  {
    if s == "" {
    } else if s[0] == ' ' {
      var n := SpaceRun(s);
      assert s == s[..n] + s[n..];
      CellsAppend(s[..n], s[n..], g);
      BlankCells(s[..n], g);
      if n < |s| && s[n] == '\n' {
        assert s[n..][1..] == s[n + 1..];
        assert ("\n" + DropTrailingSpaces(s[n + 1..]))[1..] == DropTrailingSpaces(s[n + 1..]);
        DropTrailingSpacesCells(s[n + 1..], true);
      } else {
        CellsAppend(s[..n], DropTrailingSpaces(s[n..]), g);
        DropTrailingSpacesCells(s[n..], Trail(s[..n], g));
      }
    } else {
      assert ([s[0]] + DropTrailingSpaces(s[1..]))[1..] == DropTrailingSpaces(s[1..]);
      DropTrailingSpacesCells(s[1..], IsSpace(s[0]));
    }
  }

  lemma {:induction false} CollapseRunsCells(s: string, preceded: bool, g: bool)
    ensures Cells(CollapseRuns(s, preceded), g) == Cells(s, g)
    decreases |s|
  {
    if s == "" {
    } else if s[0] == ' ' && preceded {
      var n := SpaceRun(s);
      assert s == s[..n] + s[n..];
      CellsAppend(s[..n], s[n..], g);
      BlankCells(s[..n], g);
      assert (" " + CollapseRuns(s[n..], true))[1..] == CollapseRuns(s[n..], true);
      CollapseRunsCells(s[n..], true, true);
    } else {
      var rest := CollapseRuns(s[1..], s[0] != '\n');
      assert ([s[0]] + rest)[1..] == rest;
      CollapseRunsCells(s[1..], s[0] != '\n', IsSpace(s[0]));
    }
  }

  lemma CleanLineCells(line: string, g: bool)
    ensures Cells(CleanLine(line), g) == Cells(line, g)
  {
    var n := SpaceRun(line);
    var content := line[n..];
    var h := Trail(line[..n], g);
    assert line == line[..n] + content;
    CellsAppend(line[..n], content, g);
    CellsAppend(line[..n], TrimRight(CollapseRuns(content, false)), g);
    TrimRightCells(CollapseRuns(content, false), h);
    CollapseRunsCells(content, false, h);
  }

  lemma {:induction false} CleanLinesCells(lines: seq<string>, g: bool)
    requires |lines| >= 1
    ensures Cells(Join("\n", CleanLines(lines)), g) == Cells(Join("\n", lines), g)
  {
    CleanLineCells(lines[0], g);
    if |lines| > 1 {
      var a, b := CleanLine(lines[0]), Join("\n", CleanLines(lines[1..]));
      var c, d := lines[0], Join("\n", lines[1..]);
      assert CleanLines(lines)[1..] == CleanLines(lines[1..]);
      assert Join("\n", CleanLines(lines)) == a + ("\n" + b);
      assert Join("\n", lines) == c + ("\n" + d);
      CellsAppend(a, "\n" + b, g);
      CellsAppend(c, "\n" + d, g);
      assert ("\n" + b)[1..] == b && ("\n" + d)[1..] == d;
      CleanLinesCells(lines[1..], true);
    }
  }

  lemma {:induction false} DropLeadingNewlinesCells(s: string)
    ensures Cells(DropLeadingNewlines(s), true) == Cells(s, true)
  {
    if s != "" && s[0] == '\n' {
      DropLeadingNewlinesCells(s[1..]);
    }
  }

  lemma {:induction false} DropTrailingNewlinesCells(s: string, g: bool)
    ensures Cells(DropTrailingNewlines(s), g) == Cells(s, g)
  {
    if s != "" && s[|s| - 1] == '\n' {
      var t := s[..|s| - 1];
      assert s == t + "\n";
      CellsAppend(t, "\n", g);
      DropTrailingNewlinesCells(t, g);
    }
  }

  // The clean-up keeps every visible character and loses no gap.
  lemma CleanKeepsCells(s: string)
    ensures Cells(Clean(s), true) == Cells(s, true)
    ensures Canon(Clean(s)) == Canon(s)
  {
    var lines := Lines(DropTrailingSpaces(s));
    var joined := Join("\n", CleanLines(lines));
    DropTrailingNewlinesCells(DropLeadingNewlines(joined), true);
    DropLeadingNewlinesCells(joined);
    CleanLinesCells(lines, true);
    JoinLines(DropTrailingSpaces(s));
    DropTrailingSpacesCells(s, true);
    SameCellsSameCanon(Clean(s), s);
  }

  // ---------------------------------------------------------------------
  // Which lines stay as they are: blanks inside literals are not exempt
  // ---------------------------------------------------------------------

  predicate NoDoubleBlank(s: string) {
    forall i :: 0 <= i < |s| - 1 ==> s[i] != ' ' || s[i + 1] != ' '
  }

  lemma {:induction false} CollapseShortens(s: string, preceded: bool)
    requires '\n' !in s && (preceded || s == "" || s[0] != ' ')
    ensures |CollapseRuns(s, preceded)| <= |s|
    ensures NoDoubleBlank(s) ==> CollapseRuns(s, preceded) == s
    ensures |CollapseRuns(s, preceded)| == |s| ==> NoDoubleBlank(s)
    decreases |s|
  {
    if s == "" {
    } else if s[0] == ' ' {
      var n := SpaceRun(s);
      CollapseShortens(s[n..], true);
      if n > 1 {
        assert s[0] == ' ' && s[1] == ' ';
      } else {
        RestOfLine(s);
      }
    } else {
      CollapseShortens(s[1..], true);
      RestOfLine(s);
    }
  }

  lemma RestOfLine(s: string)
    requires s != ""
    ensures NoDoubleBlank(s) <==> NoDoubleBlank(s[1..]) && (|s| == 1 || s[0] != ' ' || s[1] != ' ')
  {
    assert s == [s[0]] + s[1..];
    if NoDoubleBlank(s) {
      forall i | 0 <= i < |s[1..]| - 1 ensures s[1..][i] != ' ' || s[1..][i + 1] != ' ' {
        assert s[1..][i] == s[i + 1] && s[1..][i + 1] == s[i + 2];
      }
    }
    if NoDoubleBlank(s[1..]) && (|s| == 1 || s[0] != ' ' || s[1] != ' ') {
      forall i | 0 <= i < |s| - 1 ensures s[i] != ' ' || s[i + 1] != ' ' {
        if i > 0 {
          assert s[1..][i - 1] == s[i] && s[1..][i] == s[i + 1];
        }
      }
    }
  }

  lemma {:induction false} TrimShortens(s: string)
    ensures |TrimRight(s)| <= |s|
    ensures TrimRight(s) == s <==> |TrimRight(s)| == |s|
    ensures TrimRight(s) == s <==> s == "" || !IsSpace(s[|s| - 1])
  {
    if s != "" && IsSpace(s[|s| - 1]) {
      TrimShortens(s[..|s| - 1]);
    }
  }

  // A line survives unchanged exactly when, past its indentation, it has no two
  // blanks in a row - quoted or not - and no whitespace at its end.
  lemma LineUnchanged(line: string)
    requires '\n' !in line
    ensures
      var content := line[SpaceRun(line)..];
      CleanLine(line) == line <==> NoDoubleBlank(content) && (content == "" || !IsSpace(content[|content| - 1]))
  {
    hide CollapseRuns, NoDoubleBlank, TrimRight, SpaceRun, CleanLine;
    var n := SpaceRun(line);
    var content := line[n..];
    var collapsed := CollapseRuns(content, false);
    ContentOf(line);
    CleanedLine(line);
    CollapseShortens(content, false);
    TrimShortens(collapsed);
    TrimShortens(content);
    CancelPrefix(line[..n], TrimRight(collapsed), content);
  }

  lemma ContentOf(line: string)
    requires '\n' !in line
    ensures
      var content := line[SpaceRun(line)..];
      '\n' !in content && (content == "" || content[0] != ' ') && line == line[..SpaceRun(line)] + content
  {
  }

  lemma CleanedLine(line: string)
    ensures CleanLine(line) == line[..SpaceRun(line)] + TrimRight(CollapseRuns(line[SpaceRun(line)..], false))
  {
    hide CollapseRuns, TrimRight, SpaceRun;
  }

  lemma CancelPrefix(prefix: string, a: string, b: string)
    ensures prefix + a == prefix + b <==> a == b
  {
    assert (prefix + a)[|prefix|..] == a && (prefix + b)[|prefix|..] == b;
  }

  lemma LiteralRewritten()
    ensures CleanLine("SELECT 'a  b'") != "SELECT 'a  b'"
  {
    var line := "SELECT 'a  b'";
    assert SpaceRun(line) == 0 && line[0..] == line;
    assert line[9] == ' ' && line[10] == ' ';
    LineUnchanged(line);
  }
}
