// Which whitespace inside a token survives formatting as it is.
module Stable {
  import opened Text
  import opened PostProcess
  import opened Gaps

  // ---------------------------------------------------------------------
  // The clean-up of a gap, line by line
  // ---------------------------------------------------------------------

  // Blanks at the end dropped.
  function DropEnd(u: string): (r: string)
    ensures |r| <= |u|
  {
    if u != "" && u[|u| - 1] == ' ' then DropEnd(u[..|u| - 1]) else u
  }

  lemma {:induction false} DropNothing(u: string)
    requires '\n' !in u
    ensures DropTrailingSpaces(u) == u
    decreases |u|
  {
    if u != "" {
      if u[0] == ' ' {
        var n := SpaceRun(u);
        DropNothing(u[n..]);
        assert u == u[..n] + u[n..];
      } else {
        DropNothing(u[1..]);
        assert u == [u[0]] + u[1..];
      }
    }
  }

  lemma {:induction false} DropEndPrefix(n: nat, u: string)
    ensures DropEnd(Spaces(n) + u) == if DropEnd(u) == "" then "" else Spaces(n) + DropEnd(u)
  {
    var s := Spaces(n) + u;
    if u == "" {
      assert s == Spaces(n);
      AllSpaces(n);
    } else if u[|u| - 1] == ' ' {
      assert s[..|s| - 1] == Spaces(n) + u[..|u| - 1];
      DropEndPrefix(n, u[..|u| - 1]);
    }
  }

  lemma {:induction false} AllSpaces(n: nat)
    ensures DropEnd(Spaces(n)) == ""
  {
    if n > 0 {
      assert Spaces(n)[..n - 1] == Spaces(n - 1);
      AllSpaces(n - 1);
    }
  }

  lemma {:induction false} DropEndFirst(c: char, u: string)
    requires c != ' '
    ensures DropEnd([c] + u) == [c] + DropEnd(u)
  {
    var s := [c] + u;
    if u == "" {
      assert s == [c];
    } else if u[|u| - 1] == ' ' {
      assert s[..|s| - 1] == [c] + u[..|u| - 1];
      DropEndFirst(c, u[..|u| - 1]);
    }
  }

  lemma {:induction false} DropByLine(u: string, v: string)
    requires '\n' !in u
    ensures DropTrailingSpaces(u + "\n" + v) == DropEnd(u) + "\n" + DropTrailingSpaces(v)
    decreases |u|
  {
    hide DropEnd, SpaceRun;
    var s := u + "\n" + v;
    if u == "" {
      assert s == "\n" + v && s[1..] == v;
      assert DropEnd(u) == "" by { AllSpaces(0); }
    } else if u[0] == ' ' {
      SpacesByLine(u, v);
      var n := SpaceRun(u);
      if n < |u| {
        DropByLine(u[n..], v);
        KeepsFirst(u[n..]);
        Regroup(s[..n], DropEnd(u[n..]), '\n', DropTrailingSpaces(v));
      }
    } else {
      assert s[1..] == u[1..] + "\n" + v;
      DropByLine(u[1..], v);
      assert u == [u[0]] + u[1..];
      DropEndFirst(u[0], u[1..]);
      Regroup([u[0]], DropEnd(u[1..]), '\n', DropTrailingSpaces(v));
    }
  }

  lemma SpacesByLine(u: string, v: string)
    requires '\n' !in u && u != "" && u[0] == ' '
    ensures
      var s, n := u + "\n" + v, SpaceRun(u);
      && n > 0 && s[..n] == Spaces(n)
      && DropTrailingSpaces(s) ==
           (if n == |u| then "\n" + DropTrailingSpaces(v) else s[..n] + DropTrailingSpaces(u[n..] + "\n" + v))
      && DropEnd(u) == (if n == |u| then "" else if DropEnd(u[n..]) == "" then "" else Spaces(n) + DropEnd(u[n..]))
  {
    hide DropEnd;
    var s, n := u + "\n" + v, SpaceRun(u);
    SpaceRunAt(u, '\n', v);
    assert u == Spaces(n) + u[n..];
    DropEndPrefix(n, u[n..]);
    assert s[..n] == Spaces(n) && s[n..] == u[n..] + "\n" + v;
    if n == |u| {
      assert u[n..] == "" && s[n + 1..] == v && DropEnd("") == "" by { AllSpaces(0); }
    } else {
      assert s[n] == u[n];
    }
  }

  lemma KeepsFirst(u: string)
    requires u != "" && u[0] != ' '
    ensures DropEnd(u) != ""
  {
    assert u == [u[0]] + u[1..];
    DropEndFirst(u[0], u[1..]);
  }

  lemma BlankParts(u: string, v: string)
    ensures Blank(u + "\n" + v) <==> Blank(u) && Blank(v)
  {
    var s := u + "\n" + v;
    assert forall i :: 0 <= i < |u| ==> s[i] == u[i];
    assert forall i :: 0 <= i < |v| ==> s[|u| + 1 + i] == v[i];
  }

  // What becomes of the gap's later lines.
  function Under(v: string): string {
    CleanHead(DropTrailingSpaces(v))
  }

  lemma GapLines(u: string, v: string)
    requires '\n' !in u && Blank(u)
    ensures CleanGap(u + "\n" + v) == "\n" + Under(v)
  {
    hide CleanInner, CleanHead, DropTrailingSpaces, CollapseRuns;
    DropByLine(u, v);
    EndIsPart(u);
    SplitCleaned(DropEnd(u), DropTrailingSpaces(v));
    CollapseBlank(DropEnd(u), true);
    TrimRightBlank(CollapseRuns(DropEnd(u), true));
    assert "" + "\n" == "\n";
  }

  lemma {:induction false} EndIsPart(u: string)
    requires '\n' !in u && Blank(u)
    ensures '\n' !in DropEnd(u) && Blank(DropEnd(u))
  {
    if u != "" {
      EndIsPart(u[..|u| - 1]);
    }
  }

  lemma GapOneLine(u: string)
    requires '\n' !in u
    ensures CleanGap(u) == CollapseRuns(u, true)
    ensures Under(u) == u[..SpaceRun(u)] + CollapseRuns(u[SpaceRun(u)..], false)
  {
    hide CleanInner, CleanHead, DropTrailingSpaces, CollapseRuns;
    DropNothing(u);
    LastCleaned(u);
  }

  lemma UnderLines(u: string, v: string)
    requires '\n' !in u && Blank(u)
    ensures Under(u + "\n" + v) == CleanLine(DropEnd(u)) + "\n" + Under(v)
  {
    hide CleanHead, DropTrailingSpaces, CleanLine;
    DropByLine(u, v);
    EndIsPart(u);
    SplitCleaned(DropEnd(u), DropTrailingSpaces(v));
  }

  // ---------------------------------------------------------------------
  // Gaps the clean-up leaves alone
  // ---------------------------------------------------------------------

  // Line feeds first, if any; behind them an indentation, and past it no two blanks in a
  // row and no further line feed. Without a line feed there is no indentation.
  predicate StableGap(g: string) {
    if g != "" && g[0] == '\n' then StableUnder(g[1..]) else '\n' !in g && NoDoubleBlank(g)
  }

  predicate StableUnder(v: string) {
    if v != "" && v[0] == '\n' then StableUnder(v[1..]) else '\n' !in v && NoDoubleBlank(v[SpaceRun(v)..])
  }

  // No longer than s, and only as long if it is s.
  predicate Shrinks(t: string, s: string) {
    |t| <= |s| && (|t| == |s| ==> t == s)
  }

  lemma CollapseShrinks(s: string, preceded: bool)
    requires '\n' !in s && (preceded || s == "" || s[0] != ' ')
    ensures Shrinks(CollapseRuns(s, preceded), s)
    ensures CollapseRuns(s, preceded) == s <==> NoDoubleBlank(s)
  {
    hide CollapseRuns, NoDoubleBlank;
    CollapseShortens(s, preceded);
  }

  lemma IndentShrinks(v: string)
    requires '\n' !in v
    ensures Shrinks(Under(v), v)
    ensures Under(v) == v <==> NoDoubleBlank(v[SpaceRun(v)..])
  {
    hide CollapseRuns, NoDoubleBlank, Under;
    var n := SpaceRun(v);
    GapOneLine(v);
    CollapseShrinks(v[n..], false);
    assert v == v[..n] + v[n..];
    CancelPrefix(v[..n], CollapseRuns(v[n..], false), v[n..]);
  }

  // A blank line survives only if it is empty.
  lemma BlankLineShrinks(u: string)
    requires '\n' !in u && Blank(u)
    ensures |CleanLine(DropEnd(u))| <= |u|
    ensures |CleanLine(DropEnd(u))| == |u| <==> u == ""
  {
    hide CleanLine;
    EndIsPart(u);
    CleanLineBlank(DropEnd(u));
    if u != "" && u[|u| - 1] != ' ' {
      assert SpaceRun(u) != |u|;
    }
  }

  lemma {:induction false} UnderStable(v: string)
    requires Blank(v)
    ensures Shrinks(Under(v), v)
    ensures Under(v) == v <==> StableUnder(v)
    decreases |v|
  {
    hide Under, NoDoubleBlank, CleanLine;
    if '\n' in v {
      var u, w := FirstLine(v);
      BlankParts(u, w);
      UnderLines(u, w);
      BlankLineShrinks(u);
      UnderStable(w);
      if u == "" {
        assert v == "\n" + w && v[1..] == w;
        CleanNothing();
        assert "" + "\n" + Under(w) == "\n" + Under(w);
        CancelPrefix("\n", Under(w), w);
      } else {
        assert v[0] == u[0];
      }
    } else {
      IndentShrinks(v);
    }
  }

  lemma CleanNothing()
    ensures CleanLine(DropEnd("")) == ""
  {
  }

  lemma GapStable(g: string)
    requires Blank(g)
    ensures Shrinks(CleanGap(g), g)
    ensures CleanGap(g) == g <==> StableGap(g)
  {
    hide Under, NoDoubleBlank, CleanGap, StableUnder;
    if '\n' in g {
      var u, v := FirstLine(g);
      BlankParts(u, v);
      GapLines(u, v);
      UnderStable(v);
      if u == "" {
        assert g == "\n" + v && g[1..] == v;
        CancelPrefix("\n", Under(v), v);
      } else {
        assert g[0] == u[0];
      }
    } else {
      GapOneLine(g);
      CollapseShrinks(g, true);
    }
  }

  // ---------------------------------------------------------------------
  // Re-indentation
  // ---------------------------------------------------------------------

  // Every line but the first moved to the right.
  function Reindent(s: string, column: nat): string {
    if s == "" then ""
    else if s[0] == '\n' then "\n" + Spaces(column) + Reindent(s[1..], column)
    else [s[0]] + Reindent(s[1..], column)
  }

  lemma {:induction false} ReindentAppend(a: string, b: string, column: nat)
    ensures Reindent(a + b, column) == Reindent(a, column) + Reindent(b, column)
  {
    if a == "" {
      assert a + b == b;
    } else {
      assert (a + b)[1..] == a[1..] + b;
      ReindentAppend(a[1..], b, column);
      var x, y := Reindent(a[1..], column), Reindent(b, column);
      assert "\n" + Spaces(column) + (x + y) == "\n" + Spaces(column) + x + y;
      assert [a[0]] + (x + y) == [a[0]] + x + y;
    }
  }

  lemma {:induction false} ReindentBlank(g: string, column: nat)
    requires Blank(g)
    ensures Blank(Reindent(g, column))
  {
    if g != "" {
      ReindentBlank(g[1..], column);
    }
  }

  lemma {:induction false} ReindentNothing(g: string, column: nat)
    requires '\n' !in g || column == 0
    ensures Reindent(g, column) == g
  {
    if g != "" {
      ReindentNothing(g[1..], column);
      assert g == [g[0]] + g[1..];
    }
  }

  lemma {:induction false} ReindentLine(u: string, column: nat)
    ensures '\n' in Reindent(u, column) <==> '\n' in u
  {
    if u != "" {
      ReindentLine(u[1..], column);
      assert u == [u[0]] + u[1..];
    }
  }

  // ---------------------------------------------------------------------
  // The indentation of the last line of a gap
  // ---------------------------------------------------------------------

  function Indentation(g: string): nat
    decreases |g|
  {
    var i := IndexOf(g, '\n');
    if i == |g| then SpaceRun(g) else Indentation(g[i + 1..])
  }

  lemma IndentationLines(u: string, v: string)
    requires '\n' !in u
    ensures Indentation(u + "\n" + v) == Indentation(v)
    ensures Indentation(u) == SpaceRun(u)
  {
    FirstFeed(u, v);
    NoFeed(u);
    assert (u + "\n" + v)[|u| + 1..] == v;
  }

  lemma {:induction false} UnderIndentation(v: string)
    requires Blank(v)
    ensures Indentation(Under(v)) == Indentation(v)
    decreases |v|
  {
    hide Under, Indentation, CleanLine, CollapseRuns;
    if '\n' in v {
      var u, w := FirstLine(v);
      BlankParts(u, w);
      UnderLines(u, w);
      EndIsPart(u);
      CleanLineBlank(DropEnd(u));
      IndentationLines(u, w);
      assert '\n' !in CleanLine(DropEnd(u));
      IndentationLines(CleanLine(DropEnd(u)), Under(w));
      UnderIndentation(w);
    } else {
      GapOneLine(v);
      IndentationLines(v, "");
      CollapsedLine(v);
      IndentationLines(Under(v), "");
    }
  }

  lemma CollapsedLine(v: string)
    requires '\n' !in v
    ensures
      var t := v[..SpaceRun(v)] + CollapseRuns(v[SpaceRun(v)..], false);
      '\n' !in t && SpaceRun(t) == SpaceRun(v)
  {
    var n := SpaceRun(v);
    CollapsePart(v[n..], false);
    var t := v[..n] + CollapseRuns(v[n..], false);
    if n < |v| {
      var rest := CollapseRuns(v[n..], false);
      assert rest[0] == v[n] && t == v[..n] + [v[n]] + rest[1..];
      SpaceRunAt(v[..n], v[n], rest[1..]);
      SpacesRun(v[..n]);
    } else {
      assert t == v;
    }
  }

  lemma {:induction false} SpacesRun(s: string)
    requires forall i :: 0 <= i < |s| ==> s[i] == ' '
    ensures SpaceRun(s) == |s|
  {
    if s != "" {
      SpacesRun(s[1..]);
    }
  }

  lemma {:induction false} CollapsePart(s: string, preceded: bool)
    ensures '\n' in CollapseRuns(s, preceded) <==> '\n' in s
    ensures s != "" && !(preceded && s[0] == ' ') ==>
      CollapseRuns(s, preceded) != "" && CollapseRuns(s, preceded)[0] == s[0]
    decreases |s|
  {
    if s != "" {
      if s[0] == ' ' && preceded {
        var n := SpaceRun(s);
        CollapsePart(s[n..], true);
        assert s == s[..n] + s[n..];
      } else {
        CollapsePart(s[1..], s[0] != '\n');
        assert s == [s[0]] + s[1..];
      }
    }
  }

  lemma GapIndentation(g: string)
    requires Blank(g)
    ensures '\n' in CleanGap(g) <==> '\n' in g
    ensures '\n' in g ==> Indentation(CleanGap(g)) == Indentation(g)
  {
    hide Under, Indentation, CleanGap, CollapseRuns;
    if '\n' in g {
      var u, v := FirstLine(g);
      BlankParts(u, v);
      GapLines(u, v);
      IndentationLines(u, v);
      assert "\n" + Under(v) == "" + "\n" + Under(v);
      IndentationLines("", Under(v));
      UnderIndentation(v);
    } else {
      GapOneLine(g);
      CollapsePart(g, true);
    }
  }

  lemma {:induction false} ReindentIndentation(g: string, column: nat)
    requires '\n' in g
    ensures Indentation(Reindent(g, column)) == Indentation(g) + column
    decreases |g|
  {
    hide Indentation, Reindent;
    var u, v := FirstLine(g);
    ReindentAppend(u + "\n", v, column);
    ReindentAppend(u, "\n", column);
    ReindentLine(u, column);
    FeedReindented(column);
    var tail := Spaces(column) + Reindent(v, column);
    assert Reindent(g, column) == Reindent(u, column) + "\n" + tail;
    IndentationLines(u, v);
    IndentationLines(Reindent(u, column), tail);
    if '\n' in v {
      var x, y := FirstLine(Reindent(v, column)) by { ReindentLine(v, column); }
      ReindentIndentation(v, column);
      assert tail == Spaces(column) + x + "\n" + y;
      IndentationLines(Spaces(column) + x, y);
      IndentationLines(x, y);
    } else {
      ReindentNothing(v, column);
      IndentationLines(v, "");
      IndentationLines(tail, "");
      MoreSpaces(column, v);
    }
  }

  lemma FeedReindented(column: nat)
    ensures Reindent("\n", column) == "\n" + Spaces(column)
  {
    assert "\n"[1..] == "";
  }

  lemma {:induction false} MoreSpaces(n: nat, v: string)
    ensures SpaceRun(Spaces(n) + v) == n + SpaceRun(v)
  {
    if n == 0 {
      assert Spaces(0) + v == v;
    } else {
      assert (Spaces(n) + v)[1..] == Spaces(n - 1) + v;
      MoreSpaces(n - 1, v);
    }
  }

  // ---------------------------------------------------------------------
  // A gap on its way from the buffer to the formatted text
  // ---------------------------------------------------------------------

  // Cleaned with the statement it stands in and, for each subquery around that was
  // formatted by itself, re-indented to its column and cleaned again, inside out.
  function Passed(g: string, columns: seq<nat>): string
    decreases |columns|
  {
    if columns == [] then CleanGap(g) else Passed(Reindent(CleanGap(g), columns[0]), columns[1..])
  }

  predicate AllZero(columns: seq<nat>) {
    forall i :: 0 <= i < |columns| ==> columns[i] == 0
  }

  lemma TailZero(columns: seq<nat>)
    requires columns != []
    ensures AllZero(columns) <==> columns[0] == 0 && AllZero(columns[1..])
  {
    assert columns == [columns[0]] + columns[1..];
  }

  lemma {:induction false} PassedIndentation(g: string, columns: seq<nat>)
    requires Blank(g) && '\n' in g
    ensures Indentation(Passed(g, columns)) >= Indentation(g)
    ensures !AllZero(columns) ==> Indentation(Passed(g, columns)) > Indentation(g)
    decreases |columns|
  {
    hide Indentation, CleanGap, Reindent, AllZero;
    GapIndentation(g);
    GapBlank(g);
    if columns != [] {
      TailZero(columns);
      var c := CleanGap(g);
      ReindentIndentation(c, columns[0]);
      ReindentLine(c, columns[0]);
      ReindentBlank(c, columns[0]);
      PassedIndentation(Reindent(c, columns[0]), columns[1..]);
    } else {
      assert AllZero([]) by { ZeroNone(); }
    }
  }

  lemma ZeroNone()
    ensures AllZero([])
  {
  }

  lemma {:induction false} PassedShrinks(g: string, columns: seq<nat>)
    requires Blank(g) && ('\n' !in g || AllZero(columns))
    ensures |Passed(g, columns)| <= |CleanGap(g)|
    ensures CleanGap(g) == g ==> Passed(g, columns) == g
    decreases |columns|
  {
    hide CleanGap, Reindent, AllZero, StableGap;
    if columns != [] {
      var c := CleanGap(g);
      TailZero(columns);
      GapBlank(g);
      GapIndentation(g);
      ReindentNothing(c, columns[0]);
      PassedShrinks(c, columns[1..]);
      GapStable(c);
    }
  }

  // A gap arrives as it is exactly if it is stable and, where some column is positive,
  // has no line feed.
  lemma PassedStays(g: string, columns: seq<nat>)
    requires Blank(g)
    ensures Passed(g, columns) == g <==> StableGap(g) && ('\n' !in g || AllZero(columns))
  {
    hide CleanGap, Passed, StableGap, AllZero, Indentation;
    GapStable(g);
    if '\n' in g && !AllZero(columns) {
      PassedIndentation(g, columns);
    } else {
      PassedShrinks(g, columns);
    }
  }

  // Copying squeezes whitespace to a single blank.
  function Squeeze(g: string): string {
    if g == "" then "" else " "
  }

  lemma SqueezedStays(g: string, columns: seq<nat>)
    requires Blank(g)
    ensures Passed(Squeeze(g), columns) == Squeeze(g)
    ensures Passed(Squeeze(g), columns) == g <==> g == "" || g == " "
  {
    hide Passed, AllZero;
    PassedStays(Squeeze(g), columns);
  }
}
