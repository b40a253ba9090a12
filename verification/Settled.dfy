// Texts the clean-up leaves alone, put together from parts.
module Settled {
  import opened Text
  import opened PostProcess
  import opened Gaps
  import opened Stable

  // Blanks and line feeds are the only whitespace, no line ends in a blank or is empty
  // but perhaps the first, and no two blanks stand behind a visible character.
  predicate Smooth(s: string) {
    && (forall i :: 0 <= i < |s| && IsSpace(s[i]) ==> s[i] == ' ' || s[i] == '\n')
    && (forall i :: 0 <= i < |s| - 1 && IsSpace(s[i]) ==> s[i + 1] != '\n')
    && (forall i :: 0 <= i < |s| - 2 && !IsSpace(s[i]) && s[i + 1] == ' ' ==> s[i + 2] != ' ')
  }

  predicate EndsVisibly(s: string) {
    s != "" && !IsSpace(s[|s| - 1])
  }

  predicate StartsVisibly(s: string) {
    s != "" && !IsSpace(s[0])
  }

  // ---------------------------------------------------------------------
  // The clean-up
  // ---------------------------------------------------------------------

  lemma {:induction false} NoDouble(s: string, i: nat)
    requires Smooth(s) && StartsVisibly(s) && i < |s| - 1 && '\n' !in s
    ensures s[i] != ' ' || s[i + 1] != ' '
  {
    if i > 0 && s[i] == ' ' && s[i + 1] == ' ' {
      if IsSpace(s[i - 1]) {
        NoDouble(s, i - 1);
      }
    }
  }

  lemma LineSettled(line: string)
    requires Smooth(line) && EndsVisibly(line) && '\n' !in line
    ensures CleanLine(line) == line
  {
    hide CleanLine, CollapseRuns, SpaceRun, TrimRight, NoDoubleBlank;
    LineUnchanged(line);
    var n := SpaceRun(line);
    var content := line[n..];
    assert line == line[..n] + content;
    assert n < |line|;
    assert content[0] == line[n] && content[|content| - 1] == line[|line| - 1];
    Suffix(line, n);
    assert content[0] in line;
    assert StartsVisibly(content);
    forall i | 0 <= i < |content| - 1 ensures content[i] != ' ' || content[i + 1] != ' ' {
      NoDouble(content, i);
    }
    assert NoDoubleBlank(content) by { Doubles(content); }
  }

  lemma Doubles(s: string)
    requires forall i :: 0 <= i < |s| - 1 ==> s[i] != ' ' || s[i + 1] != ' '
    ensures NoDoubleBlank(s)
  {
  }

  lemma Suffix(s: string, n: nat)
    requires Smooth(s) && n <= |s|
    ensures Smooth(s[n..])
  {
  }

  lemma {:induction false} LinesSettled(s: string)
    requires Smooth(s) && EndsVisibly(s) && s[0] != '\n'
    ensures Cleaned(s) == s && DropTrailingSpaces(s) == s
    decreases |s|
  {
    hide Cleaned, DropTrailingSpaces, CleanLine, Smooth, DropEnd;
    if '\n' in s {
      var u, v := FirstLine(s);
      Parts(u, v);
      LinesSettled(v);
      LineSettled(u);
      SplitCleaned(u, v);
      DropByLine(u, v);
      EndKept(u);
    } else {
      LineSettled(s);
      LastCleaned(s);
      DropNothing(s);
    }
  }

  lemma EndKept(u: string)
    requires EndsVisibly(u)
    ensures DropEnd(u) == u
  {
  }

  lemma Parts(u: string, v: string)
    requires Smooth(u + "\n" + v) && EndsVisibly(u + "\n" + v) && (u + "\n" + v)[0] != '\n' && '\n' !in u
    ensures Smooth(u) && EndsVisibly(u) && Smooth(v) && EndsVisibly(v) && v[0] != '\n'
  {
    var s := u + "\n" + v;
    assert s[..|u|] == u && s[|u| + 1..] == v && s[|u|] == '\n';
    assert u != "" by { assert s[0] == if u == "" then '\n' else u[0]; }
    assert s[|u| - 1] == u[|u| - 1];
    assert v != "";
    Suffix(s, |u| + 1);
    assert v[0] == s[|u| + 1];
    assert forall i :: 0 <= i < |u| ==> s[i] == u[i];
  }

  // A smooth text that starts on its first line and ends visibly is clean.
  lemma SmoothIsClean(s: string)
    requires Smooth(s) && EndsVisibly(s) && s[0] != '\n'
    ensures Clean(s) == s
  {
    hide Cleaned, DropTrailingSpaces, CleanLines, Lines, Smooth;
    LinesSettled(s);
    CleanedLines(s);
    EndsDrop(s);
  }

  lemma EndsDrop(s: string)
    requires EndsVisibly(s) && s[0] != '\n'
    ensures DropTrailingNewlines(DropLeadingNewlines(s)) == s
  {
  }

  // ---------------------------------------------------------------------
  // Putting texts together
  // ---------------------------------------------------------------------

  lemma Touching(a: string, b: string)
    requires Smooth(a) && Smooth(b) && StartsVisibly(b)
    ensures Smooth(a + b)
    ensures EndsVisibly(b) ==> EndsVisibly(a + b)
    ensures StartsVisibly(a) ==> StartsVisibly(a + b)
  {
    var s := a + b;
    assert s[|a|] == b[0];
    forall i | 0 <= i < |s| - 2 && !IsSpace(s[i]) && s[i + 1] == ' ' ensures s[i + 2] != ' ' {
      if i + 2 < |a| {
        assert s[i] == a[i] && s[i + 1] == a[i + 1] && s[i + 2] == a[i + 2];
      } else if i >= |a| {
        assert s[i] == b[i - |a|] && s[i + 1] == b[i + 1 - |a|] && s[i + 2] == b[i + 2 - |a|];
      }
    }
  }

  // Visible text and a blank.
  lemma Spaced(a: string)
    requires Smooth(a) && EndsVisibly(a)
    ensures Smooth(a + " ")
  {
  }

  // Visible text, a line feed and blanks.
  lemma Broken(a: string, n: nat)
    requires Smooth(a) && EndsVisibly(a)
    ensures Smooth(a + ("\n" + Spaces(n)))
  {
    var s := a + ("\n" + Spaces(n));
    assert forall i :: 0 <= i < |a| ==> s[i] == a[i];
    assert s[|a|] == '\n' && forall i :: |a| < i < |s| ==> s[i] == ' ';
  }

  lemma Indentation(n: nat)
    ensures Smooth(Spaces(n))
  {
  }

  predicate Goes(s: string) {
    Smooth(s) && EndsVisibly(s)
  }

  lemma DirectThen(a: string, w: string)
    requires Goes(a) && Goes(w) && StartsVisibly(w)
    ensures Goes(a + w) && (StartsVisibly(a) ==> StartsVisibly(a + w))
  {
    hide Smooth;
    Touching(a, w);
  }

  lemma SpaceThen(a: string, w: string)
    requires Goes(a) && Goes(w) && StartsVisibly(w)
    ensures Goes(a + " " + w) && (StartsVisibly(a) ==> StartsVisibly(a + " " + w))
  {
    hide Smooth;
    Spaced(a);
    Touching(a + " ", w);
  }

  lemma LineThen(a: string, n: nat, w: string)
    requires Goes(a) && Goes(w) && StartsVisibly(w)
    ensures Goes(a + ("\n" + Spaces(n)) + w) && (StartsVisibly(a) ==> StartsVisibly(a + ("\n" + Spaces(n)) + w))
  {
    hide Smooth;
    Broken(a, n);
    Touching(a + ("\n" + Spaces(n)), w);
  }

  lemma IndentThen(n: nat, w: string)
    requires Goes(w) && StartsVisibly(w)
    ensures Goes(Spaces(n) + w) && (n + |w| > 0 && (Spaces(n) + w)[0] != '\n')
  {
    hide Smooth;
    Indentation(n);
    Touching(Spaces(n), w);
  }

  // Moving a text to a column keeps it so.
  lemma {:induction false} ReindentGoes(s: string, column: nat)
    requires Goes(s) && StartsVisibly(s)
    ensures Goes(Reindent(s, column)) && StartsVisibly(Reindent(s, column))
    decreases |s|
  {
    hide Reindent, Smooth;
    if '\n' in s {
      var u, v := FirstLine(s);
      Parts(u, v);
      var m := SpaceRun(v);
      var w := v[m..];
      assert v == Spaces(m) + w;
      Behind(v, m);
      ReindentGoes(w, column);
      ReindentParts(u, m, w, column);
      LineThen(u, column + m, Reindent(w, column));
      assert u[0] == s[0];
    } else {
      ReindentNothing(s, column);
    }
  }

  lemma ReindentParts(u: string, m: nat, w: string, column: nat)
    requires '\n' !in u
    ensures Reindent(u + "\n" + (Spaces(m) + w), column) == u + ("\n" + Spaces(column + m)) + Reindent(w, column)
  {
    hide Reindent;
    ReindentAppend(u + "\n", Spaces(m) + w, column);
    ReindentAppend(u, "\n", column);
    ReindentAppend(Spaces(m), w, column);
    ReindentNothing(u, column);
    ReindentNothing(Spaces(m), column);
    FeedReindented(column);
    var r := Reindent(w, column);
    assert Spaces(column) + Spaces(m) == Spaces(column + m);
    assert "\n" + Spaces(column) + (Spaces(m) + r) == "\n" + Spaces(column + m) + r;
  }

  lemma Behind(v: string, m: nat)
    requires Smooth(v) && EndsVisibly(v) && v[0] != '\n' && m == SpaceRun(v)
    ensures Goes(v[m..]) && StartsVisibly(v[m..])
  {
    hide SpaceRun;
    Suffix(v, m);
    assert m < |v|;
    assert v[m] in v && (m > 0 ==> IsSpace(v[m - 1]) && v[m] != '\n');
  }
}
