// Texts as visible characters with the exact whitespace before each, and what the
// clean-up, re-indentation and copying make of that whitespace.
module Gaps {
  import opened Text
  import opened PostProcess

  // A visible character, exactly as it is, and the whitespace right before it.
  datatype Fine = Fine(gap: string, ch: char)

  // The visible characters of s, with g in front of s.
  function Fines(s: string, g: string): seq<Fine> {
    if s == "" then []
    else if IsSpace(s[0]) then Fines(s[1..], g + [s[0]])
    else [Fine(g, s[0])] + Fines(s[1..], "")
  }

  // Whitespace at the end of s.
  function Tail(s: string, g: string): string {
    if s == "" then g
    else if IsSpace(s[0]) then Tail(s[1..], g + [s[0]])
    else Tail(s[1..], "")
  }

  lemma {:induction false} FinesAppend(a: string, b: string, g: string)
    ensures Fines(a + b, g) == Fines(a, g) + Fines(b, Tail(a, g))
    ensures Tail(a + b, g) == Tail(b, Tail(a, g))
  {
    if a == "" {
      assert a + b == b;
    } else {
      var g' := if IsSpace(a[0]) then g + [a[0]] else "";
      assert (a + b)[1..] == a[1..] + b && (a + b)[0] == a[0];
      FinesAppend(a[1..], b, g');
      var x, y := Fines(a[1..], g'), Fines(b, Tail(a[1..], g'));
      assert [Fine(g, a[0])] + (x + y) == [Fine(g, a[0])] + x + y;
    }
  }

  lemma {:induction false} BlankFines(s: string, g: string)
    requires Blank(s)
    ensures Fines(s, g) == [] && Tail(s, g) == g + s
  {
    if s == "" {
      assert g + s == g;
    } else {
      BlankFines(s[1..], g + [s[0]]);
      assert g + [s[0]] + s[1..] == g + s;
    }
  }

  // Only the first gap depends on what comes before.
  lemma {:induction false} FinesGap(s: string, g: string)
    ensures |Fines(s, g)| == |Fines(s, "")|
    ensures Fines(s, g) != [] ==>
      && Fines(s, g)[0] == Fine(g + Fines(s, "")[0].gap, Fines(s, "")[0].ch)
      && Fines(s, g)[1..] == Fines(s, "")[1..]
  {
    if s != "" {
      if IsSpace(s[0]) {
        FinesGap(s[1..], g + [s[0]]);
        FinesGap(s[1..], "" + [s[0]]);
        if Fines(s, g) != [] {
          var rest := Fines(s[1..], "")[0].gap;
          assert g + [s[0]] + rest == g + ([s[0]] + rest);
          assert "" + [s[0]] + rest == [s[0]] + rest;
        }
      } else {
        assert g + "" == g;
      }
    }
  }

  // A text before a visible character, and the text after it.
  lemma FinesAt(a: string, c: char, b: string)
    requires !IsSpace(c)
    ensures Fines(a + [c] + b, "") == Fines(a, "") + [Fine(Tail(a, ""), c)] + Fines(b, "")
  {
    var t := Tail(a, "");
    assert a + [c] + b == a + ([c] + b);
    FinesAppend(a, [c] + b, "");
    assert ([c] + b)[1..] == b;
  }

  // The gap at the head of a text, its first visible character and what follows.
  lemma {:induction false} HeadOf(s: string) returns (g: string, c: char, rest: string)
    requires !Blank(s)
    ensures s == g + [c] + rest && Blank(g) && !IsSpace(c)
  {
    if IsSpace(s[0]) {
      assert s == [s[0]] + s[1..];
      var g', c', rest' := HeadOf(s[1..]);
      g, c, rest := [s[0]] + g', c', rest';
      assert s == g + [c] + rest;
    } else {
      g, c, rest := "", s[0], s[1..];
      assert s == g + [c] + rest;
    }
  }

  // ---------------------------------------------------------------------
  // Two texts with the same characters, gaps changed by a rule
  // ---------------------------------------------------------------------

  // Every gap of cs but the first may be one of as changed by f.
  predicate Regapped(as0: seq<Fine>, cs: seq<Fine>, f: string -> string) {
    && |cs| == |as0|
    && (forall k :: 0 <= k < |cs| ==> cs[k].ch == as0[k].ch)
    && (forall k :: 1 <= k < |cs| ==> cs[k].gap == f(as0[k].gap))
  }

  // Also the first.
  predicate AllRegapped(as0: seq<Fine>, cs: seq<Fine>, f: string -> string) {
    && |cs| == |as0|
    && (forall k :: 0 <= k < |cs| ==> cs[k] == Fine(f(as0[k].gap), as0[k].ch))
  }

  lemma RegappedHead(c: char, ga: string, gc: string, as0: seq<Fine>, cs: seq<Fine>, f: string -> string)
    requires AllRegapped(as0, cs, f)
    ensures Regapped([Fine(ga, c)] + as0, [Fine(gc, c)] + cs, f)
    ensures gc == f(ga) ==> AllRegapped([Fine(ga, c)] + as0, [Fine(gc, c)] + cs, f)
  {
  }

  // ---------------------------------------------------------------------
  // The passes of the clean-up around a visible character
  // ---------------------------------------------------------------------

  lemma {:induction false} SpaceRunAt(a: string, c: char, b: string)
    requires c != ' '
    ensures SpaceRun(a + [c] + b) == SpaceRun(a)
  {
    if a == "" {
      assert a + [c] + b == [c] + b;
    } else {
      assert (a + [c] + b)[1..] == a[1..] + [c] + b;
      SpaceRunAt(a[1..], c, b);
    }
  }

  lemma {:induction false} DropAt(a: string, c: char, b: string)
    requires !IsSpace(c)
    ensures DropTrailingSpaces(a + [c] + b) == DropTrailingSpaces(a) + [c] + DropTrailingSpaces(b)
    decreases |a|
  {
    var s := a + [c] + b;
    if a == "" {
      assert s == [c] + b && s[1..] == b;
    } else if a[0] == ' ' {
      var n := SpaceRun(a);
      SpaceRunAt(a, c, b);
      assert s[..n] == a[..n] && s[n..] == a[n..] + [c] + b;
      if n < |a| && a[n] == '\n' {
        assert s[n + 1..] == a[n + 1..] + [c] + b;
        DropAt(a[n + 1..], c, b);
        Regroup("\n", DropTrailingSpaces(a[n + 1..]), c, DropTrailingSpaces(b));
      } else {
        DropAt(a[n..], c, b);
        assert !(n < |s| && s[n] == '\n');
        Regroup(a[..n], DropTrailingSpaces(a[n..]), c, DropTrailingSpaces(b));
      }
    } else {
      assert s[1..] == a[1..] + [c] + b;
      DropAt(a[1..], c, b);
      Regroup([a[0]], DropTrailingSpaces(a[1..]), c, DropTrailingSpaces(b));
    }
  }

  lemma {:induction false} CollapseAt(a: string, c: char, b: string, preceded: bool)
    requires !IsSpace(c)
    ensures CollapseRuns(a + [c] + b, preceded) == CollapseRuns(a, preceded) + [c] + CollapseRuns(b, true)
    decreases |a|
  {
    var s := a + [c] + b;
    if a == "" {
      assert s == [c] + b && s[1..] == b;
    } else if a[0] == ' ' && preceded {
      var n := SpaceRun(a);
      SpaceRunAt(a, c, b);
      assert s[n..] == a[n..] + [c] + b;
      CollapseAt(a[n..], c, b, true);
      Regroup(" ", CollapseRuns(a[n..], true), c, CollapseRuns(b, true));
    } else {
      assert s[1..] == a[1..] + [c] + b;
      CollapseAt(a[1..], c, b, a[0] != '\n');
      Regroup([a[0]], CollapseRuns(a[1..], a[0] != '\n'), c, CollapseRuns(b, true));
    }
  }

  lemma {:induction false} TrimRightAt(a: string, c: char, b: string)
    requires !IsSpace(c)
    ensures TrimRight(a + [c] + b) == a + [c] + TrimRight(b)
  {
    var s := a + [c] + b;
    if b == "" {
      assert s == a + [c] && s[|s| - 1] == c;
    } else if IsSpace(b[|b| - 1]) {
      assert s[..|s| - 1] == a + [c] + b[..|b| - 1];
      TrimRightAt(a, c, b[..|b| - 1]);
    }
  }

  // The whole pass over the lines: M(s) in one recursion.
  function Cleaned(s: string): string
    decreases |s|
  {
    var i := IndexOf(s, '\n');
    if i == |s| then CleanLine(s) else CleanLine(s[..i]) + "\n" + Cleaned(s[i + 1..])
  }

  lemma {:induction false} CleanedLines(s: string)
    ensures Join("\n", CleanLines(Lines(s))) == Cleaned(s)
    decreases |s|
  {
    hide CleanLine, Join;
    var i := IndexOf(s, '\n');
    if i == |s| {
      CleanOne(s);
      assert [CleanLine(s)] == [CleanLine(s)] + [];
      JoinCons("\n", CleanLine(s), []);
    } else {
      var rest := Lines(s[i + 1..]);
      CleanedLines(s[i + 1..]);
      assert ([s[..i]] + rest)[1..] == rest;
      JoinCons("\n", CleanLine(s[..i]), CleanLines(rest));
    }
  }

  lemma CleanOne(s: string)
    ensures CleanLines([s]) == [CleanLine(s)]
  {
    assert [s][1..] == [];
  }

  // What becomes of a text that ends right before a visible character: from the start of
  // a line, and from within a line.
  function CleanHead(s: string): string
    decreases |s|
  {
    var i := IndexOf(s, '\n');
    if i == |s| then s[..SpaceRun(s)] + CollapseRuns(s[SpaceRun(s)..], false)
    else CleanLine(s[..i]) + "\n" + CleanHead(s[i + 1..])
  }

  function CleanInner(s: string): string {
    var i := IndexOf(s, '\n');
    if i == |s| then CollapseRuns(s, true)
    else TrimRight(CollapseRuns(s[..i], true)) + "\n" + CleanHead(s[i + 1..])
  }

  // What becomes of a text right behind a visible character.
  function CleanRest(s: string): string {
    var i := IndexOf(s, '\n');
    if i == |s| then TrimRight(CollapseRuns(s, true))
    else TrimRight(CollapseRuns(s[..i], true)) + "\n" + Cleaned(s[i + 1..])
  }

  lemma {:induction false} NoFeed(u: string)
    ensures '\n' !in u <==> IndexOf(u, '\n') == |u|
  {
    if u != "" {
      NoFeed(u[1..]);
      assert u == [u[0]] + u[1..];
    }
  }

  lemma {:induction false} FirstFeed(u: string, v: string)
    requires '\n' !in u
    ensures IndexOf(u + "\n" + v, '\n') == |u|
  {
    if u == "" {
      assert u + "\n" + v == "\n" + v;
    } else {
      assert (u + "\n" + v)[1..] == u[1..] + "\n" + v;
      FirstFeed(u[1..], v);
    }
  }

  // A text of several lines: the first, and the others.
  lemma FirstLine(s: string) returns (u: string, v: string)
    requires '\n' in s
    ensures s == u + "\n" + v && '\n' !in u
  {
    NoFeed(s);
    var i := IndexOf(s, '\n');
    u, v := s[..i], s[i + 1..];
    assert s == s[..i] + [s[i]] + s[i + 1..];
  }

  lemma SplitCleaned(u: string, v: string)
    requires '\n' !in u
    ensures Cleaned(u + "\n" + v) == CleanLine(u) + "\n" + Cleaned(v)
    ensures CleanHead(u + "\n" + v) == CleanLine(u) + "\n" + CleanHead(v)
    ensures CleanInner(u + "\n" + v) == TrimRight(CollapseRuns(u, true)) + "\n" + CleanHead(v)
    ensures CleanRest(u + "\n" + v) == TrimRight(CollapseRuns(u, true)) + "\n" + Cleaned(v)
  {
    hide CleanLine, CollapseRuns, TrimRight, IndexOf;
    var s := u + "\n" + v;
    FirstFeed(u, v);
    assert s[..|u|] == u && s[|u| + 1..] == v;
  }

  lemma LastCleaned(u: string)
    requires '\n' !in u
    ensures Cleaned(u) == CleanLine(u)
    ensures CleanHead(u) == u[..SpaceRun(u)] + CollapseRuns(u[SpaceRun(u)..], false)
    ensures CleanInner(u) == CollapseRuns(u, true)
    ensures CleanRest(u) == TrimRight(CollapseRuns(u, true))
  {
    hide CleanLine, CollapseRuns, TrimRight, IndexOf, SpaceRun;
    NoFeed(u);
  }

  lemma LineAt(a: string, c: char, b: string)
    requires !IsSpace(c)
    ensures CleanLine(a + [c] + b) ==
      a[..SpaceRun(a)] + CollapseRuns(a[SpaceRun(a)..], false) + [c] + TrimRight(CollapseRuns(b, true))
  {
    hide CollapseRuns, TrimRight;
    var n := SpaceRun(a);
    var s := a + [c] + b;
    SpaceRunAt(a, c, b);
    assert s[..n] == a[..n] && s[n..] == a[n..] + [c] + b;
    CollapseAt(a[n..], c, b, false);
    TrimRightAt(CollapseRuns(a[n..], false), c, CollapseRuns(b, true));
    var x, y := CollapseRuns(a[n..], false), TrimRight(CollapseRuns(b, true));
    assert a[..n] + (x + [c] + y) == a[..n] + x + [c] + y;
  }

  lemma {:induction false} CleanedAt(a: string, c: char, b: string)
    requires !IsSpace(c)
    ensures Cleaned(a + [c] + b) == CleanHead(a) + [c] + CleanRest(b)
    decreases |a|
  {
    hide CleanLine, CollapseRuns, TrimRight, SpaceRun, CleanRest, Cleaned, CleanHead, IndexOf;
    if '\n' in a {
      var u, v := FirstLine(a);
      SplitCleaned(u, v);
      assert a + [c] + b == u + "\n" + (v + [c] + b);
      SplitCleaned(u, v + [c] + b);
      CleanedAt(v, c, b);
      Regroup(CleanLine(u) + "\n", CleanHead(v), c, CleanRest(b));
    } else {
      LastCleaned(a);
      if '\n' in b {
        var u, v := FirstLine(b);
        SplitCleaned(u, v);
        LineAt(a, c, u);
        assert a + [c] + b == (a + [c] + u) + "\n" + v;
        SplitCleaned(a + [c] + u, v);
        Refold(CleanHead(a), c, TrimRight(CollapseRuns(u, true)), Cleaned(v));
      } else {
        LineAt(a, c, b);
        LastCleaned(b);
        LastCleaned(a + [c] + b);
      }
    }
  }

  lemma Regroup(x: string, y: string, c: char, z: string)
    ensures x + (y + [c] + z) == (x + y) + [c] + z
  {
  }

  lemma Refold(h: string, c: char, y: string, z: string)
    ensures h + [c] + y + "\n" + z == h + [c] + (y + "\n" + z)
  {
  }

  lemma RestAt(a: string, c: char, b: string)
    requires !IsSpace(c)
    ensures CleanRest(a + [c] + b) == CleanInner(a) + [c] + CleanRest(b)
  {
    hide CleanLine, CollapseRuns, TrimRight, Cleaned, CleanHead, CleanInner, CleanRest, IndexOf;
    if '\n' in a {
      var u, v := FirstLine(a);
      SplitCleaned(u, v);
      assert a + [c] + b == u + "\n" + (v + [c] + b);
      SplitCleaned(u, v + [c] + b);
      CleanedAt(v, c, b);
      Regroup(TrimRight(CollapseRuns(u, true)) + "\n", CleanHead(v), c, CleanRest(b));
    } else {
      LastCleaned(a);
      var x := CollapseRuns(a, true);
      if '\n' in b {
        var u, v := FirstLine(b);
        SplitCleaned(u, v);
        assert a + [c] + b == (a + [c] + u) + "\n" + v;
        SplitCleaned(a + [c] + u, v);
        CollapseAt(a, c, u, true);
        TrimRightAt(x, c, CollapseRuns(u, true));
        Refold(x, c, TrimRight(CollapseRuns(u, true)), Cleaned(v));
      } else {
        CollapseAt(a, c, b, true);
        TrimRightAt(x, c, CollapseRuns(b, true));
        LastCleaned(b);
        LastCleaned(a + [c] + b);
      }
    }
  }

  lemma {:induction false} DropNewlinesAt(a: string, c: char, b: string)
    requires !IsSpace(c)
    ensures DropTrailingNewlines(a + [c] + b) == a + [c] + DropTrailingNewlines(b)
  {
    var s := a + [c] + b;
    if b == "" {
      assert s == a + [c] && s[|s| - 1] == c;
    } else if b[|b| - 1] == '\n' {
      assert s[..|s| - 1] == a + [c] + b[..|b| - 1];
      DropNewlinesAt(a, c, b[..|b| - 1]);
    }
  }

  lemma {:induction false} DropLeadingAt(a: string, c: char, b: string)
    requires !IsSpace(c)
    ensures DropLeadingNewlines(a + [c] + b) == DropLeadingNewlines(a) + [c] + b
  {
    if a == "" {
      assert a + [c] + b == [c] + b;
    } else if a[0] == '\n' {
      assert (a + [c] + b)[1..] == a[1..] + [c] + b;
      DropLeadingAt(a[1..], c, b);
    }
  }

  // ---------------------------------------------------------------------
  // The clean-up, gap by gap
  // ---------------------------------------------------------------------

  // What the clean-up makes of whitespace between two visible characters.
  function CleanGap(g: string): string {
    CleanInner(DropTrailingSpaces(g))
  }

  // ... of everything behind a visible character.
  function CleanBehind(s: string): string {
    DropTrailingNewlines(CleanRest(DropTrailingSpaces(s)))
  }

  lemma CleanAt(a: string, c: char, b: string)
    requires !IsSpace(c)
    ensures Clean(a + [c] + b) == DropLeadingNewlines(CleanHead(DropTrailingSpaces(a))) + [c] + CleanBehind(b)
  {
    hide DropTrailingSpaces, Cleaned, CleanHead, CleanRest, DropLeadingNewlines, DropTrailingNewlines, CleanLines,
      Lines;
    DropAt(a, c, b);
    var x, y := DropTrailingSpaces(a), DropTrailingSpaces(b);
    CleanedLines(x + [c] + y);
    CleanedAt(x, c, y);
    DropLeadingAt(CleanHead(x), c, CleanRest(y));
    DropNewlinesAt(DropLeadingNewlines(CleanHead(x)), c, CleanRest(y));
  }

  lemma BehindAt(a: string, c: char, b: string)
    requires !IsSpace(c)
    ensures CleanBehind(a + [c] + b) == CleanGap(a) + [c] + CleanBehind(b)
  {
    hide DropTrailingSpaces, CleanInner, CleanRest, DropTrailingNewlines;
    DropAt(a, c, b);
    var x, y := DropTrailingSpaces(a), DropTrailingSpaces(b);
    RestAt(x, c, y);
    DropNewlinesAt(CleanInner(x), c, CleanRest(y));
  }

  // The passes write no visible character of their own.
  lemma {:induction false} CollapseBlank(s: string, preceded: bool)
    requires Blank(s)
    ensures Blank(CollapseRuns(s, preceded))
    decreases |s|
  {
    if s != "" {
      if s[0] == ' ' && preceded {
        CollapseBlank(s[SpaceRun(s)..], true);
      } else {
        CollapseBlank(s[1..], s[0] != '\n');
      }
    }
  }

  lemma {:induction false} DropBlank(s: string)
    requires Blank(s)
    ensures Blank(DropTrailingSpaces(s))
    decreases |s|
  {
    if s != "" {
      if s[0] == ' ' {
        var n := SpaceRun(s);
        if n < |s| && s[n] == '\n' {
          DropBlank(s[n + 1..]);
        } else {
          DropBlank(s[n..]);
        }
      } else {
        DropBlank(s[1..]);
      }
    }
  }

  lemma {:induction false} TrimRightBlank(s: string)
    requires Blank(s)
    ensures TrimRight(s) == ""
  {
    if s != "" {
      TrimRightBlank(s[..|s| - 1]);
    }
  }

  lemma CleanLineBlank(s: string)
    requires Blank(s)
    ensures CleanLine(s) == s[..SpaceRun(s)] && Blank(CleanLine(s))
  {
    var n := SpaceRun(s);
    CollapseBlank(s[n..], false);
    TrimRightBlank(CollapseRuns(s[n..], false));
    assert s[..n] + "" == s[..n];
  }

  lemma {:induction false} HeadBlank(s: string)
    requires Blank(s)
    ensures Blank(CleanHead(s))
    decreases |s|
  {
    hide CleanLine, CollapseRuns;
    var i := IndexOf(s, '\n');
    if i == |s| {
      CollapseBlank(s[SpaceRun(s)..], false);
    } else {
      CleanLineBlank(s[..i]);
      HeadBlank(s[i + 1..]);
    }
  }

  lemma GapBlank(g: string)
    requires Blank(g)
    ensures Blank(CleanGap(g))
  {
    hide CleanHead, CollapseRuns, DropTrailingSpaces;
    DropBlank(g);
    var s := DropTrailingSpaces(g);
    var i := IndexOf(s, '\n');
    CollapseBlank(s[..i], true);
    TrimRightBlank(CollapseRuns(s[..i], true));
    if i < |s| {
      HeadBlank(s[i + 1..]);
    } else {
      assert s[..i] == s;
    }
  }

  // Behind a visible character, the clean-up treats each gap by itself.
  lemma {:induction false} BehindFines(s: string)
    ensures AllRegapped(Fines(s, ""), Fines(CleanBehind(s), ""), CleanGap)
    decreases |s|
  {
    hide CleanBehind, CleanGap, Fines;
    if Blank(s) {
      BlankFines(s, "");
      BehindBlank(s);
      BlankFines(CleanBehind(s), "");
    } else {
      var g, c, rest := HeadOf(s);
      BehindAt(g, c, rest);
      BehindFines(rest);
      GapBlank(g);
      BlankFines(g, "");
      BlankFines(CleanGap(g), "");
      assert "" + g == g && "" + CleanGap(g) == CleanGap(g);
      FinesAt(g, c, rest);
      FinesAt(CleanGap(g), c, CleanBehind(rest));
      assert [] + [Fine(g, c)] == [Fine(g, c)] && [] + [Fine(CleanGap(g), c)] == [Fine(CleanGap(g), c)];
      RegappedHead(c, g, CleanGap(g), Fines(rest, ""), Fines(CleanBehind(rest), ""), CleanGap);
    }
  }

  lemma BehindBlank(s: string)
    requires Blank(s)
    ensures Blank(CleanBehind(s))
  {
    hide Cleaned, CollapseRuns, DropTrailingSpaces, DropTrailingNewlines;
    DropBlank(s);
    var t := DropTrailingSpaces(s);
    var i := IndexOf(t, '\n');
    CollapseBlank(t[..i], true);
    TrimRightBlank(CollapseRuns(t[..i], true));
    if i < |t| {
      CleanedBlank(t[i + 1..]);
    } else {
      assert t[..i] == t;
    }
    NewlinesBlank(CleanRest(t));
  }

  lemma {:induction false} CleanedBlank(s: string)
    requires Blank(s)
    ensures Blank(Cleaned(s))
    decreases |s|
  {
    hide CleanLine;
    var i := IndexOf(s, '\n');
    CleanLineBlank(s[..i]);
    if i == |s| {
      assert s[..i] == s;
    } else {
      CleanedBlank(s[i + 1..]);
    }
  }

  lemma {:induction false} NewlinesBlank(s: string)
    requires Blank(s)
    ensures Blank(DropTrailingNewlines(s)) && Blank(DropLeadingNewlines(s))
  {
    if s != "" && s[|s| - 1] == '\n' {
      NewlinesBlank(s[..|s| - 1]);
    }
    if s != "" && s[0] == '\n' {
      NewlinesBlank(s[1..]);
    }
  }

  // The clean-up keeps every visible character exactly, and changes each gap between two
  // of them by itself.
  lemma CleanFines(s: string)
    ensures Regapped(Fines(s, ""), Fines(Clean(s), ""), CleanGap)
  {
    hide Clean, CleanBehind, CleanGap, Fines, CleanHead, DropTrailingSpaces, DropLeadingNewlines;
    if Blank(s) {
      BlankFines(s, "");
      CleanBlank(s);
      BlankFines(Clean(s), "");
    } else {
      var g, c, rest := HeadOf(s);
      CleanAt(g, c, rest);
      BehindFines(rest);
      DropBlank(g);
      HeadBlank(DropTrailingSpaces(g));
      NewlinesBlank(CleanHead(DropTrailingSpaces(g)));
      var h := DropLeadingNewlines(CleanHead(DropTrailingSpaces(g)));
      BlankFines(g, "");
      BlankFines(h, "");
      assert "" + g == g && "" + h == h;
      FinesAt(g, c, rest);
      FinesAt(h, c, CleanBehind(rest));
      assert [] + [Fine(g, c)] == [Fine(g, c)] && [] + [Fine(h, c)] == [Fine(h, c)];
      RegappedHead(c, g, h, Fines(rest, ""), Fines(CleanBehind(rest), ""), CleanGap);
    }
  }

  lemma CleanBlank(s: string)
    requires Blank(s)
    ensures Blank(Clean(s))
  {
    hide Cleaned, DropTrailingSpaces, DropTrailingNewlines, DropLeadingNewlines, Lines, CleanLines;
    DropBlank(s);
    CleanedLines(DropTrailingSpaces(s));
    CleanedBlank(DropTrailingSpaces(s));
    NewlinesBlank(Cleaned(DropTrailingSpaces(s)));
    NewlinesBlank(DropLeadingNewlines(Cleaned(DropTrailingSpaces(s))));
  }
}
