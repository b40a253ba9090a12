// What scrubbing removes, said without the matcher: the regions of a text.
module Regions {
  import opened Text
  import opened Scrub

  // ---------------------------------------------------------------------
  // Comments and literals
  // ---------------------------------------------------------------------

  // From a double dash to the end of its line.
  predicate IsLineComment(s: string, a: nat, b: nat) {
    && a + 2 <= b <= |s| && s[a] == '-' && s[a + 1] == '-'
    && (forall k :: a + 2 <= k < b ==> s[k] != '\n')
    && (b < |s| ==> s[b] == '\n')
  }

  // From a slash and star to the first star and slash behind them.
  predicate IsBlockComment(s: string, a: nat, b: nat) {
    && a + 4 <= b <= |s| && s[a] == '/' && s[a + 1] == '*' && s[b - 2] == '*' && s[b - 1] == '/'
    && forall k :: a + 2 <= k < b - 2 ==> !(s[k] == '*' && s[k + 1] == '/')
  }

  // Every quote in s[a..b] is one of two next to each other.
  predicate Doubled(s: string, a: nat, b: nat, quote: char)
    requires a <= b <= |s|
    decreases b - a
  {
    if a == b then true
    else if s[a] != quote then Doubled(s, a + 1, b, quote)
    else a + 1 < b && s[a + 1] == quote && Doubled(s, a + 2, b, quote)
  }

  // From a quote to one of the same kind, all between them doubled; the closing one has
  // none of its kind next to it, or the next one is the last of its kind in the text.
  predicate IsLiteral(s: string, a: nat, b: nat) {
    && a + 2 <= b <= |s| && (s[a] == '\'' || s[a] == '"') && s[b - 1] == s[a]
    && Doubled(s, a + 1, b - 1, s[a])
    && (b < |s| && s[b] == s[a] ==> forall k :: b < k < |s| ==> s[k] != s[a])
  }

  predicate IsRegion(s: string, a: nat, b: nat) {
    IsLineComment(s, a, b) || IsBlockComment(s, a, b) || IsLiteral(s, a, b)
  }

  // ---------------------------------------------------------------------
  // The matcher finds them
  // ---------------------------------------------------------------------

  lemma {:induction false} ClosingIs(s: string, i: nat, quote: char)
    requires i <= |s|
    ensures
      var r := Closing(s, i, quote);
      r.Match? ==>
        && Doubled(s, i, r.end - 1, quote)
        && (r.end < |s| && s[r.end] == quote ==> forall k :: r.end < k < |s| ==> s[k] != quote)
    decreases |s| - i
  {
    if i < |s| {
      if s[i] != quote {
        ClosingIs(s, i + 1, quote);
      } else if i + 1 < |s| && s[i + 1] == quote {
        ClosingIs(s, i + 2, quote);
      }
    }
  }

  lemma {:induction false} ClosingOnly(s: string, i: nat, quote: char, b: nat)
    requires i < b <= |s| && s[b - 1] == quote && Doubled(s, i, b - 1, quote)
    requires b < |s| && s[b] == quote ==> forall k :: b < k < |s| ==> s[k] != quote
    ensures Closing(s, i, quote) == Match(b)
    decreases |s| - i
  {
    if i < b - 1 {
      ClosingOnly(s, if s[i] != quote then i + 1 else i + 2, quote, b);
    } else if b < |s| && s[b] == quote {
      assert Closing(s, b + 1, quote).NoMatch?;
    }
  }

  // At every position the pattern matches exactly the region that starts there.
  lemma MatchIsRegion(s: string, i: nat, b: nat)
    requires i <= |s|
    ensures MatchAt(s, i) == Match(b) <==> IsRegion(s, i, b)
  {
    hide Doubled, Closing, LineEnd, BlockEnd;
    if i + 1 < |s| {
      if s[i] == '\'' || s[i] == '"' {
        QuoteIsRegion(s, i, b);
      } else if s[i] == '-' && s[i + 1] == '-' {
        LineIsRegion(s, i, b);
      } else if s[i] == '/' && s[i + 1] == '*' {
        BlockIsRegion(s, i, b);
      }
    }
    if i + 1 == |s| {
      assert Closing(s, i + 1, s[i]).NoMatch?;
    }
  }

  lemma QuoteIsRegion(s: string, i: nat, b: nat)
    requires i + 1 < |s| && (s[i] == '\'' || s[i] == '"')
    ensures MatchAt(s, i) == Match(b) <==> IsLiteral(s, i, b)
  {
    hide Doubled, Closing;
    ClosingIs(s, i + 1, s[i]);
    if IsLiteral(s, i, b) {
      ClosingOnly(s, i + 1, s[i], b);
    }
  }

  lemma LineIsRegion(s: string, i: nat, b: nat)
    requires i + 1 < |s| && s[i] == '-' && s[i + 1] == '-'
    ensures MatchAt(s, i) == Match(b) <==> IsLineComment(s, i, b)
  {
    hide LineEnd;
    var end := LineEnd(s, i + 2);
    assert b < end && b >= i + 2 ==> s[b] != '\n';
    assert end < b <= |s| ==> s[end] == '\n';
  }

  lemma BlockIsRegion(s: string, i: nat, b: nat)
    requires i + 1 < |s| && s[i] == '/' && s[i + 1] == '*'
    ensures MatchAt(s, i) == Match(b) <==> IsBlockComment(s, i, b)
  {
    hide BlockEnd;
    var r := BlockEnd(s, i + 2);
    if IsBlockComment(s, i, b) {
      assert StarSlash(s, b - 2);
      forall k | i + 2 <= k < b - 2 ensures !StarSlash(s, k) {
      }
    }
    if r == Match(b) {
      forall k | i + 2 <= k < b - 2 ensures !(s[k] == '*' && s[k + 1] == '/') {
        assert !StarSlash(s, k);
      }
    }
  }

  // ---------------------------------------------------------------------
  // What is removed
  // ---------------------------------------------------------------------

  predicate Within(rs: seq<(nat, nat)>, p: int) {
    exists i :: 0 <= i < |rs| && rs[i].0 <= p < rs[i].1
  }

  // Regions of the text one behind the other, such that no region starts outside them.
  ghost predicate Divides(s: string, rs: seq<(nat, nat)>) {
    && (forall i :: 0 <= i < |rs| ==> IsRegion(s, rs[i].0, rs[i].1))
    && (forall i, j :: 0 <= i < j < |rs| ==> rs[i].1 <= rs[j].0)
    && (forall p: nat, b: nat :: p < |s| && IsRegion(s, p, b) ==> Within(rs, p))
  }

  // No region reaches over the border at i.
  predicate Border(rs: seq<(nat, nat)>, i: nat) {
    forall k :: 0 <= k < |rs| ==> i <= rs[k].0 || rs[k].1 <= i
  }

  lemma {:induction false} RemovedFrom(s: string, rs: seq<(nat, nat)>, i: nat, p: int)
    requires i <= |s| && Divides(s, rs) && Border(rs, i)
    ensures Removed(s, i, p) <==> i <= p && Within(rs, p)
    decreases |s| - i
  {
    hide MatchAt, IsRegion;
    if i == |s| {
      forall k | 0 <= k < |rs| ensures rs[k].1 <= |s| {
        RegionSize(s, rs[k].0, rs[k].1);
      }
    } else {
      var next := StepOver(s, rs, i);
      RemovedFrom(s, rs, next, p);
    }
  }

  lemma RegionSize(s: string, a: nat, b: nat)
    requires IsRegion(s, a, b)
    ensures a + 2 <= b <= |s|
  {
  }

  // The scan goes from border to border.
  lemma StepOver(s: string, rs: seq<(nat, nat)>, i: nat) returns (next: nat)
    requires i < |s| && Divides(s, rs) && Border(rs, i)
    ensures i < next <= |s| && Border(rs, next)
    ensures next == if MatchAt(s, i).Match? then MatchAt(s, i).end else i + 1
    ensures forall p :: i <= p < next ==> (Within(rs, p) <==> MatchAt(s, i).Match?)
  {
    hide MatchAt, IsRegion;
    var m := MatchAt(s, i);
    next := if m.Match? then m.end else i + 1;
    if m.Match? {
      MatchIsRegion(s, i, m.end);
      assert Within(rs, i);
      var k :| 0 <= k < |rs| && rs[k].0 <= i < rs[k].1;
      MatchIsRegion(s, i, rs[k].1);
      assert rs[k].0 == i && rs[k].1 == m.end;
      forall j | 0 <= j < |rs| ensures next <= rs[j].0 || rs[j].1 <= next {
        assert j < k ==> rs[j].1 <= rs[k].0;
        assert k < j ==> rs[k].1 <= rs[j].0;
      }
    } else {
      forall k | 0 <= k < |rs| ensures rs[k].0 != i {
        RegionSize(s, rs[k].0, rs[k].1);
        MatchIsRegion(s, rs[k].0, rs[k].1);
      }
    }
  }

  function Divided(s: string, i: nat): (rs: seq<(nat, nat)>)
    requires i <= |s|
    decreases |s| - i
  {
    if i == |s| then []
    else
      match MatchAt(s, i)
      case Match(end) => [(i, end)] + Divided(s, end)
      case NoMatch => Divided(s, i + 1)
  }

  lemma {:induction false} DividedAre(s: string, i: nat, k: nat)
    requires i <= |s| && k < |Divided(s, i)|
    ensures i <= Divided(s, i)[k].0 && IsRegion(s, Divided(s, i)[k].0, Divided(s, i)[k].1)
    decreases |s| - i
  {
    hide MatchAt, IsRegion;
    var m := MatchAt(s, i);
    if m.Match? {
      MatchIsRegion(s, i, m.end);
      if k > 0 {
        DividedAre(s, m.end, k - 1);
      }
    } else {
      DividedAre(s, i + 1, k);
    }
  }

  lemma {:induction false} DividedAscends(s: string, i: nat, k: nat, j: nat)
    requires i <= |s| && k < j < |Divided(s, i)|
    ensures Divided(s, i)[k].1 <= Divided(s, i)[j].0
    decreases |s| - i
  {
    hide MatchAt;
    var m := MatchAt(s, i);
    if m.Match? {
      DividedAre(s, m.end, j - 1);
      if k > 0 {
        DividedAscends(s, m.end, k - 1, j - 1);
      }
    } else {
      DividedAscends(s, i + 1, k, j);
    }
  }

  lemma {:induction false} DividedMisses(s: string, i: nat, p: nat, b: nat)
    requires i <= p < |s| && IsRegion(s, p, b)
    ensures Within(Divided(s, i), p)
    decreases |s| - i
  {
    hide MatchAt, IsRegion;
    var m := MatchAt(s, i);
    if i == p {
      MatchIsRegion(s, i, b);
      RegionSize(s, p, b);
      assert Divided(s, i)[0] == (i, b);
    } else if m.Match? {
      var rest := Divided(s, m.end);
      if p < m.end {
        assert Divided(s, i)[0] == (i, m.end);
      } else {
        DividedMisses(s, m.end, p, b);
        var k :| 0 <= k < |rest| && rest[k].0 <= p < rest[k].1;
        assert Divided(s, i)[k + 1] == rest[k];
      }
    } else {
      DividedMisses(s, i + 1, p, b);
    }
  }

  lemma DividedDivides(s: string)
    ensures Divides(s, Divided(s, 0))
  {
    hide Divided, IsRegion, Within;
    var rs := Divided(s, 0);
    forall k | 0 <= k < |rs| ensures IsRegion(s, rs[k].0, rs[k].1) {
      DividedAre(s, 0, k);
    }
    forall k, j | 0 <= k < j < |rs| ensures rs[k].1 <= rs[j].0 {
      DividedAscends(s, 0, k, j);
    }
    forall p: nat, b: nat | p < |s| && IsRegion(s, p, b) ensures Within(rs, p) {
      DividedMisses(s, 0, p, b);
    }
  }

  // There is one way to divide a text, and what it holds is what scrubbing removes.
  lemma RemovedIsDivided(s: string, rs: seq<(nat, nat)>, p: int)
    ensures Divides(s, Divided(s, 0))
    ensures Divides(s, rs) ==> (Removed(s, 0, p) <==> 0 <= p && Within(rs, p))
  {
    hide IsRegion;
    DividedDivides(s);
    if Divides(s, rs) {
      RemovedFrom(s, rs, 0, p);
    }
  }

  // A double dash.
  predicate Dashes(s: string, k: int) {
    0 <= k && k + 1 < |s| && s[k] == '-' && s[k + 1] == '-'
  }

  // No line feed from position k to p, both included.
  predicate InLine(s: string, k: nat, p: nat)
    requires k <= p < |s|
  {
    forall m :: k <= m <= p ==> s[m] != '\n'
  }

  // In a text without quotes and openings of block comments a position is removed exactly
  // if a double dash starts at it or before it on its line.
  lemma LineCommentsOnly(s: string, p: nat)
    requires p < |s| && forall k :: 0 <= k < |s| ==> s[k] != '\'' && s[k] != '"'
    requires forall k :: 0 <= k < |s| - 1 ==> !(s[k] == '/' && s[k + 1] == '*')
    ensures Removed(s, 0, p) <==> exists k: nat :: k <= p && Dashes(s, k) && InLine(s, k, p)
  {
    hide MatchAt, Removed, Divided, IsRegion, Divides, Dashes, InLine;
    var rs := Divided(s, 0);
    RemovedIsDivided(s, rs, p);
    if Within(rs, p) {
      var i :| 0 <= i < |rs| && rs[i].0 <= p < rs[i].1;
      assert IsRegion(s, rs[i].0, rs[i].1) by { RegionAt(s, rs, i); }
      OnlyLines(s, rs[i].0, rs[i].1, p);
    }
    if k: nat :| k <= p && Dashes(s, k) && InLine(s, k, p) {
      var end := DashesStart(s, k, p);
      assert Within(rs, k) by { Covered(s, rs, k, end); }
      var i :| 0 <= i < |rs| && rs[i].0 <= k < rs[i].1;
      assert IsRegion(s, rs[i].0, rs[i].1) by { RegionAt(s, rs, i); }
      LineReaches(s, rs[i].0, rs[i].1, k, p);
    }
  }

  lemma RegionAt(s: string, rs: seq<(nat, nat)>, i: nat)
    requires Divides(s, rs) && i < |rs|
    ensures IsRegion(s, rs[i].0, rs[i].1)
  {
  }

  lemma Covered(s: string, rs: seq<(nat, nat)>, p: nat, b: nat)
    requires Divides(s, rs) && p < |s| && IsRegion(s, p, b)
    ensures Within(rs, p)
  {
  }

  // Without quotes and block comments every region is a line comment.
  lemma OnlyLines(s: string, a: nat, b: nat, p: nat)
    requires IsRegion(s, a, b) && a <= p < b && forall k :: 0 <= k < |s| ==> s[k] != '\'' && s[k] != '"'
    requires forall k :: 0 <= k < |s| - 1 ==> !(s[k] == '/' && s[k + 1] == '*')
    ensures p < |s| && Dashes(s, a) && InLine(s, a, p)
  {
    hide Doubled;
    assert IsLineComment(s, a, b);
  }

  lemma DashesStart(s: string, k: nat, p: nat) returns (end: nat)
    requires k <= p < |s| && Dashes(s, k) && InLine(s, k, p)
    ensures IsRegion(s, k, end)
  {
    hide LineEnd, Doubled;
    end := LineEnd(s, k + 2);
    assert IsLineComment(s, k, end);
  }

  lemma LineReaches(s: string, a: nat, b: nat, k: nat, p: nat)
    requires IsRegion(s, a, b) && a <= k < b && k <= p < |s| && InLine(s, k, p)
    requires forall k :: 0 <= k < |s| ==> s[k] != '\'' && s[k] != '"'
    requires forall k :: 0 <= k < |s| - 1 ==> !(s[k] == '/' && s[k + 1] == '*')
    ensures a <= p < b
  {
    hide Doubled;
    assert IsLineComment(s, a, b);
  }

  // ---------------------------------------------------------------------
  // Table names
  // ---------------------------------------------------------------------

  // In capitals a table name is TB, a system of three letters and seven letters or
  // digits, with underscores in between.
  ghost predicate InCapitals(u: string, system: string, id: string) {
    && u == "TB_" + system + "_" + id && |system| == 3 && |id| == 7
    && (forall k :: 0 <= k < 3 ==> 'A' <= system[k] <= 'Z')
    && (forall k :: 0 <= k < 7 ==> 'A' <= id[k] <= 'Z' || '0' <= id[k] <= '9')
  }

  lemma NamesInCapitals(n: string)
    ensures IsTableName(n) <==> exists system, id :: InCapitals(Upper(n), system, id)
  {
    var u := Upper(n);
    if IsTableName(n) {
      assert u[2] == '_' && u[6] == '_';
      assert u == "TB_" + u[3..6] + "_" + u[7..14];
      assert InCapitals(u, u[3..6], u[7..14]);
    }
    if system, id :| InCapitals(u, system, id) {
      CapitalsAt(u, system, id);
      forall k | 0 <= k < 14 ensures u[k] == Up(n[k]) {
      }
      assert n[2] == '_' && n[6] == '_';
      assert forall k :: 3 <= k < 6 ==> IsLetter(n[k]);
      assert forall k :: 7 <= k < 14 ==> IsLetter(n[k]) || IsDigit(n[k]);
    }
  }

  lemma CapitalsAt(u: string, system: string, id: string)
    requires InCapitals(u, system, id)
    ensures |u| == 14 && u[0] == 'T' && u[1] == 'B' && u[2] == '_' && u[6] == '_'
    ensures forall k :: 3 <= k < 6 ==> 'A' <= u[k] <= 'Z'
    ensures forall k :: 7 <= k < 14 ==> 'A' <= u[k] <= 'Z' || '0' <= u[k] <= '9'
  {
    assert forall k :: 3 <= k < 6 ==> u[k] == system[k - 3];
    assert forall k :: 7 <= k < 14 ==> u[k] == id[k - 7];
  }

  // The names found are exactly those that stand outside the regions, whatever way the
  // text is divided.
  lemma FoundOutside(s: string, rs: seq<(nat, nat)>, n: string)
    requires Divides(s, rs)
    ensures n in TableNames(StripCommentsAndLiterals(s), 0) <==>
      exists p: nat :: TableAt(s, p) && s[p..p + 14] == n && forall x :: p <= x < p + 14 ==> !Within(rs, x)
  {
    hide TableAt, Within, Divides, Removed, TableNames, StripFrom;
    TablesFound(s, n);
    forall x: nat ensures Removed(s, 0, x) <==> Within(rs, x) {
      RemovedIsDivided(s, rs, x);
    }
  }

  // A letter beyond ASCII right behind a name belongs to the word: no name is found.
  const PARTICLE := '\U{B294}'

  lemma ParticleHides()
    ensures TableNames("TB_ADW_DEA208M", 0) == ["TB_ADW_DEA208M"]
    ensures TableNames("TB_ADW_DEA208M" + [PARTICLE], 0) == []
  {
    var name := "TB_ADW_DEA208M";
    var t := name + [PARTICLE];
    assert IsTableName(name);
    assert name[0..14] == name && t[0..14] == name;
    assert TableAt(name, 0) && TableNames(name, 14) == [];
    assert !TableAt(t, 0) && t[1..15][0] == 'B' && !TableAt(t, 1);
    forall n ensures n !in TableNames(t, 0) {
      TableNamesComplete(t, 0, n);
    }
    SomeMember(TableNames(t, 0));
  }

  lemma SomeMember(xs: seq<string>)
    ensures xs != [] ==> exists x :: x in xs
  {
    if xs != [] {
      assert xs[0] in xs;
    }
  }
}
