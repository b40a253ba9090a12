// Where keywords land in the formatted text.
module Columns {
  import opened Text
  import opened SqlTree
  import opened Rendering
  import opened Preservation
  import opened Layout
  import opened PostProcess
  import opened Gaps
  import opened Stable
  import opened Transcript
  import opened Written
  import opened Transcribes

  // ---------------------------------------------------------------------
  // The start of a line survives the clean-up
  // ---------------------------------------------------------------------

  // Empty, or ending with a line feed.
  predicate WholeLines(p: string) {
    p == "" || p[|p| - 1] == '\n'
  }

  lemma LineOff(p: string) returns (u: string, v: string)
    requires p != "" && WholeLines(p)
    ensures p == u + "\n" + v && '\n' !in u && WholeLines(v)
  {
    u, v := FirstLine(p);
    assert v != "" ==> v[|v| - 1] == p[|p| - 1];
  }

  lemma {:induction false} DropKeepsLine(p: string, n: nat) returns (x: string)
    requires WholeLines(p)
    ensures DropTrailingSpaces(p + Spaces(n)) == x + Spaces(n) && WholeLines(x)
    decreases |p|
  {
    hide DropTrailingSpaces, DropEnd;
    if p == "" {
      x := "";
      assert "" + Spaces(n) == Spaces(n);
      DropNothing(Spaces(n));
    } else {
      var u, v := LineOff(p);
      var y := DropKeepsLine(v, n);
      assert p + Spaces(n) == u + "\n" + (v + Spaces(n));
      DropByLine(u, v + Spaces(n));
      x := DropEnd(u) + "\n" + y;
      assert DropEnd(u) + "\n" + (y + Spaces(n)) == x + Spaces(n);
    }
  }

  lemma {:induction false} HeadKeepsLine(p: string, n: nat) returns (x: string)
    requires WholeLines(p)
    ensures CleanHead(p + Spaces(n)) == x + Spaces(n) && WholeLines(x)
    decreases |p|
  {
    hide CleanHead, CleanLine;
    if p == "" {
      x := "";
      assert "" + Spaces(n) == Spaces(n);
      HeadOfSpaces(n);
    } else {
      var u, v := LineOff(p);
      var y := HeadKeepsLine(v, n);
      assert p + Spaces(n) == u + "\n" + (v + Spaces(n));
      SplitCleaned(u, v + Spaces(n));
      x := CleanLine(u) + "\n" + y;
      assert CleanLine(u) + "\n" + (y + Spaces(n)) == x + Spaces(n);
    }
  }

  lemma HeadOfSpaces(n: nat)
    ensures CleanHead(Spaces(n)) == Spaces(n)
  {
    hide CleanHead, CollapseRuns;
    LastCleaned(Spaces(n));
    SpacesRun(Spaces(n));
    assert CollapseRuns("", false) == "" by { NothingCollapses(); }
    assert Spaces(n)[n..] == "" && Spaces(n)[..n] + "" == Spaces(n);
  }

  lemma NothingCollapses()
    ensures CollapseRuns("", false) == ""
  {
  }

  lemma {:induction false} LeadingKeepsLine(p: string, n: nat) returns (x: string)
    requires WholeLines(p)
    ensures DropLeadingNewlines(p + Spaces(n)) == x + Spaces(n) && WholeLines(x)
  {
    if p == "" {
      x := "";
      assert "" + Spaces(n) == Spaces(n);
    } else if p[0] == '\n' {
      assert (p + Spaces(n))[1..] == p[1..] + Spaces(n);
      x := LeadingKeepsLine(p[1..], n);
    } else {
      x := p;
    }
  }

  lemma {:induction false} BehindKeepsWord(w: string, q: string)
    requires forall i :: 0 <= i < |w| ==> !IsSpace(w[i])
    ensures w <= CleanBehind(w + q)
  {
    hide CleanBehind, CleanGap;
    if w != "" {
      BehindKeepsWord(w[1..], q);
      assert w + q == "" + [w[0]] + (w[1..] + q);
      BehindAt("", w[0], w[1..] + q);
      assert CleanGap("") == "" by { NoGap(); }
      assert w == [w[0]] + w[1..];
      assert "" + [w[0]] + CleanBehind(w[1..] + q) == [w[0]] + CleanBehind(w[1..] + q);
    }
  }

  lemma NoGap()
    ensures CleanGap("") == ""
  {
    GapOneLine("");
    assert CollapseRuns("", true) == "";
  }

  lemma {:induction false} FinesCanon(s: string, g: string)
    ensures |Fines(s, g)| == |Canon(s)|
    ensures forall k :: 0 <= k < |Canon(s)| ==> Canon(s)[k] == Up(Fines(s, g)[k].ch)
  {
    if s != "" {
      FinesCanon(s[1..], if IsSpace(s[0]) then g + [s[0]] else "");
    }
  }

  lemma BehindCanon(s: string)
    ensures Canon(CleanBehind(s)) == Canon(s)
  {
    hide CleanBehind, CleanGap, Fines, Canon;
    BehindFines(s);
    FinesCanon(s, "");
    FinesCanon(CleanBehind(s), "");
  }

  // An indentation of blanks and the word behind it stay at the start of a line, and
  // what is visible before and after them stays before and after.
  lemma CleanKeepsLine(p: string, n: nat, w: string, q: string) returns (a: string, b: string)
    requires WholeLines(p) && w != "" && forall i :: 0 <= i < |w| ==> !IsSpace(w[i])
    ensures Clean(p + Spaces(n) + w + q) == a + Spaces(n) + w + b && WholeLines(a)
    ensures Canon(a) == Canon(p) && Canon(w + b) == Canon(w + q)
  {
    hide Clean, CleanBehind, CleanHead, DropTrailingSpaces, DropLeadingNewlines, Canon, WholeLines;
    var c, rest := w[0], w[1..] + q;
    assert p + Spaces(n) + w + q == (p + Spaces(n)) + [c] + rest;
    CleanAt(p + Spaces(n), c, rest);
    var x := DropKeepsLine(p, n);
    var y := HeadKeepsLine(x, n);
    a := LeadingKeepsLine(y, n);
    BehindKeepsWord(w[1..], q);
    var behind := CleanBehind(rest);
    b := behind[|w| - 1..];
    assert behind == w[1..] + b && [c] + w[1..] == w;
    assert a + Spaces(n) + [c] + behind == a + Spaces(n) + w + b;
    CanonKept(p, n, c, rest, a, behind);
    BehindCanon(rest);
    assert w + b == [c] + behind && w + q == [c] + rest;
    CanonAppend([c], behind);
    CanonAppend([c], rest);
  }

  lemma CanonKept(p: string, n: nat, c: char, rest: string, a: string, behind: string)
    requires Clean(p + Spaces(n) + [c] + rest) == a + Spaces(n) + [c] + behind && behind == CleanBehind(rest)
    ensures Canon(a) == Canon(p)
  {
    hide Clean, CleanBehind, Canon;
    CleanKeepsCells(p + Spaces(n) + [c] + rest);
    BehindCanon(rest);
    SplitCanon(p, n, c, rest);
    SplitCanon(a, n, c, behind);
    var t := Canon([c]) + Canon(rest);
    assert (Canon(p) + t)[..|Canon(p)|] == Canon(p) && (Canon(a) + t)[..|Canon(a)|] == Canon(a);
  }

  lemma SplitCanon(p: string, n: nat, c: char, rest: string)
    ensures Canon(p + Spaces(n) + [c] + rest) == Canon(p) + (Canon([c]) + Canon(rest))
  {
    hide Canon;
    CanonAppend(p + Spaces(n) + [c], rest);
    CanonAppend(p + Spaces(n), [c]);
    CanonAppend(p, Spaces(n));
    BlankIsInvisible(Spaces(n));
    assert Canon(p) + "" == Canon(p);
    assert Canon(p) + Canon([c]) + Canon(rest) == Canon(p) + (Canon([c]) + Canon(rest));
  }

  // ---------------------------------------------------------------------
  // The first word of a keyword
  // ---------------------------------------------------------------------

  predicate OnlyBlanks(s: string) {
    forall i :: 0 <= i < |s| && IsSpace(s[i]) ==> s[i] == ' '
  }

  lemma {:induction false} WordsPlain(s: string)
    ensures forall k :: 0 <= k < |Words(s)| ==> OnlyBlanks(Words(s)[k])
    decreases |s|
  {
    var t := TrimLeft(s);
    if t != "" {
      var n := WordLength(t);
      WordsPlain(t[n..]);
      assert Words(s) == [t[..n]] + Words(t[n..]);
    }
  }

  lemma {:induction false} JoinPlain(xs: seq<string>)
    requires forall k :: 0 <= k < |xs| ==> OnlyBlanks(xs[k])
    ensures OnlyBlanks(Join(" ", xs))
  {
    if |xs| > 1 {
      JoinPlain(xs[1..]);
      assert OnlyBlanks(xs[0]);
    }
  }

  lemma NormalizedPlain(value: string)
    ensures OnlyBlanks(Normalize(value))
  {
    hide Join, Words, OnlyBlanks;
    WordsPlain(Upper(value));
    JoinPlain(Words(Upper(value)));
  }

  lemma KeywordPlain(own: Tokens, uppercase: bool)
    requires IsKeyRun(own)
    ensures OnlyBlanks(KeywordText(Merged(own), uppercase))
  {
    hide Normalize;
    NormalizedPlain(own[0].value);
    NormalizedPlain(own[|own| - 1].value);
    var norm := Merged(own);
    assert OnlyBlanks(norm);
    assert forall i :: 0 <= i < |norm| ==> (IsSpace(Lower(norm)[i]) <==> IsSpace(norm[i]));
  }

  lemma FirstWordVisible(kw: string)
    requires OnlyBlanks(kw) && kw != "" && !IsSpace(kw[0])
    ensures FirstWord(kw) != "" && forall i :: 0 <= i < |FirstWord(kw)| ==> !IsSpace(FirstWord(kw)[i])
    ensures FirstWord(kw) <= kw
  {
    var n := IndexOf(kw, ' ');
    assert n > 0;
  }

  // ---------------------------------------------------------------------
  // Keyword columns in the formatted statement
  // ---------------------------------------------------------------------

  lemma {:induction false} SplitOut(ps: seq<Piece>, k: nat)
    requires 0 < k < |ps|
    ensures Out(ps) == Out(ps[..k - 1]) + TextOf(ps[k - 1]) + TextOf(ps[k]) + Out(ps[k + 1..])
    ensures Out(ps[..k]) == Out(ps[..k - 1]) + TextOf(ps[k - 1])
    ensures Out(ps[k..]) == TextOf(ps[k]) + Out(ps[k + 1..])
  {
    hide Out;
    var a, b, c := ps[..k - 1], [ps[k - 1]], ps[k..];
    assert ps == (a + b) + c && ps[..k] == a + b && c == [ps[k]] + ps[k + 1..];
    OutAppend(a + b, c);
    OutAppend(a, b);
    OutOf([ps[k]], ps[k + 1..]);
    OutOf(b, []);
  }

  lemma KeyTextSolid(p: Piece, uppercase: bool)
    requires p.Key? && PieceOk(p, uppercase)
    ensures p.text != "" && !IsSpace(p.text[0])
    ensures OnlyBlanks(p.text)
  {
    hide Normalize, Separation.Solid;
    KeywordPlain(p.toks, uppercase);
    assert Separation.Solid(Merged(p.toks)) by { MergedSolid(p.toks); }
    Separation.KeywordTextSolid(Merged(p.toks), uppercase);
    Separation.SolidEnds(p.text);
  }

  lemma MergedSolid(own: Tokens)
    requires IsKeyRun(own) && AllWellFormed(own)
    ensures Separation.Solid(Merged(own))
  {
    hide Normalize;
    assert WellFormed(own[0]) && WellFormed(own[|own| - 1]);
    Separation.NormalizeSolid(own[0].value);
    Separation.NormalizeSolid(own[|own| - 1].value);
  }

  const LINE_CLAUSES := {
    "SELECT", "FROM", "WHERE", "GROUP BY", "HAVING", "ORDER BY", "OFFSET", "INSERT INTO", "VALUES", "UPDATE", "SET",
    "DELETE FROM", "RETURNING", "WITH", "LIMIT", "CONNECT BY", "START WITH", "QUALIFY", "DECLARE", "IF"
  }

  const LINE_JOINS := {
    "JOIN", "INNER JOIN", "LEFT JOIN", "RIGHT JOIN", "FULL JOIN", "CROSS JOIN", "LEFT OUTER JOIN",
    "RIGHT OUTER JOIN", "FULL OUTER JOIN", "NATURAL JOIN", "LEFT INNER JOIN"
  }

  // The keywords that open a line, by what they say; AND and OR do unless they separate
  // the bounds of a BETWEEN.
  predicate OpensLine(p: Piece) {
    p.Key? && IsKeyRun(p.toks) &&
    var norm := Merged(p.toks);
    norm in LINE_CLAUSES || norm in LINE_JOINS || norm == "ON" || (norm in {"AND", "OR"} && !p.kind.Other?)
  }

  lemma SaidKind(norm: string)
    ensures norm in LINE_CLAUSES ==> Classify(norm).Clause?
    ensures norm in LINE_JOINS ==> OpensColumn(Classify(norm))
    ensures norm in {"AND", "OR", "ON"} ==> OpensColumn(Classify(norm))
    ensures norm in LINE_CLAUSES || norm in LINE_JOINS || norm == "ON" ==> norm !in {"AND", "OR", "END"}
  {
  }

  const SET_OPERATORS := {
    "UNION", "UNION ALL", "UNION DISTINCT", "EXCEPT", "EXCEPT ALL", "INTERSECT", "INTERSECT ALL", "MINUS"
  }

  // Every keyword is what it says, and nothing else is any of these.
  lemma KindsOf(norm: string)
    ensures Classify(norm).Clause? <==> norm in LINE_CLAUSES
    ensures Classify(norm).JoinOp? <==> norm in LINE_JOINS
    ensures Classify(norm).SetOp? <==> norm in SET_OPERATORS
  {
    assert CLAUSES == LINE_CLAUSES && JOINS == LINE_JOINS && SET_OPS == SET_OPERATORS;
    Disjoint(norm);
  }

  lemma Disjoint(norm: string)
    ensures !(norm in CLAUSES && norm in JOINS) && !(norm in CLAUSES && norm in SET_OPS)
    ensures !(norm in JOINS && norm in SET_OPS)
  {
  }

  lemma WordKinds(norm: string)
    ensures Classify(norm).Logical? <==> norm == "AND" || norm == "OR"
    ensures Classify(norm).BlockStart? <==> norm == "BEGIN"
    ensures Classify(norm).CaseStart? <==> norm == "CASE"
    ensures Classify(norm).CaseInner? <==> norm in {"WHEN", "THEN", "ELSE"}
    ensures Classify(norm).CaseEnd? <==> norm == "END"
    ensures Classify(norm).On? <==> norm == "ON"
  {
  }

  lemma OpensLineKind(p: Piece, uppercase: bool)
    requires p.Key? && PieceOk(p, uppercase) && OpensLine(p)
    ensures OpensColumn(p.kind)
  {
    hide Classify, Normalize, WellFormed;
    SaidKind(Merged(p.toks));
    assert |"AND"| == 3 && "AND"[0] != "END"[0] && |"OR"| == 2 && |"END"| == 3;
  }

  // In the formatted text of any statement, each clause, JOIN, AND, OR and ON keyword
  // with a first word of at most seven letters opens a line: the word ends in the column
  // six times the block level of the state that handles it, plus seven; the text before
  // and after the word is what is written before and after the keyword.
  lemma KeywordColumns(toks: Tokens, uppercase: bool, k: nat) returns (a: string, b: string)
    requires AllWellFormed(toks)
    requires
      var ps := Pieces(toks, Start(uppercase));
      k < |ps| && OpensLine(ps[k]) && |FirstWord(ps[k].text)| <= 7
    ensures
      var ps := Pieces(toks, Start(uppercase));
      var w := FirstWord(ps[k].text);
      && ps[k].block >= 0
      && FormatTokens(toks, uppercase) == a + Spaces(6 * ps[k].block + 7 - |w|) + w + b
      && WholeLines(a)
      && Canon(a) == Canon(Out(ps[..k])) && Canon(w + b) == Canon(Out(ps[k..]))
  {
    hide AllOk, AllPlaced, AllFit, Smaller, Out, RenderList, Pieces, Clean, Canon, WholeLines, FirstWord,
      Written.SkipsBlank, LeavesOf, Sources, OpensLine, OpensColumn, PieceOk;
    StatementWrites(toks, uppercase);
    var ps := Pieces(toks, Start(uppercase));
    assert PieceOk(ps[k], uppercase) && ps[k].Key? by { PieceAt(ps, k, uppercase); KeyOpens(ps[k]); }
    OpensLineKind(ps[k], uppercase);
    var before, q := LineOfKey(ps, k, uppercase);
    var w := FirstWord(ps[k].text);
    a, b := CleanKeepsLine(before, 6 * ps[k].block + 7 - |w|, w, q);
  }

  lemma KeyOpens(p: Piece)
    requires OpensLine(p)
    ensures p.Key?
  {
  }

  // The line the keyword opens, in the text before the clean-up.
  lemma LineOfKey(ps: seq<Piece>, k: nat, uppercase: bool) returns (before: string, q: string)
    requires AllOk(ps, uppercase) && AllPlaced("", ps)
    requires k < |ps| && ps[k].Key? && OpensColumn(ps[k].kind) && |FirstWord(ps[k].text)| <= 7
    ensures ps[k].block >= 0
    ensures
      var w := FirstWord(ps[k].text);
      && w != "" && (forall i :: 0 <= i < |w| ==> !IsSpace(w[i]))
      && Out(ps) == before + Spaces(6 * ps[k].block + 7 - |w|) + w + q
      && WholeLines(before) && Canon(before) == Canon(Out(ps[..k])) && w + q == Out(ps[k..])
  {
    hide AllOk, AllPlaced, Out, Canon, OnlyBlanks, WholeLines, FirstWord, PieceOk, Placed, KeyIndent, Padding,
      OpensColumn, Spaces, TextOf, IsSpace;
    var p := ps[k];
    var w := FirstWord(p.text);
    PieceAt(ps, k, uppercase);
    KeyTextSolid(p, uppercase);
    FirstWordVisible(p.text);
    PlacedLead(ps, k);
    SplitOut(ps, k);
    TextsOf(ps[k - 1], p);
    var n := 6 * p.block + 7 - |w|;
    LeadWidth(p.block, p.text);
    before, q := KeyLine(Out(ps[..k - 1]), ps[k - 1].blank, n, w, p.text, Out(ps[k + 1..]));
  }

  lemma TextsOf(lay: Piece, key: Piece)
    requires lay.Lay? && key.Key?
    ensures TextOf(lay) == lay.blank && TextOf(key) == key.text
  {
  }

  lemma KeyLine(pre: string, blank: string, n: nat, w: string, kw: string, post: string)
    returns (before: string, q: string)
    requires w <= kw && (blank == "\n" + Spaces(n) || (blank == Spaces(n) && pre == ""))
    ensures pre + blank + kw + post == before + Spaces(n) + w + q && w + q == kw + post
    ensures WholeLines(before) && Canon(before) == Canon(pre + blank)
  {
    hide Canon, WholeLines;
    before := if blank == "\n" + Spaces(n) then pre + "\n" else "";
    q := kw[|w|..] + post;
    Gathered(pre, blank, n, w, kw, post, before);
    CanonBefore(before, pre, blank, n);
    assert kw == w + kw[|w|..];
    assert w + q == kw + post;
  }

  lemma PieceAt(ps: seq<Piece>, k: nat, uppercase: bool)
    requires k < |ps| && AllOk(ps, uppercase) && AllPlaced("", ps)
    ensures PieceOk(ps[k], uppercase) && Placed("", ps, k)
  {
    hide PieceOk, Placed;
  }

  lemma PlacedLead(ps: seq<Piece>, k: nat)
    requires k < |ps| && Placed("", ps, k) && ps[k].Key? && OpensColumn(ps[k].kind)
    ensures k > 0 && ps[k - 1].Lay? && ps[k].block >= 0
    ensures
      var lead := KeyIndent(ps[k].block) + Padding(ps[k].text);
      ps[k - 1].blank == "\n" + lead || (ps[k - 1].blank == lead && Out(ps[..k - 1]) == "")
  {
    hide Out, KeyIndent, Padding;
    assert "" + Out(ps[..k - 1]) == Out(ps[..k - 1]);
  }

  lemma LeadWidth(block: int, kw: string)
    requires block >= 0 && |FirstWord(kw)| <= 7
    ensures KeyIndent(block) + Padding(kw) == Spaces(6 * block + 7 - |FirstWord(kw)|)
  {
  }

  lemma Gathered(pre: string, blank: string, n: nat, w: string, kw: string, post: string, before: string)
    requires w <= kw
    requires (blank == "\n" + Spaces(n) && before == pre + "\n") || (blank == Spaces(n) && pre == "" && before == "")
    ensures pre + blank + kw + post == before + Spaces(n) + w + (kw[|w|..] + post)
    ensures WholeLines(before)
  {
    assert kw == w + kw[|w|..];
  }

  lemma CanonBefore(before: string, pre: string, blank: string, n: nat)
    requires (blank == "\n" + Spaces(n) && before == pre + "\n") || (blank == Spaces(n) && pre == "" && before == "")
    ensures Canon(before) == Canon(pre + blank)
  {
    hide Canon;
    CanonAppend(pre, blank);
    CanonAppend(pre, "\n");
    BlankIsInvisible(blank);
    BlankIsInvisible("\n");
    BlankIsInvisible("");
  }
}
