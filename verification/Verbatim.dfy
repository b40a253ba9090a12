// Exactly when the formatted text shows a token verbatim.
module Verbatim {
  import opened Text
  import opened SqlTree
  import opened Rendering
  import opened Preservation
  import Probe
  import opened Separation
  import opened Gaps
  import opened Stable
  import opened Columns
  import opened Transcript
  import opened Written
  import opened Transcribes
  import opened Imprints
  import opened Squeezing
  import opened PostProcess
  import Seams

  // ---------------------------------------------------------------------
  // The leaves of a statement as they are written
  // ---------------------------------------------------------------------

  function Inward(ws: seq<Writing>, column: nat): seq<Writing> {
    seq(|ws|, i requires 0 <= i < |ws| => ws[i].(columns := ws[i].columns + [column]))
  }

  function Writings(toks: Tokens, uppercase: bool): seq<Writing>
    decreases SizeList(toks), 1, 0
  {
    WritingsIn(Pieces(toks, Start(uppercase)), uppercase, SizeList(toks))
  }

  function WritingsIn(ps: seq<Piece>, uppercase: bool, n: nat): seq<Writing>
    decreases n, 0, |ps|
  {
    if ps == [] then [] else WritingsAt(ps[0], uppercase, n) + WritingsIn(ps[1..], uppercase, n)
  }

  // A subquery formatted by itself belongs to a smaller statement.
  function WritingsAt(p: Piece, uppercase: bool, n: nat): seq<Writing>
    decreases n, 0, 0
  {
    match p
    case Skip(_) => []
    case Lay(_) => []
    case Embed(paren, column, _) =>
      if paren.Group? && SizeList(Inner(paren.kids)) < n
      then [Writing(OPEN, false, [])] + Inward(Writings(Inner(paren.kids), uppercase), column) +
        [Writing(CLOSE, false, [])]
      else []
    case Copy(node, _) => Listed(LeavesOf([node]), true)
    case _ => Listed(LeavesOf(SourceOf(p)), false)
  }

  // ---------------------------------------------------------------------
  // Every piece carries its leaves
  // ---------------------------------------------------------------------

  lemma CopiedFollows(leaf: Node)
    ensures Follows(Writing(leaf, false, []), false, Writing(leaf, true, []), false, Squeeze)
  {
  }

  lemma CopyCarries(node: Node, uppercase: bool)
    requires WellFormed(node)
    ensures Carried(Listed(LeavesOf([node]), true), Fines(CopyText(node, uppercase), ""), false)
  {
    hide Carried, Fines, CopyText, LeavesOf, Follows, Regapped, WellFormed;
    AloneWellFormed(node);
    TreeCarried([node], uppercase);
    TextOne(node, uppercase);
    CopyFines(node, uppercase);
    var ls := LeavesOf([node]);
    forall i | 0 <= i < |Listed(ls, false)|
      ensures Follows(Listed(ls, false)[i], false, Listed(ls, true)[i], false, Squeeze)
    {
      CopiedFollows(Visible(ls)[i]);
    }
    CarriedVia(Listed(ls, false), Listed(ls, true), Fines(LeafText(node, uppercase), ""),
      Fines(CopyText(node, uppercase), ""),
      Squeeze, false, false);
  }

  lemma TextOne(node: Node, uppercase: bool)
    ensures TextFor([node], uppercase) == LeafText(node, uppercase)
  {
    NodeText(node, uppercase);
    LeavesText([node], uppercase);
    LeavesOne(node);
    LeavesText([node], uppercase);
    assert [node][1..] == [] && [node][0] == node;
    assert KeywordsUpperList([node]) == KeywordsUpper(node) + "";
    assert ValueList([node]) == Value(node) + "";
  }

  // A text made of keywords, in whatever case and with whatever whitespace between them.
  lemma {:induction false} TotalIs(ls: Tokens, copied: bool)
    requires AreLeaves(ls)
    ensures Total(Listed(ls, copied)) == |Canon(ValueList(ls))|
  {
    hide Canon, Fines, Listed, WellFormed;
    if ls == [] {
      BlankIsInvisible("");
      assert Listed([], copied) == [] by { ListedNone(copied); }
    } else {
      var leaf := ls[0];
      TotalIs(ls[1..], copied);
      ListedFirst(ls, copied);
      CanonAppend(Value(leaf), ValueList(ls[1..]));
      var w := Writing(leaf, copied, []);
      if IsBlankLeaf(leaf) {
        BlankText(leaf, false);
        BlankIsInvisible(Value(leaf));
        assert [] + Listed(ls[1..], copied) == Listed(ls[1..], copied);
      } else {
        FinesCanon(Value(leaf), "");
        assert ([w] + Listed(ls[1..], copied))[1..] == Listed(ls[1..], copied);
      }
    }
  }

  lemma ListedNone(copied: bool)
    ensures Listed([], copied) == []
  {
  }

  lemma KeyCarries(own: Tokens, text: string)
    requires AllWellFormed(own) && (forall i :: 0 <= i < |own| ==> IsKeyword(own[i]) || IsBlankLeaf(own[i]))
    requires Canon(text) == Canon(ValueList(own))
    ensures Carried(Listed(LeavesOf(own), false), Fines(text, ""), false)
  {
    hide Carried, Fines, Canon, WellFormed;
    LeavesWellFormed(own);
    FlatLeaves(own);
    TotalIs(own, false);
    FinesCanon(text, "");
    VisibleKeywords(own);
    KeywordsCarried(Listed(own, false), Fines(text, ""), false);
  }

  lemma {:induction false} FlatLeaves(ls: Tokens)
    requires forall i :: 0 <= i < |ls| ==> ls[i].Leaf?
    ensures LeavesOf(ls) == ls
  {
    if ls != [] {
      FlatLeaves(ls[1..]);
      assert Leaves(ls[0]) == [ls[0]];
    }
  }

  lemma {:induction false} VisibleKeywords(ls: Tokens)
    requires forall i :: 0 <= i < |ls| ==> IsKeyword(ls[i]) || IsBlankLeaf(ls[i])
    ensures forall i :: 0 <= i < |Visible(ls)| ==> IsKeyword(Visible(ls)[i])
  {
    if ls != [] {
      VisibleKeywords(ls[1..]);
    }
  }

  lemma KeyText(p: Piece, uppercase: bool)
    requires p.Key? && PieceOk(p, uppercase)
    ensures Canon(p.text) == Canon(ValueList(p.toks))
    ensures forall i :: 0 <= i < |p.toks| ==> IsKeyword(p.toks[i]) || IsBlankLeaf(p.toks[i])
  {
    hide Canon, Seams.Tells, WellFormed, Probe.MarksList, ValueList, Normalize;
    Seams.KeyTells(p.toks, uppercase, true);
    TellsCanon(p.toks, p.text);
    forall i | 0 <= i < |p.toks| ensures IsKeyword(p.toks[i]) || IsBlankLeaf(p.toks[i]) {
      assert i == 0 || i == |p.toks| - 1 || IsBlankLeaf(p.toks[i]);
    }
  }

  lemma TellsCanon(toks: Tokens, text: string)
    requires Seams.Tells(toks, text, true)
    ensures Canon(text) == Canon(ValueList(toks))
  {
    hide Canon, Probe.MarksList, ValueList;
    CellsCanon(text, true);
    CellsCanon(ValueList(toks), true);
  }

  lemma LeafCarries(leaf: Node, text: string)
    requires leaf.Leaf? && WellFormed(leaf) && !IsBlankLeaf(leaf)
    requires text == leaf.value || (IsKeyword(leaf) && text == Upper(leaf.value))
    ensures Carried(Listed(LeavesOf([leaf]), false), Fines(text, ""), false)
  {
    hide Carried, Fines, Listed;
    OneLeafCarried(leaf, false);
    OneLeafCarried(leaf, IsKeyword(leaf));
    LeavesOne(leaf);
    ListedFirst([leaf], false);
    ListedNone(false);
    assert [leaf][1..] == [];
    assert [Writing(leaf, false, [])] + [] == [Writing(leaf, false, [])];
  }

  lemma ParensCarry(node: Node, text: string, uppercase: bool)
    requires WellFormed(node) && (text == Value(node) || text == ParenText(node, uppercase))
    ensures Carried(Listed(LeavesOf([node]), false), Fines(text, ""), false)
  {
    hide Carried, Fines, Listed, LeavesOf, WellFormed;
    AloneWellFormed(node);
    var u := text != Value(node) && uppercase;
    TreeCarried([node], u);
    TextOne(node, u);
  }

  lemma InkCarries(p: Piece, uppercase: bool, n: nat)
    requires IsInk(p) && !p.Embed? && PieceOk(p, uppercase)
    ensures Carried(WritingsAt(p, uppercase, n), Fines(TextOf(p), ""), false)
  {
    hide Carried, Fines, Listed, LeavesOf, WellFormed, CopyText, Canon, ParenText;
    match p
    case Word(leaf) => LeafCarries(leaf, leaf.value);
    case Key(_, _, toks, text) =>
      KeyText(p, uppercase);
      KeyCarries(toks, text);
    case CaseKey(leaf, text) => LeafCarries(leaf, text);
    case FirstWhen(leaf, text) => LeafCarries(leaf, text);
    case Copy(node, text) => CopyCarries(node, uppercase);
    case Parens(node, text) => ParensCarry(node, text, uppercase);
  }

  lemma InwardFollows(w: Writing, column: nat)
    ensures Follows(w, true, w.(columns := w.columns + [column]), false, Shift(column))
  {
    hide CleanGap, Reindent;
    var cs := w.columns + [column];
    assert cs[..|cs| - 1] == w.columns;
    forall g ensures Way(w.(columns := cs), false, g) == Shift(column)(Way(w, true, g)) {
      assert Buffered(w.copied, cs, g) == Reindent(CleanGap(Buffered(w.copied, w.columns, g)), column);
    }
  }

  lemma EmbedCarries(paren: Node, column: nat, uppercase: bool, ws: seq<Writing>)
    requires paren.Group?
    requires Carried(ws, Fines(FormatTokens(Inner(paren.kids), uppercase), ""), true)
    ensures
      Carried([Writing(OPEN, false, [])] + Inward(ws, column) + [Writing(CLOSE, false, [])],
        Fines(EmbedText(paren, uppercase, column), ""), false)
  {
    hide Carried, Fines, FormatTokens, Body, Follows, Regapped, Inner;
    var formatted := FormatTokens(Inner(paren.kids), uppercase);
    var body := Body(formatted, column);
    BodyFines(formatted, column);
    forall i | 0 <= i < |ws| ensures Follows(ws[i], true, Inward(ws, column)[i], false, Shift(column)) {
      InwardFollows(ws[i], column);
    }
    CarriedVia(ws, Inward(ws, column), Fines(formatted, ""), Fines(body, ""), Shift(column), true, false);
    var a, c := [Writing(OPEN, false, [])], [Writing(CLOSE, false, [])];
    ParenFines(body);
    assert Carried(a, [Fine("", '(')], false) by { ParenCarried(OPEN, '(', ""); }
    assert Carried(c, [Fine(Tail(body, ""), ')')], false) by { ParenCarried(CLOSE, ')', Tail(body, "")); }
    CarriedAppend(a, [Fine("", '(')], Inward(ws, column), Fines(body, ""), false);
    CarriedAppend(a + Inward(ws, column), [Fine("", '(')] + Fines(body, ""), c, [Fine(Tail(body, ""), ')')], false);
  }

  lemma ParenFines(body: string)
    ensures Fines("(" + body + ")", "") == [Fine("", '(')] + Fines(body, "") + [Fine(Tail(body, ""), ')')]
  {
    assert "(" + body + ")" == "" + ['('] + (body + ")");
    FinesAt("", '(', body + ")");
    FinesAppend(body, ")", "");
    assert ")"[1..] == "";
    assert Fines(")", Tail(body, "")) == [Fine(Tail(body, ""), ')')];
    assert [] + [Fine("", '(')] == [Fine("", '(')];
    assert [Fine("", '(')] + (Fines(body, "") + [Fine(Tail(body, ""), ')')])
        == [Fine("", '(')] + Fines(body, "") + [Fine(Tail(body, ""), ')')];
  }

  lemma ParenCarried(leaf: Node, c: char, g: string)
    requires leaf == Leaf(Punctuation, [c]) && !IsSpace(c)
    ensures Carried([Writing(leaf, false, [])], [Fine(g, c)], false)
  {
    assert [c][1..] == "";
    assert Fines([c], "") == [Fine("", c)];
    CarriedOne(Writing(leaf, false, []), [Fine(g, c)], false);
  }

  // The pieces one after the other, given the subqueries formatted by themselves.
  ghost predicate EmbedsCarried(ps: seq<Piece>, uppercase: bool) {
    forall k :: 0 <= k < |ps| && ps[k].Embed? && ps[k].paren.Group? ==>
      var inner := Inner(ps[k].paren.kids);
      && Carried(Writings(inner, uppercase), Fines(FormatTokens(inner, uppercase), ""), true)
      && LeafList(Writings(inner, uppercase)) == Visible(LeavesOf(inner))
  }

  lemma PieceCarries(p: Piece, uppercase: bool, n: nat)
    requires PieceOk(p, uppercase) && EmbedsCarried([p], uppercase) && Smaller([p], n)
    ensures Carried(WritingsAt(p, uppercase, n), Fines(TextOf(p), ""), false)
  {
    hide Carried, Fines, FormatTokens, LeavesOf, WellFormed, EmbedText, Inner;
    match p
    case Skip(_) => NothingCarried();
    case Lay(blank) =>
      BlankFines(blank, "");
      NothingCarried();
    case Embed(paren, column, text) =>
      EmbedOk(p, uppercase);
      assert [p][0] == p;
      EmbedCarries(paren, column, uppercase, Writings(Inner(paren.kids), uppercase));
    case _ => InkCarries(p, uppercase, n);
  }

  lemma EmbedOk(p: Piece, uppercase: bool)
    requires p.Embed? && PieceOk(p, uppercase)
    ensures p.paren.Group? && p.paren.group.Parens? && WellFormed(p.paren)
    ensures p.text == EmbedText(p.paren, uppercase, p.column)
  {
    hide EmbedText, WellFormed;
  }

  lemma NothingCarried()
    ensures Carried([], Fines("", ""), false) && Fines("", "") == []
  {
  }

  lemma {:induction false} PiecesCarry(ps: seq<Piece>, uppercase: bool, n: nat)
    requires AllOk(ps, uppercase) && EmbedsCarried(ps, uppercase) && Smaller(ps, n)
    ensures Carried(WritingsIn(ps, uppercase, n), Fines(Out(ps), ""), false)
    decreases |ps|
  {
    hide Carried, Fines, PieceOk, WritingsAt, Out;
    if ps == [] {
      OutNone();
      NothingCarried();
    } else {
      var p, rest := ps[0], ps[1..];
      assert ps == [p] + rest;
      OneOfMany(ps, uppercase, n);
      PieceCarries(p, uppercase, n);
      PiecesCarry(rest, uppercase, n);
      OutOf([p], rest);
      FinesAppend(TextOf(p), Out(rest), "");
      FinesGap(Out(rest), Tail(TextOf(p), ""));
      CarriedGap(WritingsIn(rest, uppercase, n), Fines(Out(rest), ""), Fines(Out(rest), Tail(TextOf(p), "")), false);
      CarriedAppend(WritingsAt(p, uppercase, n), Fines(TextOf(p), ""),
        WritingsIn(rest, uppercase, n), Fines(Out(rest), Tail(TextOf(p), "")), false);
    }
  }

  lemma OneOfMany(ps: seq<Piece>, uppercase: bool, n: nat)
    requires ps != [] && AllOk(ps, uppercase) && EmbedsCarried(ps, uppercase) && Smaller(ps, n)
    ensures PieceOk(ps[0], uppercase) && EmbedsCarried([ps[0]], uppercase) && Smaller([ps[0]], n)
    ensures AllOk(ps[1..], uppercase) && EmbedsCarried(ps[1..], uppercase) && Smaller(ps[1..], n)
  {
    hide PieceOk, Carried, Fines, FormatTokens, Writings, Inner, Visible, LeavesOf;
    forall k | 0 <= k < |ps[1..]| ensures ps[1..][k] == ps[k + 1] {
    }
  }

  // ... and of the leaves nothing is missing.
  lemma {:induction false} PiecesList(ps: seq<Piece>, uppercase: bool, n: nat)
    requires AllOk(ps, uppercase) && EmbedsCarried(ps, uppercase) && Smaller(ps, n) && SkipsBlank(ps)
    ensures LeafList(WritingsIn(ps, uppercase, n)) == Visible(LeavesOf(Sources(ps)))
    decreases |ps|
  {
    hide PieceOk, WritingsAt, Visible, LeavesOf, EmbedsCarried;
    if ps == [] {
      assert Visible([]) == [] && LeavesOf([]) == [] by { NoneVisible(); }
    } else {
      var p, rest := ps[0], ps[1..];
      OneOfMany(ps, uppercase, n);
      BlankRest(ps);
      PiecesList(rest, uppercase, n);
      PieceList(p, uppercase, n);
      LeavesAppend(SourceOf(p), Sources(rest));
      VisibleAppend(LeavesOf(SourceOf(p)), LeavesOf(Sources(rest)));
      var a, b := WritingsAt(p, uppercase, n), WritingsIn(rest, uppercase, n);
      assert LeafList(a + b) == LeafList(a) + LeafList(b);
    }
  }

  lemma NoneVisible()
    ensures Visible([]) == [] && LeavesOf([]) == []
  {
  }

  lemma BlankRest(ps: seq<Piece>)
    requires ps != [] && SkipsBlank(ps)
    ensures SkipsBlank(ps[1..]) && SkipsBlank([ps[0]])
  {
    hide DroplessList, Blank, ValueList, Inner;
    forall k | 0 <= k < |ps[1..]| ensures ps[1..][k] == ps[k + 1] {
    }
  }

  lemma PieceList(p: Piece, uppercase: bool, n: nat)
    requires PieceOk(p, uppercase) && EmbedsCarried([p], uppercase) && Smaller([p], n) && SkipsBlank([p])
    ensures LeafList(WritingsAt(p, uppercase, n)) == Visible(LeavesOf(SourceOf(p)))
  {
    hide Carried, Fines, FormatTokens, Visible, LeavesOf, WellFormed, EmbedText, Inner, Blank, ValueList, CopyText,
      DroplessList, ParenText, KeywordText;
    assert [p][0] == p;
    match p
    case Skip(toks) => BlankLeaves(toks);
    case Lay(_) => NoneVisible();
    case Embed(paren, column, _) =>
      EmbedOk(p, uppercase);
      EmbedList(paren, column, Writings(Inner(paren.kids), uppercase));
    case _ =>
  }

  lemma {:induction false} BlankLeaves(toks: Tokens)
    requires AllWellFormed(toks) && Blank(ValueList(toks))
    ensures Visible(LeavesOf(toks)) == []
  {
    LeavesWellFormed(toks);
    LeavesText(toks, false);
    BlankAll(LeavesOf(toks));
  }

  lemma {:induction false} BlankAll(ls: Tokens)
    requires AreLeaves(ls) && Blank(ValueList(ls))
    ensures Visible(ls) == []
  {
    if ls != [] {
      var v, rest := Value(ls[0]), ValueList(ls[1..]);
      assert forall i :: 0 <= i < |rest| ==> (v + rest)[|v| + i] == rest[i];
      assert v != "" ==> (v + rest)[0] == v[0];
      BlankAll(ls[1..]);
    }
  }

  lemma EmbedList(paren: Node, column: nat, ws: seq<Writing>)
    requires paren.Group? && paren.group.Parens? && WellFormed(paren)
    requires LeafList(ws) == Visible(LeavesOf(Inner(paren.kids)))
    ensures LeafList([Writing(OPEN, false, [])] + Inward(ws, column) + [Writing(CLOSE, false, [])])
      == Visible(LeavesOf([paren]))
  {
    hide Visible, LeavesOf, WellFormed, Inner;
    var inner := Inner(paren.kids);
    PairedParts(paren);
    LeavesOne(paren);
    LeavesAppend([OPEN] + inner, [CLOSE]);
    LeavesAppend([OPEN], inner);
    VisibleAppend(LeavesOf([OPEN] + inner), LeavesOf([CLOSE]));
    VisibleAppend(LeavesOf([OPEN]), LeavesOf(inner));
    ParenLeaf(OPEN);
    ParenLeaf(CLOSE);
    assert LeafList(Inward(ws, column)) == LeafList(ws);
  }

  lemma ParenLeaf(leaf: Node)
    requires leaf.Leaf? && !IsBlankLeaf(leaf)
    ensures Visible(LeavesOf([leaf])) == [leaf]
  {
    LeavesOne(leaf);
    assert [leaf][1..] == [];
  }

  // The formatted statement carries its leaves, one after the other.
  lemma {:induction false} StatementCarries(toks: Tokens, uppercase: bool)
    requires AllWellFormed(toks) && DroplessList(toks, 0)
    ensures Carried(Writings(toks, uppercase), Fines(FormatTokens(toks, uppercase), ""), true)
    ensures LeafList(Writings(toks, uppercase)) == Visible(LeavesOf(toks))
    decreases SizeList(toks)
  {
    hide Carried, Fines, PieceOk, Visible, LeavesOf, Sources, Out, Pieces, RenderList, DroplessList, AllFit,
      AllPlaced, Clean, Inner, WritingsIn, Follows, Regapped;
    StatementWrites(toks, uppercase);
    var ps := Pieces(toks, Start(uppercase));
    forall k | 0 <= k < |ps| && ps[k].Embed? && ps[k].paren.Group?
      ensures
        var inner := Inner(ps[k].paren.kids);
        && Carried(Writings(inner, uppercase), Fines(FormatTokens(inner, uppercase), ""), true)
        && LeafList(Writings(inner, uppercase)) == Visible(LeavesOf(inner))
    {
      Seams.EmbedInner(ps, k, uppercase);
      StatementCarries(Inner(ps[k].paren.kids), uppercase);
    }
    PiecesCarry(ps, uppercase, SizeList(toks));
    PiecesList(ps, uppercase, SizeList(toks));
    CleanFines(Out(ps));
    var ws := Writings(toks, uppercase);
    forall i | 0 <= i < |ws| ensures Follows(ws[i], false, ws[i], true, CleanGap) {
      CleanFollows(ws[i]);
    }
    CarriedVia(ws, ws, Fines(Out(ps), ""), Fines(Clean(Out(ps)), ""), CleanGap, false, true);
  }

  lemma CleanFollows(w: Writing)
    ensures Follows(w, false, w, true, CleanGap)
  {
    hide CleanGap, Buffered;
  }

  // ---------------------------------------------------------------------
  // Verbatim
  // ---------------------------------------------------------------------

  // The text from the first to the last of these characters.
  function Spelled(cs: seq<Fine>): string {
    if cs == [] then "" else [cs[0].ch] + Spell(cs[1..])
  }

  function Spell(cs: seq<Fine>): string {
    if cs == [] then "" else cs[0].gap + [cs[0].ch] + Spell(cs[1..])
  }

  // Each leaf in turn takes as many visible characters as it has, and each but the
  // keywords is the text from the first to the last of them.
  predicate ShowsLeaves(ls: Tokens, cs: seq<Fine>) {
    if ls == [] then true
    else
      var n := |Fines(Value(ls[0]), "")|;
      n <= |cs| && (IsKeyword(ls[0]) || Spelled(cs[..n]) == Value(ls[0])) && ShowsLeaves(ls[1..], cs[n..])
  }

  // The text shows every leaf that is no keyword verbatim, letter case included.
  predicate Verbatim(toks: Tokens, text: string) {
    ShowsLeaves(Visible(LeavesOf(toks)), Fines(text, ""))
  }

  // Whitespace inside a leaf that is copied must be a single blank; otherwise it must be
  // stable and, in a subquery indented to some column, have no line feed.
  predicate GapSurvives(w: Writing, g: string) {
    if w.copied then g == "" || g == " " else StableGap(g) && ('\n' !in g || AllZero(w.columns))
  }

  predicate Survives(w: Writing) {
    var fs := Fines(ValueOf(w), "");
    forall k :: 1 <= k < |fs| ==> GapSurvives(w, fs[k].gap)
  }

  lemma {:induction false} GapsAreBlank(s: string, g: string)
    requires Blank(g)
    ensures forall k :: 0 <= k < |Fines(s, g)| ==> Blank(Fines(s, g)[k].gap) && !IsSpace(Fines(s, g)[k].ch)
  {
    if s != "" {
      GapsAreBlank(s[1..], if IsSpace(s[0]) then g + [s[0]] else "");
    }
  }

  predicate Tidy(cs: seq<Fine>) {
    forall k :: 0 <= k < |cs| ==> Blank(cs[k].gap) && !IsSpace(cs[k].ch)
  }

  lemma {:induction false} FinesOfSpell(cs: seq<Fine>)
    requires Tidy(cs)
    ensures Fines(Spell(cs), "") == cs
  {
    hide Fines;
    if cs == [] {
      NothingCarried();
    } else {
      FinesOfSpell(cs[1..]);
      var g := cs[0].gap;
      FinesAt(g, cs[0].ch, Spell(cs[1..]));
      BlankFines(g, "");
      assert "" + g == g && [] + [Fine(g, cs[0].ch)] == [Fine(g, cs[0].ch)];
      assert cs == [cs[0]] + cs[1..];
    }
  }

  lemma FinesOfSpelled(cs: seq<Fine>)
    requires Tidy(cs) && cs != []
    ensures Fines(Spelled(cs), "") == [Fine("", cs[0].ch)] + cs[1..]
  {
    hide Fines, Spell;
    FinesOfSpell(cs[1..]);
    var t := Spell(cs[1..]);
    assert [cs[0].ch] + t == "" + [cs[0].ch] + t;
    FinesAt("", cs[0].ch, t);
    BlankFines("", "");
    assert [] + [Fine("", cs[0].ch)] == [Fine("", cs[0].ch)];
  }

  // A solid text is spelled by its own cells.
  lemma {:induction false} SpellOfFines(s: string)
    requires s == "" || !IsSpace(s[|s| - 1])
    ensures Spell(Fines(s, "")) == s
    decreases |s|
  {
    hide Fines;
    if s == "" {
      NothingCarried();
    } else {
      VisibleEnd(s);
      var g, c, rest := HeadOf(s);
      if rest != "" {
        assert rest[|rest| - 1] == s[|s| - 1];
      }
      SpellOfFines(rest);
      FinesAt(g, c, rest);
      BlankFines(g, "");
      assert "" + g == g && [] + [Fine(g, c)] == [Fine(g, c)];
      assert ([Fine(g, c)] + Fines(rest, ""))[1..] == Fines(rest, "");
    }
  }

  lemma VisibleEnd(s: string)
    requires s != "" && !IsSpace(s[|s| - 1])
    ensures !Blank(s)
  {
  }

  lemma SolidSpelled(s: string)
    requires Solid(s)
    ensures Fines(s, "") != [] && Spelled(Fines(s, "")) == s && Fines(s, "")[0].gap == ""
  {
    hide Fines, Spell;
    SpellOfFines(s);
    var rest := s[1..];
    assert s == "" + [s[0]] + rest;
    FinesAt("", s[0], rest);
    BlankFines("", "");
    assert [] + [Fine("", s[0])] == [Fine("", s[0])];
    var fs := Fines(s, "");
    assert fs[0] == Fine("", s[0]);
    SpellOpens(fs);
  }

  lemma SpellOpens(fs: seq<Fine>)
    requires fs != [] && fs[0].gap == ""
    ensures Spell(fs) == Spelled(fs)
  {
    assert "" + [fs[0].ch] == [fs[0].ch];
  }

  // Cells spell the value exactly if they are its cells, the first gap aside.
  lemma SpelledIs(cs: seq<Fine>, v: string)
    requires Solid(v) && Tidy(cs) && |cs| == |Fines(v, "")|
    ensures Spelled(cs) == v <==>
      forall k :: 0 <= k < |cs| ==> cs[k].ch == Fines(v, "")[k].ch && (k > 0 ==> cs[k].gap == Fines(v, "")[k].gap)
  {
    hide Fines, Solid, Tidy, Spell, Spelled;
    SolidSpelled(v);
    FinesOfSpelled(cs);
    var fs := Fines(v, "");
    var ds := [Fine("", cs[0].ch)] + cs[1..];
    if Spelled(cs) == v {
      assert forall k :: 1 <= k < |cs| ==> ds[k] == cs[k];
    } else if forall k :: 0 <= k < |cs| ==> cs[k].ch == fs[k].ch && (k > 0 ==> cs[k].gap == fs[k].gap) {
      forall k | 0 <= k < |cs| ensures ds[k] == fs[k] {
      }
      assert ds == fs;
      SpelledSame(cs, ds);
      assert false;
    }
  }

  lemma SpelledSame(cs: seq<Fine>, ds: seq<Fine>)
    requires cs != [] && ds == [Fine("", cs[0].ch)] + cs[1..]
    ensures Spelled(cs) == Spelled(ds)
  {
    assert ds[1..] == cs[1..];
  }

  lemma WayIs(w: Writing, g: string)
    ensures Way(w, true, g) == Passed(if w.copied then Squeeze(g) else g, w.columns)
  {
    hide CleanGap;
    BufferedPassed(w.copied, w.columns, g);
  }

  lemma {:induction false} BufferedPassed(copied: bool, columns: seq<nat>, g: string)
    ensures CleanGap(Buffered(copied, columns, g)) == Passed(if copied then Squeeze(g) else g, columns)
    decreases |columns|
  {
    hide CleanGap, Reindent;
    if columns != [] {
      var n := |columns| - 1;
      BufferedPassed(copied, columns[..n], g);
      PassedPush(if copied then Squeeze(g) else g, columns[..n], columns[n]);
      assert columns == columns[..n] + [columns[n]];
    }
  }

  lemma {:induction false} PassedPush(g: string, columns: seq<nat>, column: nat)
    ensures Passed(g, columns + [column]) == CleanGap(Reindent(Passed(g, columns), column))
    decreases |columns|
  {
    hide CleanGap, Reindent;
    var cs := columns + [column];
    if columns == [] {
      assert cs == [column] && cs[1..] == [];
    } else {
      assert cs[1..] == columns[1..] + [column];
      PassedPush(Reindent(CleanGap(g), columns[0]), columns[1..], column);
    }
  }

  predicate Arrives(w: Writing) {
    var fs := Fines(ValueOf(w), "");
    forall k :: 1 <= k < |fs| ==> Way(w, true, fs[k].gap) == fs[k].gap
  }

  // The whitespace inside the leaf arrives as it is exactly if it survives.
  lemma SurvivesIs(w: Writing)
    ensures Survives(w) == Arrives(w)
  {
    hide Fines, Way, GapSurvives;
    var fs := Fines(ValueOf(w), "");
    GapsAreBlank(ValueOf(w), "");
    forall k | 1 <= k < |fs| ensures (Way(w, true, fs[k].gap) == fs[k].gap) == GapSurvives(w, fs[k].gap) {
      GapSurvivesIs(w, fs[k].gap);
    }
    assert Survives(w) == forall k :: 1 <= k < |fs| ==> GapSurvives(w, fs[k].gap);
    assert Arrives(w) == forall k :: 1 <= k < |fs| ==> Way(w, true, fs[k].gap) == fs[k].gap;
  }

  lemma GapSurvivesIs(w: Writing, g: string)
    requires Blank(g)
    ensures (Way(w, true, g) == g) == GapSurvives(w, g)
  {
    hide Way, Passed, StableGap, AllZero, Squeeze;
    WayIs(w, g);
    PassedStays(g, w.columns);
    SqueezedStays(g, w.columns);
  }

  lemma LeafShown(w: Writing, cs: seq<Fine>)
    requires w.leaf.Leaf? && Solid(ValueOf(w)) && !IsKeyword(w.leaf) && LeafCarried(w, cs, true) && Tidy(cs)
    ensures Spelled(cs) == ValueOf(w) <==> Survives(w)
  {
    hide Fines, Way, Solid, Tidy, Spelled, Survives;
    SpelledIs(cs, ValueOf(w));
    SurvivesIs(w);
  }

  lemma {:induction false} LeavesShown(ws: seq<Writing>, cs: seq<Fine>)
    requires Carried(ws, cs, true) && Tidy(cs)
    requires forall i :: 0 <= i < |ws| ==> ws[i].leaf.Leaf? && Solid(ValueOf(ws[i]))
    ensures ShowsLeaves(LeafList(ws), cs) <==> forall i :: 0 <= i < |ws| && !IsKeyword(ws[i].leaf) ==> Survives(ws[i])
    decreases |ws|
  {
    hide Fines, Survives, Spelled, LeafCarried, Solid;
    if ws != [] {
      var n := |Fines(ValueOf(ws[0]), "")|;
      var ls := LeafList(ws);
      assert ls[0] == ws[0].leaf && ls[1..] == LeafList(ws[1..]);
      LeavesShown(ws[1..], cs[n..]);
      if !IsKeyword(ws[0].leaf) {
        LeafShown(ws[0], cs[..n]);
      }
      assert ws == [ws[0]] + ws[1..];
      assert (forall i :: 0 <= i < |ws| && !IsKeyword(ws[i].leaf) ==> Survives(ws[i])) <==>
        (IsKeyword(ws[0].leaf) || Survives(ws[0])) &&
        forall i :: 0 <= i < |ws[1..]| && !IsKeyword(ws[1..][i].leaf) ==> Survives(ws[1..][i]);
    }
  }

  lemma {:induction false} VisibleSolid(ls: Tokens)
    requires AreLeaves(ls)
    ensures forall i :: 0 <= i < |Visible(ls)| ==> Visible(ls)[i].Leaf? && Solid(Value(Visible(ls)[i]))
  {
    if ls != [] {
      VisibleSolid(ls[1..]);
    }
  }

  // A formatted statement that drops nothing shows every leaf but its keywords verbatim,
  // letter case included, if and only if the whitespace inside each survives where the
  // leaf is written.
  lemma LeavesVerbatim(toks: Tokens, uppercase: bool)
    requires AllWellFormed(toks) && DroplessList(toks, 0)
    ensures Verbatim(toks, FormatTokens(toks, uppercase)) <==>
      forall w :: w in Writings(toks, uppercase) && !IsKeyword(w.leaf) ==> Survives(w)
    ensures LeafList(Writings(toks, uppercase)) == Visible(LeavesOf(toks))
  {
    hide Carried, Fines, Visible, LeavesOf, FormatTokens, Writings, DroplessList, Survives, ShowsLeaves, Solid,
      WellFormed;
    StatementCarries(toks, uppercase);
    var ws, text := Writings(toks, uppercase), FormatTokens(toks, uppercase);
    GapsAreBlank(text, "");
    LeavesWellFormed(toks);
    VisibleSolid(LeavesOf(toks));
    forall i | 0 <= i < |ws| ensures ws[i].leaf.Leaf? && Solid(ValueOf(ws[i])) {
      assert LeafList(ws)[i] == ws[i].leaf;
    }
    LeavesShown(ws, Fines(text, ""));
  }

  // Whitespace inside the leaf is single blanks.
  predicate SingleBlanks(leaf: Node) {
    var fs := Fines(Value(leaf), "");
    forall k :: 1 <= k < |fs| ==> fs[k].gap == "" || fs[k].gap == " "
  }

  // Such leaves survive wherever they are written.
  lemma SingleBlanksSurvive(toks: Tokens, uppercase: bool)
    requires AllWellFormed(toks) && DroplessList(toks, 0)
    requires forall l :: l in LeavesOf(toks) && !IsBlankLeaf(l) && !IsKeyword(l) ==> SingleBlanks(l)
    ensures Verbatim(toks, FormatTokens(toks, uppercase))
  {
    hide Verbatim, FormatTokens, Writings, DroplessList, Survives, LeavesOf, SingleBlanks, IsBlankLeaf, Visible;
    LeavesVerbatim(toks, uppercase);
    var ws, ls := Writings(toks, uppercase), LeavesOf(toks);
    forall w | w in ws && !IsKeyword(w.leaf) ensures Survives(w) {
      var i :| 0 <= i < |ws| && ws[i] == w;
      assert LeafList(ws)[i] == w.leaf;
      VisibleMembers(ls, w.leaf);
      SingleSurvives(w);
    }
  }

  lemma {:induction false} VisibleMembers(ls: Tokens, l: Node)
    ensures l in Visible(ls) <==> l in ls && !IsBlankLeaf(l)
  {
    if ls != [] {
      VisibleMembers(ls[1..], l);
    }
  }

  lemma SingleSurvives(w: Writing)
    requires SingleBlanks(w.leaf)
    ensures Survives(w)
  {
    hide Fines;
    assert StableGap("") && StableGap(" ");
  }

  // ---------------------------------------------------------------------
  // A literal that is changed
  // ---------------------------------------------------------------------

  const LITERAL := Leaf(OtherLeaf, "'a  b'")

  lemma LiteralChanged(uppercase: bool)
    ensures AllWellFormed([LITERAL]) && DroplessList([LITERAL], 0)
    ensures FormatTokens([LITERAL], uppercase) == "'a b'"
    ensures !Verbatim([LITERAL], FormatTokens([LITERAL], uppercase))
  {
    hide Clean, Verbatim, Fines, BetweenAnds;
    var toks, st := [LITERAL], Start(uppercase);
    assert toks[1..] == [];
    var bounds := BetweenAnds(toks);
    assert RenderFrom(toks, 1, bounds, EmitWord(FlushComma(st), LITERAL.value)).text == "" + LITERAL.value;
    assert RenderList(toks, st).text == LITERAL.value;
    LiteralCleaned();
    LiteralNotShown();
  }

  lemma LiteralCleaned()
    ensures Clean("'a  b'") == "'a b'"
  {
    hide Clean, CleanBehind, CleanGap, CleanHead, DropTrailingSpaces, DropLeadingNewlines;
    var q := '\'';
    assert "'a  b'" == "" + [q] + "a  b'";
    CleanAt("", q, "a  b'");
    NothingAhead();
    assert "a  b'" == "" + ['a'] + "  b'";
    BehindAt("", 'a', "  b'");
    assert "  b'" == "  " + ['b'] + "'";
    BehindAt("  ", 'b', "'");
    assert "'" == "" + [q] + "";
    BehindAt("", q, "");
    NoGap();
    TwoBlanks();
    assert CleanBehind("") == "" by { NothingBehind(); }
  }

  lemma NothingAhead()
    ensures DropLeadingNewlines(CleanHead(DropTrailingSpaces(""))) == ""
  {
    assert CollapseRuns("", false) == "" && SpaceRun("") == 0;
  }

  lemma NothingBehind()
    ensures CleanBehind("") == ""
  {
    assert CollapseRuns("", true) == "";
  }

  lemma TwoBlanks()
    ensures CleanGap("  ") == " "
  {
    hide CleanGap;
    GapOneLine("  ");
    assert "  "[1..] == " " && " "[1..] == "";
    assert SpaceRun("") == 0 && SpaceRun(" ") == 1 && SpaceRun("  ") == 2;
    assert "  "[2..] == "" && CollapseRuns("", true) == "";
  }

  lemma LiteralNotShown()
    ensures !Verbatim([LITERAL], "'a b'")
  {
    hide Spelled;
    ParenLeaf(LITERAL);
    FourCells("'a  b'", "  ");
    FourCells("'a b'", " ");
    var cs := Fines("'a b'", "");
    assert cs[..4] == cs;
    SolidSpelled("'a b'");
    assert "'a b'"[3] != "'a  b'"[3];
  }

  lemma FourCells(s: string, g: string)
    requires Blank(g) && s == "'a" + g + "b'"
    ensures |Fines(s, "")| == 4
  {
    hide Fines;
    var q := '\'';
    assert s == "" + [q] + ("a" + g + "b'");
    FinesAt("", q, "a" + g + "b'");
    assert "a" + g + "b'" == "" + ['a'] + (g + "b'");
    FinesAt("", 'a', g + "b'");
    assert g + "b'" == g + ['b'] + "'";
    FinesAt(g, 'b', "'");
    assert "'" == "" + [q] + "";
    FinesAt("", q, "");
    BlankFines("", "");
    BlankFines(g, "");
  }
}
