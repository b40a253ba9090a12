// Letter case: what the formatted text makes of keywords, and of nothing else.
module Capitals {
  import opened Text
  import opened SqlTree
  import opened Rendering
  import opened Preservation
  import opened Lossless
  import opened Separation
  import opened Layout
  import opened Gaps
  import opened Stable
  import opened Transcript
  import opened Written
  import opened Transcribes
  import opened Imprints
  import opened Squeezing
  import opened PostProcess
  import Verbatim
  import Columns
  import Seams

  // ---------------------------------------------------------------------
  // Visible characters as they are
  // ---------------------------------------------------------------------

  function Ink(s: string): string {
    if s == "" then "" else (if IsSpace(s[0]) then "" else [s[0]]) + Ink(s[1..])
  }

  lemma {:induction false} InkAppend(a: string, b: string)
    ensures Ink(a + b) == Ink(a) + Ink(b)
  {
    if a == "" {
      assert a + b == b;
    } else {
      assert (a + b)[1..] == a[1..] + b;
      InkAppend(a[1..], b);
    }
  }

  lemma {:induction false} InkFines(s: string, g: string)
    ensures |Ink(s)| == |Fines(s, g)|
    ensures forall k :: 0 <= k < |Ink(s)| ==> Ink(s)[k] == Fines(s, g)[k].ch
  {
    if s != "" {
      InkFines(s[1..], if IsSpace(s[0]) then g + [s[0]] else "");
    }
  }

  lemma InkCanon(s: string)
    ensures |Ink(s)| == |Canon(s)| && forall k :: 0 <= k < |Ink(s)| ==> Canon(s)[k] == Up(Ink(s)[k])
  {
    hide Ink, Canon, Fines;
    InkFines(s, "");
    Columns.FinesCanon(s, "");
  }

  lemma SameInk(s: string, t: string, f: string -> string)
    requires Regapped(Fines(s, ""), Fines(t, ""), f)
    ensures Ink(s) == Ink(t)
  {
    hide Ink, Fines;
    InkFines(s, "");
    InkFines(t, "");
    assert forall k :: 0 <= k < |Ink(s)| ==> Ink(s)[k] == Ink(t)[k];
  }

  // The clean-up keeps them.
  lemma CleanInk(s: string)
    ensures Ink(Clean(s)) == Ink(s)
  {
    hide Ink, Fines, Clean, Regapped;
    CleanFines(s);
    SameInk(s, Clean(s), CleanGap);
  }

  lemma BlankInk(s: string)
    requires Blank(s)
    ensures Ink(s) == ""
  {
    hide Ink, Fines;
    BlankFines(s, "");
    InkFines(s, "");
  }

  // ---------------------------------------------------------------------
  // Texts without small letters
  // ---------------------------------------------------------------------

  predicate NoSmall(s: string) {
    forall i :: 0 <= i < |s| ==> !('a' <= s[i] <= 'z')
  }

  predicate NoCapital(s: string) {
    forall i :: 0 <= i < |s| ==> !('A' <= s[i] <= 'Z')
  }

  lemma {:induction false} InkMembers(s: string)
    ensures NoSmall(s) ==> NoSmall(Ink(s))
  {
    if s != "" {
      InkMembers(s[1..]);
      assert NoSmall(s) ==> NoSmall(s[1..]);
    }
  }

  // Without small letters the visible characters are those that count.
  lemma CapitalInk(s: string)
    requires NoSmall(s)
    ensures Ink(s) == Canon(s)
  {
    hide Ink, Canon;
    InkMembers(s);
    InkCanon(s);
    assert forall k :: 0 <= k < |Ink(s)| ==> Canon(s)[k] == Ink(s)[k];
  }

  lemma {:induction false} WordsChars(s: string)
    requires NoSmall(s)
    ensures NoSmall(Join(" ", Words(s)))
    decreases |s|
  {
    hide Join;
    var t := TrimLeft(s);
    if t == "" {
      JoinNone();
    } else {
      var n := WordLength(t);
      TrimmedEnd(s);
      assert NoSmall(t) && NoSmall(t[..n]) && NoSmall(t[n..]);
      WordsChars(t[n..]);
      FirstJoin(t[..n], Words(t[n..]));
    }
  }

  lemma {:induction false} TrimmedEnd(s: string)
    ensures NoSmall(s) ==> NoSmall(TrimLeft(s))
  {
    if s != "" && IsSpace(s[0]) {
      TrimmedEnd(s[1..]);
      assert NoSmall(s) ==> NoSmall(s[1..]);
    }
  }

  lemma NormalCapitals(v: string)
    ensures NoSmall(Normalize(v))
  {
    hide Words;
    assert NoSmall(Upper(v));
    WordsChars(Upper(v));
  }

  // A keyword of a list: its tokens in capitals, single blanks in between, or the same in
  // small letters.
  lemma KeyTextIs(p: Piece, uppercase: bool)
    requires p.Key? && PieceOk(p, uppercase)
    ensures uppercase ==> p.text == Merged(p.toks) && NoSmall(p.text)
    ensures !uppercase ==> p.text == Lower(Merged(p.toks)) && NoCapital(p.text)
  {
    hide Normalize;
    NormalCapitals(p.toks[0].value);
    NormalCapitals(p.toks[|p.toks| - 1].value);
    assert NoSmall(Merged(p.toks));
  }

  // ---------------------------------------------------------------------
  // Each keyword in the formatted text
  // ---------------------------------------------------------------------

  predicate SingleGaps(s: string) {
    forall k :: 1 <= k < |Fines(s, "")| ==> Fines(s, "")[k].gap == "" || Fines(s, "")[k].gap == " "
  }

  lemma NormalGaps(v: string)
    ensures SingleGaps(Normalize(v))
  {
    hide Fines, Words, Join;
    WordsFines(Upper(v));
  }

  lemma {:induction false} LowerFines(s: string, g: string)
    requires Blank(g)
    ensures |Fines(Lower(s), g)| == |Fines(s, g)|
    ensures forall k :: 0 <= k < |Fines(s, g)| ==> Fines(Lower(s), g)[k].gap == Fines(s, g)[k].gap
  {
    if s != "" {
      assert Lower(s)[1..] == Lower(s[1..]);
      assert IsSpace(Low(s[0])) == IsSpace(s[0]) && (IsSpace(s[0]) ==> Low(s[0]) == s[0]);
      LowerFines(s[1..], if IsSpace(s[0]) then g + [s[0]] else "");
    }
  }

  lemma PairGaps(a: string, b: string)
    requires SingleGaps(a) && SingleGaps(b) && Solid(a) && Solid(b)
    ensures SingleGaps(a + " " + b)
  {
    hide Fines, Tail, Solid;
    SolidParts(a);
    SolidParts(b);
    FinesAppend(a, " " + b, "");
    assert a + " " + b == a + (" " + b);
    assert " " + b == "" + " " + b;
    FinesAppend(" ", b, "");
    OneBlank();
    BlankFines(" ", "");
    FinesGap(b, " ");
    var x, y, z := Fines(a, ""), Fines(b, ""), Fines(b, " ");
    assert "" + " " == " " && [] + z == z;
    assert Fines(a + " " + b, "") == x + z;
    var fs: seq<Fine> := x + z;
    forall k | 1 <= k < |fs| ensures fs[k].gap == "" || fs[k].gap == " " {
      if k > |x| {
        assert fs[k] == z[1..][k - |x| - 1] == y[1..][k - |x| - 1];
      } else if k == |x| {
        assert z[0].gap == " " + "";
      }
    }
  }

  lemma SolidParts(s: string)
    requires Solid(s)
    ensures Tail(s, "") == "" && Fines(s, "") != [] && Fines(s, "")[0].gap == ""
  {
    hide Fines, Tail;
    Verbatim.SolidSpelled(s);
    SolidFines(s);
  }

  lemma KeyGaps(p: Piece, uppercase: bool)
    requires p.Key? && PieceOk(p, uppercase)
    ensures SingleGaps(p.text) && Solid(p.text)
  {
    hide Normalize, Fines, Solid;
    var first, last := p.toks[0].value, p.toks[|p.toks| - 1].value;
    NormalGaps(first);
    NormalGaps(last);
    WellFormedSolid(p.toks[0]);
    WellFormedSolid(p.toks[|p.toks| - 1]);
    NormalizeSolid(first);
    NormalizeSolid(last);
    var m := Merged(p.toks);
    if |p.toks| > 1 {
      PairGaps(Normalize(first), Normalize(last));
      PairSolid(Normalize(first), Normalize(last));
    }
    KeyTextIs(p, uppercase);
    BlankNone();
    LowerFines(m, "");
    LowerSolid(m);
  }

  lemma BlankNone()
    ensures Blank("")
  {
  }

  lemma WellFormedSolid(leaf: Node)
    requires IsKeyword(leaf) && WellFormed(leaf)
    ensures Solid(leaf.value)
  {
  }

  lemma PairSolid(a: string, b: string)
    requires Solid(a) && Solid(b)
    ensures Solid(a + " " + b)
  {
  }

  lemma LowerSolid(s: string)
    requires Solid(s)
    ensures Solid(Lower(s))
  {
  }

  // Every keyword handled in a list stands in the formatted text, behind what is visible
  // before it, as its tokens in capitals with single blanks in between - or all of it in
  // small letters.
  lemma KeywordsWritten(toks: Tokens, uppercase: bool, k: nat)
    requires AllWellFormed(toks) && k < |Pieces(toks, Start(uppercase))| && Pieces(toks, Start(uppercase))[k].Key?
    ensures
      var ps, cs := Pieces(toks, Start(uppercase)), Fines(FormatTokens(toks, uppercase), "");
      var p := ps[k];
      var m, n := |Ink(Out(ps[..k]))|, |Ink(p.text)|;
      && m + n <= |cs|
      && p.toks != [] && IsKeyword(p.toks[0]) && IsKeyword(p.toks[|p.toks| - 1])
      && Verbatim.Spelled(cs[m..m + n]) == p.text
      && (if uppercase then p.text == Merged(p.toks) && NoSmall(p.text)
          else p.text == Lower(Merged(p.toks)) && NoCapital(p.text))
  {
    hide AllOk, AllPlaced, AllFit, Smaller, Out, RenderList, Pieces, Clean, Ink, Fines, PieceOk, LeavesOf, Sources,
      Regapped, Verbatim.Spelled, Merged;
    StatementWrites(toks, uppercase);
    var ps := Pieces(toks, Start(uppercase));
    var p := ps[k];
    PieceAt(ps, k, uppercase);
    KeyRun(p, uppercase);
    KeyTextIs(p, uppercase);
    KeyGaps(p, uppercase);
    OutParts(ps, k);
    CleanFines(Out(ps));
    WordStays(Out(ps[..k]), p.text, Out(ps[k + 1..]));
  }

  lemma KeyRun(p: Piece, uppercase: bool)
    requires p.Key? && PieceOk(p, uppercase)
    ensures p.toks != [] && IsKeyword(p.toks[0]) && IsKeyword(p.toks[|p.toks| - 1])
  {
  }

  lemma PieceAt(ps: seq<Piece>, k: nat, uppercase: bool)
    requires AllOk(ps, uppercase) && k < |ps|
    ensures PieceOk(ps[k], uppercase)
  {
    hide PieceOk;
  }

  lemma OutParts(ps: seq<Piece>, k: nat)
    requires k < |ps|
    ensures Out(ps) == Out(ps[..k]) + TextOf(ps[k]) + Out(ps[k + 1..])
  {
    hide Out, TextOf;
    Slices(ps, k);
    OutAppend(ps[..k + 1], ps[k + 1..]);
    OutAppend(ps[..k], [ps[k]]);
    OneOut(ps[k]);
  }

  lemma Slices(ps: seq<Piece>, k: nat)
    requires k < |ps|
    ensures ps == ps[..k + 1] + ps[k + 1..] && ps[..k + 1] == ps[..k] + [ps[k]]
  {
  }

  lemma OneOut(p: Piece)
    ensures Out([p]) == TextOf(p)
  {
    assert [p][1..] == [] && TextOf(p) + "" == TextOf(p);
  }

  // A text with single blanks inside stays as it is through the clean-up.
  lemma WordStays(a: string, w: string, b: string)
    requires Solid(w) && SingleGaps(w)
    requires Regapped(Fines(a + w + b, ""), Fines(Clean(a + w + b), ""), CleanGap)
    ensures
      var cs := Fines(Clean(a + w + b), "");
      var m, n := |Ink(a)|, |Ink(w)|;
      m + n <= |cs| && Verbatim.Spelled(cs[m..m + n]) == w
  {
    hide Fines, Tail, Clean, CleanGap, Solid, Ink, Verbatim.Tidy, Verbatim.Spelled;
    var as0, cs := Fines(a + w + b, ""), Fines(Clean(a + w + b), "");
    InkFines(a, "");
    InkFines(w, "");
    FinesAppend(a + w, b, "");
    FinesAppend(a, w, "");
    FinesGap(w, Tail(a, ""));
    var x, y, z := Fines(a, ""), Fines(w, Tail(a, "")), Fines(b, Tail(a + w, ""));
    assert as0 == x + y + z;
    var m, n := |Ink(a)|, |Ink(w)|;
    var mid := cs[m..m + n];
    Verbatim.GapsAreBlank(Clean(a + w + b), "") by { BlankNone(); }
    assert Verbatim.Tidy(mid) by { TidyPart(cs, m, n); }
    forall k | 0 <= k < |mid|
      ensures mid[k].ch == Fines(w, "")[k].ch && (k > 0 ==> mid[k].gap == Fines(w, "")[k].gap)
    {
      assert mid[k] == cs[m + k] && as0[m + k] == y[k];
      if k > 0 {
        assert y[k] == y[1..][k - 1] == Fines(w, "")[1..][k - 1] == Fines(w, "")[k];
        SingleStays(Fines(w, "")[k].gap);
      }
    }
    Verbatim.SpelledIs(mid, w);
  }

  lemma TidyPart(cs: seq<Fine>, m: nat, n: nat)
    requires m + n <= |cs| && forall k :: 0 <= k < |cs| ==> Blank(cs[k].gap) && !IsSpace(cs[k].ch)
    ensures Verbatim.Tidy(cs[m..m + n])
  {
  }

  lemma SingleStays(g: string)
    requires g == "" || g == " "
    ensures CleanGap(g) == g
  {
    hide CleanGap;
    OneBlank();
    assert Blank(g);
    GapStable(g);
    assert StableGap(g);
  }

  // ---------------------------------------------------------------------
  // Every keyword in capitals, and nothing else
  // ---------------------------------------------------------------------

  // The leaves one after the other, keywords in capitals.
  function Capitalised(ls: Tokens): string {
    if ls == [] then ""
    else (if IsKeyword(ls[0]) then Upper(Value(ls[0])) else Value(ls[0])) + Capitalised(ls[1..])
  }

  lemma CapitalisedIs(toks: Tokens)
    ensures Capitalised(LeavesOf(toks)) == KeywordsUpperList(toks)
  {
    LeavesText(toks, true);
    OnlyLeaves(toks);
    LeafCapitals(LeavesOf(toks));
  }

  lemma {:induction false} OnlyLeaves(toks: Tokens)
    ensures forall i :: 0 <= i < |LeavesOf(toks)| ==> LeavesOf(toks)[i].Leaf?
    decreases SizeList(toks), 2
  {
    if toks != [] {
      NodeOnlyLeaves(toks[0]);
      OnlyLeaves(toks[1..]);
    }
  }

  lemma {:induction false} NodeOnlyLeaves(node: Node)
    ensures forall i :: 0 <= i < |Leaves(node)| ==> Leaves(node)[i].Leaf?
    decreases Size(node), 1
  {
    match node
    case Leaf(_, _) =>
    case Group(_, kids) => OnlyLeaves(kids);
  }

  lemma {:induction false} LeafCapitals(ls: Tokens)
    requires forall i :: 0 <= i < |ls| ==> ls[i].Leaf?
    ensures Capitalised(ls) == KeywordsUpperList(ls)
  {
    if ls != [] {
      LeafCapitals(ls[1..]);
    }
  }

  // How deep parentheses nest.
  function Nest(node: Node): nat {
    match node
    case Leaf(_, _) => 0
    case Group(group, kids) => NestList(kids) + if group.Parens? then 1 else 0
  }

  function NestList(toks: Tokens): nat {
    if toks == [] then 0
    else if Nest(toks[0]) > NestList(toks[1..]) then Nest(toks[0]) else NestList(toks[1..])
  }

  lemma {:induction false} NestMember(toks: Tokens, k: nat)
    requires k < |toks|
    ensures Nest(toks[k]) <= NestList(toks)
  {
    hide Nest;
    if k > 0 {
      NestMember(toks[1..], k - 1);
    }
  }

  lemma {:induction false} NestInner(kids: Tokens)
    ensures NestList(Inner(kids)) <= NestList(kids)
  {
    hide Nest;
    if kids != [] {
      NestInner(kids[1..]);
    }
  }

  // No parenthesis is copied because of the limit, nor is one in a subquery formatted by
  // itself.
  predicate Shallow(ps: seq<Piece>) {
    forall k :: 0 <= k < |ps| ==>
      && (ps[k].Parens? && ps[k].node.Group? ==> !HasSelect(ps[k].node.kids, 5))
      && (ps[k].Embed? && ps[k].paren.Group? ==> NestList(ps[k].paren.kids) <= 30)
  }

  lemma ShallowAppend(a: seq<Piece>, b: seq<Piece>)
    requires Shallow(a) && Shallow(b)
    ensures Shallow(a + b)
  {
  }

  predicate Simple(p: Piece) {
    !p.Parens? && !p.Embed?
  }

  lemma SimpleShallow(ps: seq<Piece>)
    requires forall k :: 0 <= k < |ps| ==> Simple(ps[k])
    ensures Shallow(ps)
  {
  }

  lemma LaysShallow(st: State)
    ensures Shallow(LaySpace(st)) && Shallow(LayComma(st))
  {
  }

  lemma {:induction false} ListShallow(toks: Tokens, st: State)
    requires Laid(st) && st.depth + NestList(toks) <= 30
    ensures Shallow(Pieces(toks, st))
    decreases SizeList(toks), 3, 0
  {
    hide Shallow, PiecesFrom, Laid;
    FromShallow(toks, 0, BetweenAnds(toks), st);
  }

  lemma {:induction false} FromShallow(toks: Tokens, i: nat, bounds: set<nat>, st: State)
    requires i <= |toks| && Laid(st) && st.depth + NestList(toks) <= 30
    ensures Shallow(PiecesFrom(toks, i, bounds, st))
    decreases SizeList(toks), 2, |toks| - i
  {
    hide Shallow, PiecesFrom, RenderFrom, Laid, StepState, StepPieces, StepTo;
    if i == |toks| {
      NoMore(toks, bounds, st);
      SimpleShallow([]);
    } else {
      OneStep(toks, i, bounds, st);
      StepShallow(toks, i, bounds, st);
      FromShallow(toks, StepTo(toks, i), bounds, StepState(toks, i, bounds, st));
      ShallowAppend(StepPieces(toks, i, bounds, st),
        PiecesFrom(toks, StepTo(toks, i), bounds, StepState(toks, i, bounds, st)));
    }
  }

  lemma {:induction false} StepShallow(toks: Tokens, i: nat, bounds: set<nat>, st: State)
    requires i < |toks| && Laid(st) && st.depth + NestList(toks) <= 30
    ensures Shallow(StepPieces(toks, i, bounds, st))
    ensures Laid(StepState(toks, i, bounds, st)) && StepState(toks, i, bounds, st).depth == st.depth
    decreases SizeList(toks), 1, 1
  {
    hide Shallow, Laid, HandleKeyword, HandlePunct, RenderGroup, ResolveKeyword, KeywordPieces, GroupPieces, LayComma,
      LaySpace, FlushComma, EmitWord, Nest;
    var tok := toks[i];
    if IsBlankLeaf(tok) {
      SimpleShallow([Skip([tok])]);
    } else if IsPunct(tok, ",") || IsPunct(tok, ";") {
      SimpleShallow([Word(tok)]);
      PunctLaid(tok, st);
    } else if IsKeyword(tok) {
      KeyShallow(toks, i, bounds, st);
      KeywordLaid(toks, i, bounds, st);
    } else if tok.Group? {
      SizeMember(toks, i);
      NestMember(toks, i);
      CommaLaid(st);
      GroupShallow(tok, FlushComma(st));
      GroupLaid(tok, FlushComma(st));
      LaysShallow(st);
      ShallowAppend(LayComma(st), GroupPieces(tok, FlushComma(st)));
    } else {
      SmallStepsLaid(st, tok.value);
      BrokenDepth(st, tok.value);
      LaysShallow(st);
      LaysShallow(FlushComma(st));
      SimpleShallow([Word(tok)]);
      ShallowAppend(LaySpace(FlushComma(st)), [Word(tok)]);
      ShallowAppend(LayComma(st), LaySpace(FlushComma(st)) + [Word(tok)]);
    }
  }

  lemma KeyShallow(toks: Tokens, i: nat, bounds: set<nat>, st: State)
    requires i < |toks| && IsKeyword(toks[i])
    ensures Shallow(KeywordPieces(toks, i, bounds, st))
  {
    hide ResolveKeyword, KindAt, Rendering.Nest, KeywordText, KeyIndent, Padding, LineStart;
    SimpleShallow(KeywordPieces(toks, i, bounds, st));
  }

  lemma {:induction false} GroupShallow(node: Node, st: State)
    requires node.Group? && Laid(st) && st.depth + Nest(node) <= 30
    ensures Shallow(GroupPieces(node, st))
    decreases Size(node), 1, 0
  {
    hide Shallow, Laid, Pieces, ParensPieces, CasePieces, ComparisonPieces, InlinePieces, LaySpace, CopyText,
      IdentNeedsRecursion, IsSimpleList, Indent;
    var copy := [Copy(node, CopyText(node, st.uppercase))];
    LaysShallow(st);
    SimpleShallow(copy);
    ShallowAppend(LaySpace(st), copy);
    match node.group
    case CaseExpr => CaseShallow(node.kids, 0, st, Indent(st), true);
    case Parens => ParensShallow(node, st);
    case IdList =>
      InlineShallow(node.kids, st.uppercase);
      ShallowAppend(LaySpace(st), InlinePieces(node.kids, st.uppercase));
      ListShallow(node.kids, st);
    case Ident => ListShallow(node.kids, st);
    case Compare => if ContainsSubquery(node.kids) { ComparisonShallow(node, st); }
    case FuncCall =>
    case Container => ListShallow(node.kids, st);
  }

  lemma {:induction false} InlineShallow(kids: Tokens, uppercase: bool)
    ensures Shallow(InlinePieces(kids, uppercase))
  {
    hide CopyText;
    if kids != [] {
      InlineShallow(kids[1..], uppercase);
    }
  }

  lemma {:induction false} ParensShallow(node: Node, st: State)
    requires node.Group? && node.group.Parens? && Laid(st) && st.depth + Nest(node) <= 30
    ensures Shallow(ParensPieces(node, st))
    decreases Size(node), 0, 0
  {
    hide Shallow, Laid, Pieces, LaySpace, EnterSubquery, HasSelect, ParenText, Indent;
    LaysShallow(st);
    if HasSelect(node.kids, SELECT_DEPTH) {
      var inner, s1 := Inner(node.kids), EnterSubquery(st);
      NestInner(node.kids);
      Entered(st);
      ListShallow(inner, s1);
      var head, tail := LaySpace(st) + [Word(OPEN)], [Lay("\n" + Indent(st)), Word(CLOSE)];
      SimpleShallow([Word(OPEN)]);
      SimpleShallow(tail);
      ShallowAppend(LaySpace(st), [Word(OPEN)]);
      ShallowAppend(head, Pieces(inner, s1));
      ShallowAppend(head + Pieces(inner, s1), tail);
    } else {
      var p := Piece.Parens(node, ParenText(node, st.uppercase));
      PlainShallow(p);
      ShallowAppend(LaySpace(st), [p]);
    }
  }

  lemma PlainShallow(p: Piece)
    requires p.Parens? && p.node.Group? && !HasSelect(p.node.kids, 5)
    ensures Shallow([p])
  {
    hide HasSelect;
  }

  lemma Entered(st: State)
    requires Laid(st) && st.depth < MAX_DEPTH
    ensures Laid(EnterSubquery(st)) && EnterSubquery(st).depth == st.depth + 1
  {
  }

  lemma {:induction false} CaseShallow(kids: Tokens, i: nat, st: State, base: string, firstWhen: bool)
    requires i <= |kids| && Laid(st) && st.depth + NestList(kids) <= 30
    ensures Shallow(CasePieces(kids, i, st, base, firstWhen))
    decreases SizeList(kids), 2, |kids| - i
  {
    hide Shallow, Laid, Normalize, EmitWhen, EmitCaseLeaf, RenderCaseGroup, WhenPieces, CaseLeafPieces,
      CaseGroupPieces, Nest;
    if i == |kids| {
      SimpleShallow([]);
    } else {
      var tok := kids[i];
      if tok.Leaf? {
        CaseLeafShallow(tok, st, base, firstWhen);
        CaseLeafLaid(tok, st, base, firstWhen);
      }
      if IsKeyword(tok) && Normalize(tok.value) == "WHEN" {
        var s1 := EmitWhen(tok, st, base, firstWhen);
        CaseShallow(kids, i + 1, s1, base, false);
        ShallowAppend(WhenPieces(tok, st, base, firstWhen), CasePieces(kids, i + 1, s1, base, false));
      } else if tok.Leaf? {
        var s1 := EmitCaseLeaf(tok, st, base);
        CaseShallow(kids, i + 1, s1, base, firstWhen);
        ShallowAppend(CaseLeafPieces(tok, st, base), CasePieces(kids, i + 1, s1, base, firstWhen));
      } else {
        SizeMember(kids, i);
        NestMember(kids, i);
        var s1 := RenderCaseGroup(tok, st);
        CaseGroupShallow(tok, st);
        CaseGroupLaid(tok, st);
        CaseShallow(kids, i + 1, s1, base, firstWhen);
        ShallowAppend(CaseGroupPieces(tok, st), CasePieces(kids, i + 1, s1, base, firstWhen));
      }
    }
  }

  lemma CaseLeafShallow(tok: Node, st: State, base: string, firstWhen: bool)
    requires tok.Leaf?
    ensures Shallow(WhenPieces(tok, st, base, firstWhen)) && Shallow(CaseLeafPieces(tok, st, base))
  {
    hide Normalize, CaseKeyword;
  }

  lemma {:induction false} CaseGroupShallow(tok: Node, st: State)
    requires tok.Group? && Laid(st) && st.depth + Nest(tok) <= 30
    ensures Shallow(CaseGroupPieces(tok, st))
    decreases Size(tok), 2, 0
  {
    hide Shallow, Laid, GroupPieces, ComparisonPieces, LaySpace, CopyText, FlushSpace;
    LaysShallow(st);
    if IsSubqueryComparison(tok) {
      ComparisonShallow(tok, st);
    } else if tok.group.Ident? || tok.group.Compare? {
      SimpleShallow([Copy(tok, CopyText(tok, st.uppercase))]);
      ShallowAppend(LaySpace(st), [Copy(tok, CopyText(tok, st.uppercase))]);
    } else {
      SpaceLaid(st);
      GroupShallow(tok, FlushSpace(st));
      ShallowAppend(LaySpace(st), GroupPieces(tok, FlushSpace(st)));
    }
  }

  lemma ComparisonShallow(node: Node, st: State)
    requires node.Group? && ContainsSubquery(node.kids) && Laid(st) && st.depth + Nest(node) <= 30
    ensures Shallow(ComparisonPieces(node, st))
  {
    hide Shallow, IsSimpleSubquery, LaySpace, CopyText, EmbedText, LeftPieces, EmitComparisonLeft, FlushSpace,
      CurrentColumn, HasSelect;
    var p := FirstSubquery(node.kids);
    var paren := node.kids[p];
    LaysShallow(st);
    if IsSimpleSubquery(paren) {
      SimpleShallow([Copy(node, CopyText(node, st.uppercase))]);
      ShallowAppend(LaySpace(st), [Copy(node, CopyText(node, st.uppercase))]);
    } else {
      NestMember(node.kids, p);
      var left := EmitComparisonLeft(node.kids[..p], st);
      var column := CurrentColumn(FlushSpace(left).text);
      var tail := [Embed(paren, column, EmbedText(paren, st.uppercase, column)), Skip(node.kids[p + 1..])];
      EmbedShallow(paren, column, EmbedText(paren, st.uppercase, column), node.kids[p + 1..]);
      LeftShallow(node.kids[..p], st);
      LaysShallow(left);
      ShallowAppend(LeftPieces(node.kids[..p], st), LaySpace(left));
      ShallowAppend(LeftPieces(node.kids[..p], st) + LaySpace(left), tail);
    }
  }

  lemma EmbedShallow(paren: Node, column: nat, text: string, rest: Tokens)
    requires paren.Group? && Nest(paren) <= 30
    ensures Shallow([Embed(paren, column, text), Skip(rest)])
  {
  }

  lemma {:induction false} LeftShallow(toks: Tokens, st: State)
    ensures Shallow(LeftPieces(toks, st))
  {
    hide OperandPieces, EmitOperand, Shallow;
    if toks == [] {
      SimpleShallow([]);
    } else {
      OperandShallow(toks[0], st);
      LeftShallow(toks[1..], EmitOperand(toks[0], st));
      ShallowAppend(OperandPieces(toks[0], st), LeftPieces(toks[1..], EmitOperand(toks[0], st)));
    }
  }

  lemma OperandShallow(tok: Node, st: State)
    ensures Shallow(OperandPieces(tok, st))
  {
    hide CopyText, CaseKeyword;
  }

  // ---------------------------------------------------------------------
  // The pieces in capitals
  // ---------------------------------------------------------------------

  lemma UpperInk(toks: Tokens)
    requires forall i :: 0 <= i < |toks| ==> IsKeyword(toks[i]) || IsBlankLeaf(toks[i])
    requires AllWellFormed(toks)
    ensures NoSmall(KeywordsUpperList(toks))
  {
    if toks != [] {
      assert NoSmall(KeywordsUpper(toks[0])) by { assert WellFormed(toks[0]); }
      UpperInk(toks[1..]);
    }
  }

  lemma KeyCapitals(p: Piece)
    requires p.Key? && PieceOk(p, true)
    ensures Ink(p.text) == Ink(KeywordsUpperList(p.toks))
  {
    hide Ink, Canon, Cells, KeywordsUpperList, Merged, ValueList;
    KeyTextIs(p, true);
    Verbatim.KeyText(p, true);
    UpperInk(p.toks);
    CapitalInk(p.text);
    CapitalInk(KeywordsUpperList(p.toks));
    KeywordsUpperListCells(p.toks, true);
    SameCellsSameCanon(KeywordsUpperList(p.toks), ValueList(p.toks));
  }

  lemma OneCapitals(node: Node)
    ensures KeywordsUpperList([node]) == KeywordsUpper(node)
  {
    assert [node][1..] == [] && [node][0] == node && KeywordsUpperList([]) == "";
    assert KeywordsUpper(node) + "" == KeywordsUpper(node);
  }

  lemma PieceCapitals(p: Piece)
    requires PieceOk(p, true) && Shallow([p]) && SkipsBlank([p]) && !p.Embed?
    ensures Ink(TextOf(p)) == Ink(KeywordsUpperList(SourceOf(p)))
  {
    hide Ink, Fines, CopyText, KeywordsUpperList, Squeeze, HasSelect, Regapped;
    assert [p][0] == p;
    match p
    case Skip(toks) =>
      BlankUpper(toks);
      BlankInk("");
    case Lay(blank) =>
      BlankInk(blank);
      NoneUpper();
    case Word(leaf) => OneCapitals(leaf);
    case Key(_, _, _, _) => KeyCapitals(p);
    case CaseKey(leaf, _) => OneCapitals(leaf);
    case FirstWhen(leaf, _) => OneCapitals(leaf);
    case Copy(node, _) =>
      OneCapitals(node);
      CopyFines(node, true);
      SameInk(KeywordsUpper(node), CopyText(node, true), Squeeze);
    case Parens(node, _) => OneCapitals(node);
  }

  lemma NoneUpper()
    ensures Ink(KeywordsUpperList([])) == "" && Ink("") == ""
  {
  }

  lemma BlankUpper(toks: Tokens)
    requires Blank(ValueList(toks))
    ensures Ink(KeywordsUpperList(toks)) == ""
  {
    hide Ink, Canon, Cells, KeywordsUpperList, ValueList;
    KeywordsUpperListCells(toks, true);
    SameCellsSameCanon(KeywordsUpperList(toks), ValueList(toks));
    InkCanon(KeywordsUpperList(toks));
    InkCanon(ValueList(toks));
    BlankInk(ValueList(toks));
  }

  // A subquery formatted by itself, given its statement.
  lemma EmbedCapitals(p: Piece)
    requires p.Embed? && PieceOk(p, true)
    requires
      var inner := Inner(p.paren.kids);
      Ink(FormatTokens(inner, true)) == Ink(KeywordsUpperList(inner))
    ensures Ink(TextOf(p)) == Ink(KeywordsUpperList(SourceOf(p)))
  {
    hide Ink, Fines, FormatTokens, Body, Regapped, WellFormed, KeywordsUpperList, Inner;
    var paren, inner := p.paren, Inner(p.paren.kids);
    var body := Body(FormatTokens(inner, true), p.column);
    BodyFines(FormatTokens(inner, true), p.column);
    SameInk(FormatTokens(inner, true), body, Shift(p.column));
    PairedParts(paren);
    OneCapitals(paren);
    ParensUpper(inner);
    assert KeywordsUpper(paren) == KeywordsUpperList(paren.kids);
    InkAppend("(" + body, ")");
    InkAppend("(", body);
    InkAppend("(" + KeywordsUpperList(inner), ")");
    InkAppend("(", KeywordsUpperList(inner));
  }

  lemma ParensUpper(inner: Tokens)
    ensures KeywordsUpperList([OPEN] + inner + [CLOSE]) == "(" + KeywordsUpperList(inner) + ")"
  {
    hide KeywordsUpperList;
    UpperAppend([OPEN] + inner, [CLOSE]);
    UpperAppend([OPEN], inner);
    OneCapitals(OPEN);
    OneCapitals(CLOSE);
  }

  lemma {:induction false} UpperAppend(a: Tokens, b: Tokens)
    ensures KeywordsUpperList(a + b) == KeywordsUpperList(a) + KeywordsUpperList(b)
  {
    TextAppend(a, b, true);
  }

  lemma {:induction false} PiecesCapitals(ps: seq<Piece>)
    requires AllOk(ps, true) && Shallow(ps) && SkipsBlank(ps)
    requires forall k :: 0 <= k < |ps| && ps[k].Embed? && ps[k].paren.Group? ==>
      Ink(FormatTokens(Inner(ps[k].paren.kids), true)) == Ink(KeywordsUpperList(Inner(ps[k].paren.kids)))
    ensures Ink(Out(ps)) == Ink(KeywordsUpperList(Sources(ps)))
  {
    hide Ink, FormatTokens, KeywordsUpperList, PieceOk, Shallow, SkipsBlank, Inner;
    if ps == [] {
      NoneUpper();
    } else {
      var p, rest := ps[0], ps[1..];
      FirstOf(ps);
      if p.Embed? {
        Verbatim.EmbedOk(p, true);
        EmbedCapitals(p);
      } else {
        PieceCapitals(p);
      }
      forall k | 0 <= k < |rest| ensures rest[k] == ps[k + 1] {
      }
      PiecesCapitals(rest);
      InkAppend(TextOf(p), Out(rest));
      UpperAppend(SourceOf(p), Sources(rest));
      InkAppend(KeywordsUpperList(SourceOf(p)), KeywordsUpperList(Sources(rest)));
    }
  }

  lemma FirstOf(ps: seq<Piece>)
    requires ps != [] && AllOk(ps, true) && Shallow(ps) && SkipsBlank(ps)
    ensures PieceOk(ps[0], true) && Shallow([ps[0]]) && SkipsBlank([ps[0]])
    ensures AllOk(ps[1..], true) && Shallow(ps[1..]) && SkipsBlank(ps[1..])
  {
    hide PieceOk, HasSelect, DroplessList, Blank, ValueList, Inner, NestList;
    forall k | 0 <= k < |ps[1..]| ensures ps[1..][k] == ps[k + 1] {
    }
  }

  lemma {:induction false} StatementCapitals(toks: Tokens)
    requires AllWellFormed(toks) && DroplessList(toks, 0) && NestList(toks) <= 30
    ensures Ink(FormatTokens(toks, true)) == Ink(KeywordsUpperList(toks))
    decreases SizeList(toks)
  {
    hide AllOk, AllPlaced, AllFit, Smaller, Out, RenderList, Pieces, Clean, Ink, PieceOk, LeavesOf, Sources,
      KeywordsUpperList, Shallow, SkipsBlank, DroplessList, Inner, NestList, Laid, WellFormed;
    StatementWrites(toks, true);
    var ps := Pieces(toks, Start(true));
    StartLaid(true);
    ListShallow(toks, Start(true));
    forall k | 0 <= k < |ps| && ps[k].Embed? && ps[k].paren.Group?
      ensures Ink(FormatTokens(Inner(ps[k].paren.kids), true)) == Ink(KeywordsUpperList(Inner(ps[k].paren.kids)))
    {
      Seams.EmbedInner(ps, k, true);
      EmbedFits(ps, k, SizeList(toks));
      StatementCapitals(Inner(ps[k].paren.kids));
    }
    PiecesCapitals(ps);
    CleanInk(Out(ps));
    SameLeaves(Sources(ps), toks);
  }

  lemma EmbedFits(ps: seq<Piece>, k: nat, n: nat)
    requires k < |ps| && ps[k].Embed? && ps[k].paren.Group? && Smaller(ps, n) && Shallow(ps) && SkipsBlank(ps)
    ensures
      var inner := Inner(ps[k].paren.kids);
      SizeList(inner) < n && NestList(inner) <= 30 && DroplessList(inner, 0)
  {
    hide Inner, DroplessList, NestList, Blank, ValueList, HasSelect;
    NestInner(ps[k].paren.kids);
  }

  lemma SameLeaves(a: Tokens, b: Tokens)
    requires LeavesOf(a) == LeavesOf(b)
    ensures KeywordsUpperList(a) == KeywordsUpperList(b)
  {
    CapitalisedIs(a);
    CapitalisedIs(b);
  }

  // With capitals asked for, the visible text of a formatted statement that drops nothing
  // is that of its tokens with every keyword in capitals and nothing else changed - in
  // lists, CASE expressions, copies and subqueries alike, nested up to thirty deep.
  lemma KeywordsInCapitals(toks: Tokens)
    requires AllWellFormed(toks) && DroplessList(toks, 0) && NestList(toks) <= 30
    ensures Ink(FormatTokens(toks, true)) == Ink(Capitalised(LeavesOf(toks)))
  {
    StatementCapitals(toks);
    CapitalisedIs(toks);
  }
}
