// Exactly when the formatted text keeps the tokens apart: what is written without
// whitespace in between, and between which characters that loses a boundary.
module Seams {
  import opened Text
  import opened SqlTree
  import opened Rendering
  import opened Preservation
  import opened Probe
  import opened Separation
  import opened Transcript
  import opened Written
  import opened Transcribes
  import Fusion
  import PostProcess

  // ---------------------------------------------------------------------
  // Seams
  // ---------------------------------------------------------------------

  // No whitespace is written for this piece.
  predicate Neutral(p: Piece) {
    p.Skip? || p == Lay("")
  }

  // Pieces j and k are written right behind each other.
  predicate Adjoin(ps: seq<Piece>, j: nat, k: nat)
    requires j < k < |ps|
  {
    IsInk(ps[j]) && IsInk(ps[k]) && forall m :: j < m < k ==> Neutral(ps[m])
  }

  // The input has whitespace between them.
  predicate Parted(ps: seq<Piece>, j: nat, k: nat)
    requires j < k < |ps|
  {
    || Trail(ValueList(SourceOf(ps[j])), false)
    || Leads(ValueList(SourceOf(ps[k])))
    || exists m :: j < m < k && ps[m].Skip? && ValueList(ps[m].toks) != ""
  }

  predicate Leads(v: string) {
    v != "" && IsSpace(v[0])
  }

  predicate MeetAtDelimiter(p: Piece, q: Piece) {
    (TextOf(p) != "" && IsDelim(LastChar(p))) || (TextOf(q) != "" && IsDelim(FirstChar(q)))
  }

  // Two tokens that whitespace keeps apart in the input run together in the output.
  predicate Clash(ps: seq<Piece>, j: nat, k: nat)
    requires j < k < |ps|
  {
    Adjoin(ps, j, k) && Parted(ps, j, k) && !MeetAtDelimiter(ps[j], ps[k])
  }

  // The three places where the renderer leaves out whitespace: before the first WHEN of a
  // CASE expression, behind a set operator and behind BEGIN.
  predicate Seam(p: Piece, q: Piece) {
    q.FirstWhen? || (p.Key? && (p.kind.SetOp? || p.kind.BlockStart?))
  }

  // Pieces next to each other at such a place that the input keeps apart meet at a
  // parenthesis, comma or semicolon; and so in every subquery formatted by itself.
  predicate Apart(toks: Tokens, uppercase: bool)
    decreases SizeList(toks)
  {
    var ps := Pieces(toks, Start(uppercase));
    && (forall j, k :: 0 <= j < k < |ps| && Seam(ps[j], ps[k]) && Adjoin(ps, j, k) && Parted(ps, j, k) ==>
          MeetAtDelimiter(ps[j], ps[k]))
    && (forall k :: 0 <= k < |ps| && ps[k].Embed? && ps[k].paren.Group?
                    && SizeList(Inner(ps[k].paren.kids)) < SizeList(toks) ==>
          Apart(Inner(ps[k].paren.kids), uppercase))
  }

  // ---------------------------------------------------------------------
  // Only at those places
  // ---------------------------------------------------------------------

  lemma {:induction false} FitAt(e: Ending, ps: seq<Piece>, k: nat)
    requires k < |ps| && AllFit(e, ps)
    ensures Fits(EndOf(e, ps[..k]), ps[k])
    decreases |ps|
  {
    hide Fits;
    if k > 0 {
      FitAt(EndAfter(e, ps[0]), ps[1..], k - 1);
      assert ps[..k][1..] == ps[1..][..k - 1];
    } else {
      assert ps[..0] == [];
    }
  }

  lemma {:induction false} EndStays(e: Ending, ps: seq<Piece>)
    requires forall m :: 0 <= m < |ps| ==> Neutral(ps[m])
    ensures EndOf(e, ps) == e
    decreases |ps|
  {
    if ps != [] {
      EndStays(e, ps[1..]);
    }
  }

  lemma EndAtInk(ps: seq<Piece>, j: nat, k: nat)
    requires j < k < |ps| && Adjoin(ps, j, k)
    ensures EndOf(Loose, ps[..k]) == After(ps[j])
  {
    hide EndOf, Neutral;
    var a, b := ps[..j + 1], ps[j + 1..k];
    assert ps[..k] == a + b && a == ps[..j] + [ps[j]];
    EndAppend(Loose, a, b);
    EndAppend(Loose, ps[..j], [ps[j]]);
    EndOne(EndOf(Loose, ps[..j]), ps[j]);
    EndStays(After(ps[j]), b);
  }

  lemma EndOne(e: Ending, p: Piece)
    requires IsInk(p)
    ensures EndOf(e, [p]) == After(p)
  {
    assert [p][1..] == [];
    assert EndOf(After(p), []) == After(p);
  }

  // Whatever runs together does so at one of the three places.
  lemma ClashAtSeam(ps: seq<Piece>, j: nat, k: nat)
    requires j < k < |ps| && AllFit(Loose, ps) && Clash(ps, j, k)
    ensures Seam(ps[j], ps[k])
  {
    hide AllFit, Parted;
    FitAt(Loose, ps, k);
    EndAtInk(ps, j, k);
  }

  // ---------------------------------------------------------------------
  // Reading the pieces
  // ---------------------------------------------------------------------

  // Whether the text of a piece shows the tokens it is written for.
  predicate Inside(p: Piece, uppercase: bool) {
    p.Embed? && p.paren.Group? ==> ShowsTokens(Inner(p.paren.kids), FormatTokens(Inner(p.paren.kids), uppercase))
  }

  // What the marks so far, the pending whitespace and the last character become.
  function Step(p: Probe, x: Piece, uppercase: bool): Probe {
    match x
    case Skip(toks) => Skipped(p, ValueList(toks))
    case Lay(blank) => if blank == "" then p else p.(loose := true)
    case _ =>
      var q := Write(p, ValueList(SourceOf(x)));
      q.(ok := q.ok && Inside(x, uppercase))
  }

  function Fold(ps: seq<Piece>, uppercase: bool): Probe {
    if ps == [] then BEGINNING else Step(Fold(ps[..|ps| - 1], uppercase), ps[|ps| - 1], uppercase)
  }

  // A state with this buffer and nothing pending.
  function Carrier(text: string): State {
    State(text, true, 0, 0, false, false, false, 0, [], "")
  }

  predicate Reading(text: string, p: Probe, ms: seq<Mark>) {
    Sim(Carrier(text), p, ms)
  }

  // The text of a piece for its source: the same characters, gaps only between tokens.
  predicate Tells(toks: Tokens, text: string, g: bool) {
    && Renders(MarksList(toks, g), text) && Reads(MarksList(toks, g), ValueList(toks), g)
    && Solid(text)
  }

  lemma LeafTells(leaf: Node, text: string, g: bool)
    requires leaf.Leaf? && WellFormed(leaf) && !IsBlankLeaf(leaf) && (text == leaf.value || text == Upper(leaf.value))
    ensures Tells([leaf], text, g)
  {
    hide Renders, Reads, Cells;
    SingleMarks(leaf, g);
    LeafRenders(leaf, g);
    UpperCells(leaf.value, true);
    UpperBlank(leaf.value);
    RendersCells(Marks(leaf, g), leaf.value, Upper(leaf.value));
  }

  lemma NodeTells(node: Node, text: string, g: bool)
    requires WellFormed(node) && !IsBlankLeaf(node) && Cells(text, true) == Cells(Value(node), true) && Solid(text)
    ensures Tells([node], text, g)
  {
    hide Renders, Reads, Cells, Marks, Solid;
    SingleMarks(node, g);
    NodeVisible(node);
    MarksRead(node, g);
    CopyRenders(Marks(node, g), Value(node), g, text);
  }

  lemma KeyTells(own: Tokens, uppercase: bool, g: bool)
    requires IsKeyRun(own) && AllWellFormed(own)
    ensures Tells(own, KeywordText(Merged(own), uppercase), g)
  {
    hide Renders, Reads, Cells, MarksList, ValueList, Solid, Normalize;
    var norm := Merged(own);
    MergedTells(own, g);
    KeywordTextCells(norm, uppercase);
    KeywordTextSolid(norm, uppercase);
    RendersCells(MarksList(own, g), norm, KeywordText(norm, uppercase));
    MarksListRead(own, g);
  }

  lemma MergedTells(own: Tokens, g: bool)
    requires IsKeyRun(own) && AllWellFormed(own)
    ensures Renders(MarksList(own, g), Merged(own)) && Solid(Merged(own))
  {
    hide Renders, Reads, Cells, MarksList, ValueList, Solid, Normalize, Marks, Trail;
    var head := own[0];
    assert WellFormed(head);
    LeafRenders(head, g);
    if |own| == 1 {
      assert own == [head];
      SingleMarks(head, g);
    } else {
      var next, blanks := own[|own| - 1], own[1..|own| - 1];
      assert WellFormed(next);
      assert own == [head] + (blanks + [next]);
      var g1 := Trail(ValueList([head]), g);
      var g2 := Trail(ValueList(blanks), g1);
      MarksListAppend([head], blanks + [next], g);
      MarksListAppend(blanks, [next], g1);
      BlankMarks(blanks, g1);
      SingleMarks(head, g);
      SingleMarks(next, g2);
      LeafRenders(next, g2);
      OneBlank();
      SpacedRenders(Marks(head, g), Normalize(head.value), Marks(next, g2), Normalize(next.value), " ");
      assert [] + Marks(next, g2) == Marks(next, g2);
      SpacedSolid(Normalize(head.value), Normalize(next.value));
    }
  }

  lemma SpacedSolid(a: string, b: string)
    requires Solid(a) && Solid(b)
    ensures Solid(a + " " + b)
  {
  }

  lemma InkTells(x: Piece, uppercase: bool, g: bool)
    requires IsInk(x) && !x.Embed? && PieceOk(x, uppercase)
    ensures Tells(SourceOf(x), TextOf(x), g)
  {
    hide Tells, Cells, Solid, CopyText, ParenText, Normalize, Value, Merged, Written.IsKeyRun;
    match x
    case Word(leaf) =>
      LeafValue(leaf);
      LeafTells(leaf, leaf.value, g);
    case Key(_, _, toks, text) => KeyTells(toks, uppercase, g);
    case CaseKey(leaf, text) => LeafTells(leaf, text, g);
    case FirstWhen(leaf, text) => LeafTells(leaf, text, g);
    case Copy(node, text) =>
      NodeVisible(node);
      CopyTextCells(node, uppercase);
      CopySolid(node, uppercase);
      NodeTells(node, text, g);
    case Parens(node, text) =>
      ParenTextCells(node, uppercase);
      ParenSolid(node, uppercase);
      NodeTells(node, text, g);
  }

  // ---------------------------------------------------------------------
  // One piece more
  // ---------------------------------------------------------------------

  predicate StepReads(text: string, p: Probe, ms: seq<Mark>, x: Piece, uppercase: bool) {
    var p' := Step(p, x, uppercase);
    && Reading(text + TextOf(x), p', ms + MarksList(SourceOf(x), p.gap))
    && p'.gap == Trail(ValueList(SourceOf(x)), p.gap)
  }

  lemma InkStep(text: string, p: Probe, ms: seq<Mark>, x: Piece, uppercase: bool)
    requires Reading(text, p, ms) && IsInk(x) && !x.Embed? && PieceOk(x, uppercase)
    ensures StepReads(text, p, ms, x, uppercase)
  {
    hide Sim, Renders, Reads, Solid, PieceOk, MarksList, ValueList, LastOf, Trail, Fuses;
    InkTells(x, uppercase, p.gap);
    SolidEnds(TextOf(x));
    EmitSim(Carrier(text), p, ms, MarksList(SourceOf(x), p.gap), ValueList(SourceOf(x)), TextOf(x));
    var q := Write(p, ValueList(SourceOf(x)));
    assert Step(p, x, uppercase) == q by { NoEmbed(x, q, uppercase); }
  }

  lemma NoEmbed(x: Piece, q: Probe, uppercase: bool)
    requires !x.Embed?
    ensures q.(ok := q.ok && Inside(x, uppercase)) == q
  {
    hide ShowsTokens, FormatTokens;
  }

  lemma SkipStep(text: string, p: Probe, ms: seq<Mark>, toks: Tokens, uppercase: bool)
    requires Reading(text, p, ms) && AllWellFormed(toks) && Blank(ValueList(toks))
    ensures StepReads(text, p, ms, Skip(toks), uppercase)
  {
    hide Sim, Blank, MarksList, ValueList, Cells;
    MarksListRead(toks, p.gap);
    BlankCells(ValueList(toks), p.gap);
    EmptyReads(MarksList(toks, p.gap), ValueList(toks), p.gap);
    assert ms + [] == ms && text + "" == text;
    GapIrrelevant(Carrier(text), p, Skipped(p, ValueList(toks)), ms);
  }

  lemma LayStep(text: string, p: Probe, ms: seq<Mark>, blank: string, uppercase: bool)
    requires Reading(text, p, ms) && Blank(blank)
    ensures StepReads(text, p, ms, Lay(blank), uppercase)
  {
    hide Sim, Blank;
    assert ms + [] == ms && text + "" == text;
    if blank != "" {
      BlankSim(Carrier(text), p, ms, blank);
    }
  }

  lemma EmbedStep(text: string, p: Probe, ms: seq<Mark>, x: Piece, uppercase: bool)
    requires Reading(text, p, ms) && x.Embed? && PieceOk(x, uppercase) && DroplessList(Inner(x.paren.kids), 0)
    ensures StepReads(text, p, ms, x, uppercase)
  {
    hide Sim, ShowsTokens, FormatTokens, Body, Marks, Cells, Canon, GapsFrom, SameText, MarksList, Trail, Value,
      DroplessList;
    var paren := x.paren;
    var inner := Inner(paren.kids);
    var formatted := FormatTokens(inner, uppercase);
    InnerWellFormed(paren);
    ShowsSameText(inner, uppercase);
    var ok := Inside(x, uppercase);
    ShowsMeans(inner, formatted);
    EmbedSim(Carrier(text), p, ms, paren, formatted, x.column, ok);
    EmbeddedText(Carrier(text), formatted, x.column);
    SingleMarks(paren, p.gap);
    var q := p.(ok := p.ok && ok, prev := ')', loose := false, space := true);
    EmbedProbe(p, paren);
    NothingPending(text, p, ms);
    Settle(EmitEmbedded(Carrier(text), formatted, x.column), q, Carrier(text + TextOf(x)), Step(p, x, uppercase),
      ms + Marks(paren, p.gap));
  }

  lemma NothingPending(text: string, p: Probe, ms: seq<Mark>)
    requires Reading(text, p, ms)
    ensures !p.space && !p.comma && p.origins == [] && p.clause == "" && p.depth == 0
  {
    hide Cells, GapsFrom, SameText;
  }

  lemma ShowsMeans(inner: Tokens, formatted: string)
    requires SameText(MarksList(inner, true), Cells(formatted, true))
    ensures ShowsTokens(inner, formatted) <==> GapsFrom(OUTSIDE, MarksList(inner, true), Cells(formatted, true))
  {
    hide MarksList, Cells;
  }

  // The same visible text, whatever became of the gaps.
  lemma ShowsSameText(inner: Tokens, uppercase: bool)
    requires AllWellFormed(inner) && DroplessList(inner, 0)
    ensures SameText(MarksList(inner, true), Cells(FormatTokens(inner, uppercase), true))
  {
    hide MarksList, Cells, FormatTokens, DroplessList, ProbeList;
    FormatSim(inner, uppercase);
  }

  lemma EmbedProbe(p: Probe, paren: Node)
    requires paren.Group? && paren.group.Parens? && WellFormed(paren)
    ensures
      var q := Write(p, ValueList([paren]));
      && q.ok == p.ok && q.prev == ')' && !q.loose && !q.space
      && q.comma == p.comma && q.origins == p.origins && q.clause == p.clause && q.depth == p.depth
      && q.gap == Trail(Value(paren), p.gap)
  {
    hide Cells, Canon;
    SingleMarks(paren, p.gap);
    InnerOfPaired(paren.kids);
    var v := Value(paren);
    assert v[0] == '(' && v[|v| - 1] == ')';
    Fusion.LastIsVisible(p.prev, v);
    Fusion.FirstIsVisible(v, p.gap);
  }

  lemma Settle(a: State, p: Probe, b: State, q: Probe, ms: seq<Mark>)
    requires Sim(a, p, ms) && a.text == b.text && (!b.hasContent ==> b.text == "")
    requires q.ok == p.ok && q.prev == p.prev && q.loose == p.loose && SameFlags(b, q)
    ensures Sim(b, q, ms)
  {
    hide Cells, GapsFrom, SameText;
  }

  // ---------------------------------------------------------------------
  // All pieces
  // ---------------------------------------------------------------------

  lemma OneMore(text: string, p: Probe, ms: seq<Mark>, x: Piece, uppercase: bool)
    requires Reading(text, p, ms) && PieceOk(x, uppercase)
    requires x.Skip? ==> Blank(ValueList(x.toks))
    requires x.Embed? && x.paren.Group? ==> DroplessList(Inner(x.paren.kids), 0)
    ensures StepReads(text, p, ms, x, uppercase)
  {
    hide Reading, StepReads, DroplessList;
    match x
    case Skip(toks) => SkipStep(text, p, ms, toks, uppercase);
    case Lay(blank) => LayStep(text, p, ms, blank, uppercase);
    case Embed(_, _, _) => EmbedStep(text, p, ms, x, uppercase);
    case _ => InkStep(text, p, ms, x, uppercase);
  }

  lemma SnocOut(ps: seq<Piece>)
    requires ps != []
    ensures
      var before, x := ps[..|ps| - 1], ps[|ps| - 1];
      Out(ps) == Out(before) + TextOf(x) && Sources(ps) == Sources(before) + SourceOf(x)
  {
    hide Out, Sources;
    var before, x := ps[..|ps| - 1], ps[|ps| - 1];
    assert ps == before + [x];
    OutAppend(before, [x]);
    SourcesAppend(before, [x]);
    OutOf([x], []);
    SourceOne(x);
  }

  lemma SourceOne(x: Piece)
    ensures Sources([x]) == SourceOf(x)
  {
    assert [x][1..] == [] && SourceOf(x) + [] == SourceOf(x);
  }

  // Reading the pieces from the start of a statement.
  lemma {:induction false} FoldReads(ps: seq<Piece>, uppercase: bool)
    requires AllOk(ps, uppercase) && SkipsBlank(ps)
    ensures Reading(Out(ps), Fold(ps, uppercase), MarksList(Sources(ps), true))
    ensures Fold(ps, uppercase).gap == Trail(ValueList(Sources(ps)), true)
  {
    hide Reading, PieceOk, MarksList, ValueList, Trail, Out, Sources, Blank, DroplessList, Step;
    if ps == [] {
      NothingRead();
    } else {
      var before, x := ps[..|ps| - 1], ps[|ps| - 1];
      SnocOut(ps);
      FoldReads(before, uppercase);
      var p := Fold(before, uppercase);
      var ms := MarksList(Sources(before), true);
      OneMore(Out(before), p, ms, x, uppercase);
      MarksListAppend(Sources(before), SourceOf(x), true);
      ValueListAppend(Sources(before), SourceOf(x));
      TrailAppend(ValueList(Sources(before)), ValueList(SourceOf(x)), true);
    }
  }

  lemma NothingRead()
    ensures Out([]) == "" && Sources([]) == [] && Reading("", BEGINNING, MarksList([], true))
    ensures Trail(ValueList([]), true)
  {
  }

  lemma {:induction false} MarksOfLeaves(toks: Tokens, g: bool)
    ensures MarksList(LeavesOf(toks), g) == MarksList(toks, g) && ValueList(LeavesOf(toks)) == ValueList(toks)
    decreases SizeList(toks), 2
  {
    hide Trail;
    if toks != [] {
      MarksOfNode(toks[0], g);
      MarksOfLeaves(toks[1..], Trail(Value(toks[0]), g));
      MarksListAppend(Leaves(toks[0]), LeavesOf(toks[1..]), g);
      ValueListAppend(Leaves(toks[0]), LeavesOf(toks[1..]));
    }
  }

  lemma {:induction false} MarksOfNode(node: Node, g: bool)
    ensures MarksList(Leaves(node), g) == Marks(node, g) && ValueList(Leaves(node)) == Value(node)
    decreases Size(node), 1
  {
    match node
    case Leaf(_, _) => SingleMarks(node, g);
    case Group(_, kids) => MarksOfLeaves(kids, g);
  }

  // The statement shows its tokens exactly if reading its pieces goes well.
  lemma ShowsByPieces(toks: Tokens, uppercase: bool)
    requires AllWellFormed(toks) && DroplessList(toks, 0)
    ensures ShowsTokens(toks, FormatTokens(toks, uppercase)) <==> Fold(Pieces(toks, Start(uppercase)), uppercase).ok
  {
    hide Pieces, MarksList, LeavesOf, Cells, GapsFrom, SameText, RenderList, PostProcess.Clean, DroplessList, Fold,
      AllFit, AllPlaced;
    StatementWrites(toks, uppercase);
    var ps := Pieces(toks, Start(uppercase));
    FoldReads(ps, uppercase);
    MarksOfLeaves(toks, true);
    MarksOfLeaves(Sources(ps), true);
    PostProcess.CleanKeepsCells(Out(ps));
    var text := FormatTokens(toks, uppercase);
    assert Cells(text, true) == Cells(Out(ps), true);
    assert MarksList(Sources(ps), true) == MarksList(toks, true);
    ReadingMeans(Out(ps), Fold(ps, uppercase), MarksList(toks, true));
  }

  lemma ReadingMeans(text: string, p: Probe, ms: seq<Mark>)
    requires Reading(text, p, ms)
    ensures SameText(ms, Cells(text, true)) && (GapsFrom(OUTSIDE, ms, Cells(text, true)) <==> p.ok)
  {
    hide Cells, GapsFrom, SameText;
  }

  // ---------------------------------------------------------------------
  // When reading goes well
  // ---------------------------------------------------------------------

  // The last piece of ink among the first n pieces, if nothing was laid since.
  predicate Exposed(ps: seq<Piece>, n: nat, j: nat)
    requires n <= |ps|
  {
    j < n && IsInk(ps[j]) && forall m :: j < m < n ==> Neutral(ps[m])
  }

  // Whitespace in the input since piece j.
  predicate PartedUpTo(ps: seq<Piece>, j: nat, n: nat)
    requires j < n <= |ps|
  {
    Trail(ValueList(SourceOf(ps[j])), false) || exists m :: j < m < n && ps[m].Skip? && ValueList(ps[m].toks) != ""
  }

  predicate Shows(ps: seq<Piece>, n: nat, j: nat, p: Probe)
    requires n <= |ps|
  {
    Exposed(ps, n, j) && TextOf(ps[j]) != "" && p.prev == Up(LastChar(ps[j])) && (p.gap <==> PartedUpTo(ps, j, n))
  }

  // What reading the first n pieces leaves behind.
  predicate Behind(ps: seq<Piece>, n: nat, p: Probe)
    requires n <= |ps|
  {
    && (p.loose ==> forall j :: 0 <= j < n ==> !Exposed(ps, n, j))
    && (!p.loose ==> exists j :: 0 <= j < n && Shows(ps, n, j, p))
  }

  lemma UniqueExposed(ps: seq<Piece>, n: nat, i: nat, j: nat)
    requires n <= |ps| && Exposed(ps, n, i) && Exposed(ps, n, j)
    ensures i == j
  {
  }

  predicate Sound(ps: seq<Piece>, n: nat, uppercase: bool)
    requires n <= |ps|
  {
    && (forall j, k :: 0 <= j < k < n ==> !Clash(ps, j, k))
    && (forall k :: 0 <= k < n ==> Inside(ps[k], uppercase))
  }

  // The first and last visible characters of a piece, in its source and in its text.
  lemma InkEnds(x: Piece, uppercase: bool, p: Probe)
    requires IsInk(x) && PieceOk(x, uppercase)
    ensures
      var v := ValueList(SourceOf(x));
      && TextOf(x) != "" && Cells(v, p.gap) != []
      && Cells(v, p.gap)[0] == Cell(Up(FirstChar(x)), p.gap || Leads(v))
      && LastOf(p.prev, v) == Up(LastChar(x))
  {
    hide Renders, Reads, Canon, Solid, PieceOk, MarksList, ValueList, Cells;
    var v := ValueList(SourceOf(x));
    if x.Embed? {
      EmbedEnds(x, uppercase, p);
    } else {
      InkTells(x, uppercase, p.gap);
      TellsEnds(SourceOf(x), TextOf(x), p);
    }
  }

  lemma EmbedEnds(x: Piece, uppercase: bool, p: Probe)
    requires x.Embed? && PieceOk(x, uppercase)
    ensures
      var v := ValueList(SourceOf(x));
      && TextOf(x) != "" && Cells(v, p.gap) != []
      && Cells(v, p.gap)[0] == Cell(Up(FirstChar(x)), p.gap || Leads(v))
      && LastOf(p.prev, v) == Up(LastChar(x))
  {
    hide Cells, Canon, Body, FormatTokens;
    SingleMarks(x.paren, p.gap);
    InnerOfPaired(x.paren.kids);
    var v := Value(x.paren);
    assert v[0] == '(' && v[|v| - 1] == ')' && !IsSpace('(');
    Fusion.LastIsVisible(p.prev, v);
    Fusion.FirstIsVisible(v, p.gap);
  }

  lemma TellsEnds(toks: Tokens, text: string, p: Probe)
    requires Tells(toks, text, p.gap)
    ensures
      var v := ValueList(toks);
      && text != "" && Cells(v, p.gap) != []
      && Cells(v, p.gap)[0] == Cell(Up(text[0]), p.gap || Leads(v))
      && LastOf(p.prev, v) == Up(text[|text| - 1])
  {
    hide MarksList, ValueList, Canon, GapOk;
    var v, ms := ValueList(toks), MarksList(toks, p.gap);
    ReadsLast(ms, v, p.gap, p.prev);
    CellsGap(v, p.gap);
    Fusion.FirstIsVisible(text, true);
    TextLast(text);
    assert v != "" by { NotEmpty(v, p.gap); }
  }

  lemma NotEmpty(v: string, g: bool)
    ensures v == "" ==> Cells(v, g) == []
  {
  }

  // The last cell of a text that ends visibly.
  lemma TextLast(text: string)
    requires Solid(text)
    ensures Cells(text, true) != [] && Cells(text, true)[|Cells(text, true)| - 1].ch == Up(text[|text| - 1])
  {
    hide Canon;
    var a, c := text[..|text| - 1], text[|text| - 1];
    assert text == a + [c];
    CellsAppend(a, [c], true);
    assert [c][1..] == "";
    assert Cells([c], Trail(a, true)) == [Cell(Up(c), Trail(a, true))];
  }

  lemma QuietStep(ps: seq<Piece>, n: nat, p: Probe, uppercase: bool)
    requires 0 < n <= |ps| && !IsInk(ps[n - 1]) && Behind(ps, n - 1, p)
    requires ps[n - 1].Skip? ==> Blank(ValueList(ps[n - 1].toks))
    ensures
      var q := Step(p, ps[n - 1], uppercase);
      Behind(ps, n, q) && q.ok == p.ok && (Sound(ps, n, uppercase) <==> Sound(ps, n - 1, uppercase))
  {
    hide Clash, Blank, ValueList, Inside;
    var m := n - 1;
    var x := ps[m];
    var q := Step(p, x, uppercase);
    forall j | 0 <= j < m ensures Exposed(ps, n, j) <==> Exposed(ps, m, j) && Neutral(x) {
    }
    if x.Skip? {
      TrailOfBlank(ValueList(x.toks), p.gap);
      if j :| 0 <= j < m && Shows(ps, m, j, p) {
        PartedMore(ps, j, n);
        assert Shows(ps, n, j, q);
      }
    } else if x.blank == "" {
      if j :| 0 <= j < m && Shows(ps, m, j, p) {
        PartedMore(ps, j, n);
        assert Shows(ps, n, j, q);
      }
    }
    forall j | 0 <= j < m ensures !Clash(ps, j, m) {
      NoInkNoClash(ps, j, m);
    }
    assert Inside(x, uppercase) by { InkOnly(x, uppercase); }
  }

  lemma TrailOfBlank(v: string, g: bool)
    requires Blank(v)
    ensures Trail(v, g) <==> g || v != ""
  {
  }

  lemma PartedMore(ps: seq<Piece>, j: nat, n: nat)
    requires j < n - 1 < |ps|
    ensures PartedUpTo(ps, j, n) <==>
      PartedUpTo(ps, j, n - 1) || (ps[n - 1].Skip? && ValueList(ps[n - 1].toks) != "")
  {
    hide ValueList, Trail;
  }

  lemma NoInkNoClash(ps: seq<Piece>, j: nat, k: nat)
    requires j < k < |ps| && !IsInk(ps[k])
    ensures !Clash(ps, j, k)
  {
    hide Parted;
  }

  lemma InkOnly(x: Piece, uppercase: bool)
    requires !x.Embed?
    ensures Inside(x, uppercase)
  {
    hide ShowsTokens, FormatTokens;
  }

  lemma DelimCase(c: char)
    ensures IsDelim(Up(c)) <==> IsDelim(c)
  {
  }

  // Writing the piece fuses tokens exactly if it clashes with the exposed one.
  lemma ClashIsFusion(ps: seq<Piece>, j: nat, n: nat, p: Probe, uppercase: bool)
    requires j < n < |ps| && IsInk(ps[n]) && PieceOk(ps[n], uppercase) && Shows(ps, n, j, p)
    ensures Fuses(p, ValueList(SourceOf(ps[n]))) <==> Clash(ps, j, n)
  {
    hide Cells, Canon, PieceOk, ValueList, Trail, Neutral;
    InkEnds(ps[n], uppercase, p);
    DelimCase(FirstChar(ps[n]));
    DelimCase(LastChar(ps[j]));
    assert Adjoin(ps, j, n);
    assert Parted(ps, j, n) <==> PartedUpTo(ps, j, n) || Leads(ValueList(SourceOf(ps[n])));
  }

  lemma InkAt(ps: seq<Piece>, n: nat, p: Probe, uppercase: bool)
    requires n < |ps| && IsInk(ps[n]) && PieceOk(ps[n], uppercase) && Behind(ps, n, p)
    ensures
      var q := Step(p, ps[n], uppercase);
      && Behind(ps, n + 1, q)
      && ((p.ok <==> Sound(ps, n, uppercase)) ==> (q.ok <==> Sound(ps, n + 1, uppercase)))
  {
    hide Clash, Cells, Canon, PieceOk, ValueList, Inside, Fuses, LastOf, Neutral;
    var x := ps[n];
    var v, q := ValueList(SourceOf(x)), Step(p, x, uppercase);
    InkEnds(x, uppercase, p);
    NotEmpty(v, p.gap);
    assert Exposed(ps, n + 1, n);
    assert PartedUpTo(ps, n, n + 1) <==> Trail(v, false);
    assert Shows(ps, n + 1, n, q);
    if p.loose {
      forall j | 0 <= j < n ensures !Clash(ps, j, n) {
        NotExposed(ps, j, n);
      }
    } else {
      var i :| 0 <= i < n && Shows(ps, n, i, p);
      ClashIsFusion(ps, i, n, p, uppercase);
      forall j | 0 <= j < n && j != i ensures !Clash(ps, j, n) {
        if Exposed(ps, n, j) {
          UniqueExposed(ps, n, i, j);
        } else {
          NotExposed(ps, j, n);
        }
      }
    }
  }

  lemma NotExposed(ps: seq<Piece>, j: nat, n: nat)
    requires j < n < |ps| && !Exposed(ps, n, j)
    ensures !Clash(ps, j, n)
  {
    hide Parted;
  }

  lemma {:induction false} FoldSound(ps: seq<Piece>, n: nat, uppercase: bool)
    requires n <= |ps| && AllOk(ps, uppercase) && SkipsBlank(ps)
    ensures Behind(ps, n, Fold(ps[..n], uppercase))
    ensures Fold(ps[..n], uppercase).ok <==> Sound(ps, n, uppercase)
  {
    hide Behind, Sound, PieceOk, Step, ValueList, Blank, DroplessList;
    if n == 0 {
      NothingBehind(ps, uppercase);
    } else {
      FoldSound(ps, n - 1, uppercase);
      assert ps[..n][..n - 1] == ps[..n - 1];
      var p := Fold(ps[..n - 1], uppercase);
      assert Fold(ps[..n], uppercase) == Step(p, ps[n - 1], uppercase);
      if IsInk(ps[n - 1]) {
        InkAt(ps, n - 1, p, uppercase);
      } else {
        QuietStep(ps, n, p, uppercase);
      }
    }
  }

  lemma NothingBehind(ps: seq<Piece>, uppercase: bool)
    ensures Fold(ps[..0], uppercase) == BEGINNING && Behind(ps, 0, BEGINNING) && Sound(ps, 0, uppercase)
  {
    assert ps[..0] == [];
  }

  // ---------------------------------------------------------------------
  // The condition
  // ---------------------------------------------------------------------

  // A statement that drops nothing shows exactly its tokens if and only if at the three
  // places where whitespace is left out every two neighbours that the input keeps apart
  // meet at a parenthesis, comma or semicolon.
  lemma {:induction false} TokensStayApart(toks: Tokens, uppercase: bool)
    requires AllWellFormed(toks) && DroplessList(toks, 0)
    ensures ShowsTokens(toks, FormatTokens(toks, uppercase)) <==> Apart(toks, uppercase)
    decreases SizeList(toks)
  {
    hide ShowsTokens, FormatTokens, AllFit, AllPlaced, Fold, Sound, DroplessList, PieceOk, Pieces, RenderList,
      LeavesOf, Sources, Out;
    StatementWrites(toks, uppercase);
    ShowsByPieces(toks, uppercase);
    var ps := Pieces(toks, Start(uppercase));
    FoldSound(ps, |ps|, uppercase);
    assert ps[..|ps|] == ps;
    forall k | 0 <= k < |ps| && ps[k].Embed? && ps[k].paren.Group?
      ensures SizeList(Inner(ps[k].paren.kids)) < SizeList(toks)
      ensures Inside(ps[k], uppercase) <==> Apart(Inner(ps[k].paren.kids), uppercase)
    {
      EmbedInner(ps, k, uppercase);
      TokensStayApart(Inner(ps[k].paren.kids), uppercase);
    }
    SoundIsApart(toks, ps, uppercase);
  }

  lemma EmbedInner(ps: seq<Piece>, k: nat, uppercase: bool)
    requires k < |ps| && ps[k].Embed? && AllOk(ps, uppercase)
    ensures ps[k].paren.Group? && AllWellFormed(Inner(ps[k].paren.kids))
  {
    hide FormatTokens, Body;
    assert PieceOk(ps[k], uppercase);
    InnerWellFormed(ps[k].paren);
  }

  lemma SoundIsApart(toks: Tokens, ps: seq<Piece>, uppercase: bool)
    requires ps == Pieces(toks, Start(uppercase)) && AllFit(Loose, ps)
    requires forall k :: 0 <= k < |ps| && ps[k].Embed? && ps[k].paren.Group? ==>
      && SizeList(Inner(ps[k].paren.kids)) < SizeList(toks)
      && (Inside(ps[k], uppercase) <==> Apart(Inner(ps[k].paren.kids), uppercase))
    ensures Sound(ps, |ps|, uppercase) <==> Apart(toks, uppercase)
  {
    hide Pieces, AllFit, Adjoin, Parted, MeetAtDelimiter, ShowsTokens, FormatTokens, Inner;
    forall j, k | 0 <= j < k < |ps|
      ensures Clash(ps, j, k) <==>
        Seam(ps[j], ps[k]) && Adjoin(ps, j, k) && Parted(ps, j, k) && !MeetAtDelimiter(ps[j], ps[k])
    {
      if Clash(ps, j, k) {
        ClashAtSeam(ps, j, k);
      }
    }
  }
}
