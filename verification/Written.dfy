// The pieces are what the renderer writes: their texts are the output, their sources the
// input, and every piece stands where its kind allows.
module Written {
  import opened Text
  import opened SqlTree
  import opened Rendering
  import opened Preservation
  import opened Probe
  import opened Transcript

  // ---------------------------------------------------------------------
  // What each piece is
  // ---------------------------------------------------------------------

  // The tokens of a keyword, merged.
  function Merged(own: Tokens): string
    requires own != [] && IsKeyword(own[0]) && IsKeyword(own[|own| - 1])
  {
    if |own| == 1 then Normalize(own[0].value)
    else Normalize(own[0].value) + " " + Normalize(own[|own| - 1].value)
  }

  predicate IsKeyRun(own: Tokens) {
    && own != [] && IsKeyword(own[0]) && IsKeyword(own[|own| - 1])
    && forall k :: 0 < k < |own| - 1 ==> IsBlankLeaf(own[k])
  }

  // A keyword of a CASE expression or of an operand: in capitals, or as it is.
  function InCase(leaf: Node, uppercase: bool): string
    requires leaf.Leaf?
  {
    if uppercase then Upper(leaf.value) else leaf.value
  }

  // How a keyword of a list is handled: as its text says, but for an AND or OR inside
  // the bounds of a BETWEEN and the END of a block.
  predicate KindFits(kind: KeywordKind, norm: string) {
    || kind == Classify(norm)
    || (norm in {"AND", "OR"} && kind.Other?)
    || (norm == "END" && kind.BlockEnd?)
  }

  predicate PieceOk(p: Piece, uppercase: bool) {
    match p
    case Skip(toks) => AllWellFormed(toks)
    case Lay(blank) => Blank(blank)
    case Word(leaf) => leaf.Leaf? && WellFormed(leaf) && !IsBlankLeaf(leaf) && !IsKeyword(leaf)
    case Key(kind, _, toks, text) =>
      && AllWellFormed(toks) && IsKeyRun(toks)
      && text == KeywordText(Merged(toks), uppercase) && KindFits(kind, Merged(toks))
    case CaseKey(leaf, text) => IsKeyword(leaf) && WellFormed(leaf) && text == InCase(leaf, uppercase)
    case FirstWhen(leaf, text) => IsKeyword(leaf) && WellFormed(leaf) && text == InCase(leaf, uppercase)
    case Copy(node, text) => WellFormed(node) && !IsBlankLeaf(node) && text == CopyText(node, uppercase)
    case Parens(node, text) =>
      && node.Group? && node.group.Parens? && WellFormed(node)
      && text == if HasSelect(node.kids, 5) then Value(node) else ParenText(node, uppercase)
    case Embed(paren, column, text) =>
      && paren.Group? && paren.group.Parens? && WellFormed(paren)
      && text == EmbedText(paren, uppercase, column)
  }

  predicate AllOk(ps: seq<Piece>, uppercase: bool) {
    forall k :: 0 <= k < |ps| ==> PieceOk(ps[k], uppercase)
  }

  // Every subquery formatted by itself is a smaller statement.
  predicate Smaller(ps: seq<Piece>, n: nat) {
    forall k :: 0 <= k < |ps| && ps[k].Embed? ==> ps[k].paren.Group? && SizeList(Inner(ps[k].paren.kids)) < n
  }

  // Nothing but whitespace is skipped, also in the subqueries formatted by themselves.
  predicate SkipsBlank(ps: seq<Piece>) {
    forall k :: 0 <= k < |ps| ==>
      && (ps[k].Skip? ==> Blank(ValueList(ps[k].toks)))
      && (ps[k].Embed? && ps[k].paren.Group? ==> DroplessList(Inner(ps[k].paren.kids), 0))
  }

  // ---------------------------------------------------------------------
  // Keywords at the start of a line
  // ---------------------------------------------------------------------

  // A clause, JOIN, AND/OR or ON keyword stands on a line of its own, its first word
  // ending in the column its block level gives; before is the text before the pieces.
  predicate Placed(before: string, ps: seq<Piece>, k: nat)
    requires k < |ps|
  {
    ps[k].Key? && OpensColumn(ps[k].kind) ==>
      && k > 0 && ps[k - 1].Lay? && ps[k].block >= 0
      && var lead := KeyIndent(ps[k].block) + Padding(ps[k].text);
         || ps[k - 1].blank == "\n" + lead
         || (ps[k - 1].blank == lead && before + Out(ps[..k - 1]) == "")
  }

  predicate AllPlaced(before: string, ps: seq<Piece>) {
    forall k :: 0 <= k < |ps| ==> Placed(before, ps, k)
  }

  lemma PlacedAppend(before: string, a: seq<Piece>, b: seq<Piece>)
    requires AllPlaced(before, a) && AllPlaced(before + Out(a), b)
    ensures AllPlaced(before, a + b)
  {
    hide Out, KeyIndent, Padding, OpensColumn;
    forall k | 0 <= k < |a + b| ensures Placed(before, a + b, k) {
      if k < |a| {
        assert Placed(before, a, k);
        assert k > 0 ==> (a + b)[..k - 1] == a[..k - 1];
      } else {
        var j := k - |a|;
        assert (a + b)[k] == b[j];
        assert Placed(before + Out(a), b, j);
        if j > 0 {
          assert (a + b)[..k - 1] == a + b[..j - 1];
          OutAppend(a, b[..j - 1]);
          assert before + Out(a) + Out(b[..j - 1]) == before + (Out(a) + Out(b[..j - 1]));
        }
      }
    }
  }

  // ---------------------------------------------------------------------
  // What stands right before a piece
  // ---------------------------------------------------------------------

  // Nothing or whitespace, or the piece that was written last.
  datatype Ending = Loose | After(piece: Piece)

  function EndAfter(e: Ending, p: Piece): Ending {
    match p
    case Skip(_) => e
    case Lay(blank) => if blank == "" then e else Loose
    case _ => After(p)
  }

  function EndOf(e: Ending, ps: seq<Piece>): Ending
    decreases |ps|
  {
    if ps == [] then e else EndOf(EndAfter(e, ps[0]), ps[1..])
  }

  lemma {:induction false} EndAppend(e: Ending, a: seq<Piece>, b: seq<Piece>)
    ensures EndOf(e, a + b) == EndOf(EndOf(e, a), b)
    decreases |a|
  {
    if a == [] {
      assert a + b == b;
    } else {
      assert (a + b)[1..] == a[1..] + b;
      EndAppend(EndAfter(e, a[0]), a[1..], b);
    }
  }

  function LastChar(p: Piece): char
    requires TextOf(p) != ""
  {
    TextOf(p)[|TextOf(p)| - 1]
  }

  function FirstChar(p: Piece): char
    requires TextOf(p) != ""
  {
    TextOf(p)[0]
  }

  predicate OpensTight(p: Piece) {
    p.FirstWhen? || (TextOf(p) != "" && IsDelim(FirstChar(p)))
  }

  predicate ClosesTight(p: Piece) {
    (p.Key? && (p.kind.SetOp? || p.kind.BlockStart?)) || (TextOf(p) != "" && IsDelim(LastChar(p)))
  }

  // A piece is written without whitespace before it only as the first WHEN, behind a set
  // operator or BEGIN, or next to a delimiter.
  predicate Fits(e: Ending, p: Piece) {
    IsInk(p) ==> e.Loose? || OpensTight(p) || ClosesTight(e.piece)
  }

  predicate AllFit(e: Ending, ps: seq<Piece>)
    decreases |ps|
  {
    ps == [] || (Fits(e, ps[0]) && AllFit(EndAfter(e, ps[0]), ps[1..]))
  }

  lemma {:induction false} FitAppend(e: Ending, a: seq<Piece>, b: seq<Piece>)
    requires AllFit(e, a) && AllFit(EndOf(e, a), b)
    ensures AllFit(e, a + b)
    decreases |a|
  {
    hide Fits;
    if a == [] {
      assert a + b == b;
    } else {
      assert (a + b)[1..] == a[1..] + b;
      FitAppend(EndAfter(e, a[0]), a[1..], b);
    }
  }

  // The ending of the buffer, seen from the state.
  predicate Ends(st: State, e: Ending) {
    && (st.text == "" ==> e.Loose?)
    && (st.space || e.Loose? || ClosesTight(e.piece))
  }

  // ---------------------------------------------------------------------
  // A stretch of rendering
  // ---------------------------------------------------------------------

  // From st to st' the renderer writes ps for the tokens toks; e is how the buffer ends.
  predicate Writes(st: State, e: Ending, st': State, ps: seq<Piece>, toks: Tokens) {
    && st'.text == st.text + Out(ps) && st'.uppercase == st.uppercase
    && LeavesOf(Sources(ps)) == LeavesOf(toks)
    && AllOk(ps, st.uppercase) && Smaller(ps, SizeList(toks))
    && AllPlaced(st.text, ps)
    && AllFit(e, ps) && Ends(st', EndOf(e, ps))
  }

  lemma SizeAppend(a: Tokens, b: Tokens)
    ensures SizeList(a + b) == SizeList(a) + SizeList(b)
  {
    if a == [] {
      assert a + b == b;
    } else {
      assert (a + b)[1..] == a[1..] + b;
      SizeAppend(a[1..], b);
    }
  }

  lemma WritesThen(st: State, e: Ending, st1: State, p1: seq<Piece>, a: Tokens, st2: State, p2: seq<Piece>, b: Tokens)
    requires Writes(st, e, st1, p1, a) && Writes(st1, EndOf(e, p1), st2, p2, b)
    ensures Writes(st, e, st2, p1 + p2, a + b)
    ensures SkipsBlank(p1) && SkipsBlank(p2) ==> SkipsBlank(p1 + p2)
  {
    hide Out, Sources, LeavesOf, PieceOk, AllPlaced, AllFit, EndOf, SizeList, Ends;
    OutAppend(p1, p2);
    assert st.text + Out(p1) + Out(p2) == st.text + (Out(p1) + Out(p2));
    SourcesAppend(p1, p2);
    LeavesAppend(Sources(p1), Sources(p2));
    LeavesAppend(a, b);
    SizeAppend(a, b);
    PlacedAppend(st.text, p1, p2);
    FitAppend(e, p1, p2);
    EndAppend(e, p1, p2);
  }

  lemma WritesNothing(st: State, e: Ending)
    requires Ends(st, e)
    ensures Writes(st, e, st, [], [])
    ensures SkipsBlank([])
  {
    assert st.text + "" == st.text;
  }

  // One piece of the layout.
  lemma LayWrites(st: State, e: Ending, st': State, blank: string)
    requires st'.text == st.text + blank && st'.uppercase == st.uppercase && Blank(blank) && blank != ""
    ensures Writes(st, e, st', [Lay(blank)], [])
    ensures SkipsBlank([Lay(blank)])
  {
    var ps := [Lay(blank)];
    assert ps[1..] == [];
    assert Out(ps) == blank + "" && blank + "" == blank;
    assert Sources(ps) == [] + [];
  }

  // One piece of ink that opens no column.
  lemma InkWrites(st: State, e: Ending, st': State, p: Piece)
    requires IsInk(p) && PieceOk(p, st.uppercase) && Fits(e, p) && !(p.Key? && OpensColumn(p.kind))
    requires st'.text == st.text + TextOf(p) && st'.uppercase == st.uppercase
    requires st'.text != "" && (st'.space || ClosesTight(p))
    requires p.Embed? ==> SizeList(Inner(p.paren.kids)) < SizeList(SourceOf(p))
    ensures Writes(st, e, st', [p], SourceOf(p))
    ensures (p.Embed? ==> DroplessList(Inner(p.paren.kids), 0)) ==> SkipsBlank([p])
  {
    hide PieceOk, Fits, ClosesTight, OpensColumn;
    var ps := [p];
    EmbedGroup(p, st.uppercase);
    assert ps[1..] == [] && ps[0] == p;
    assert EndOf(After(p), []) == After(p);
    assert Out(ps) == TextOf(p) + "" && TextOf(p) + "" == TextOf(p);
    assert Sources(ps) == SourceOf(p) + [] && SourceOf(p) + [] == SourceOf(p);
    assert EndAfter(e, p) == After(p) && EndOf(e, ps) == After(p);
    assert AllFit(e, ps);
  }

  lemma EmbedGroup(p: Piece, uppercase: bool)
    requires PieceOk(p, uppercase)
    ensures p.Embed? ==> p.paren.Group?
  {
  }

  lemma SkipWrites(st: State, e: Ending, toks: Tokens)
    requires Ends(st, e) && AllWellFormed(toks)
    ensures Writes(st, e, st, [Skip(toks)], toks)
    ensures SkipsBlank([Skip(toks)]) <==> Blank(ValueList(toks))
  {
    hide Ends;
    var ps := [Skip(toks)];
    assert ps[1..] == [] && ps[0] == Skip(toks);
    assert EndOf(e, []) == e && EndOf(e, ps) == e;
    assert Out(ps) == "" + "" && st.text + "" == st.text;
    assert Sources(ps) == toks + [] && toks + [] == toks;
    assert ps[0].Skip? && ps[0].toks == toks;
    assert AllFit(EndAfter(e, ps[0]), ps[1..]);
    assert AllFit(e, ps);
    assert AllOk(ps, st.uppercase);
    assert AllPlaced(st.text, ps);
    assert LeavesOf(Sources(ps)) == LeavesOf(toks);
  }

  // The same stretch, for tokens with the same leaves and at least the same size.
  lemma WritesFor(st: State, e: Ending, st': State, ps: seq<Piece>, a: Tokens, b: Tokens)
    requires Writes(st, e, st', ps, a) && LeavesOf(a) == LeavesOf(b) && SizeList(a) <= SizeList(b)
    ensures Writes(st, e, st', ps, b)
  {
    hide Out, Sources, LeavesOf, PieceOk, AllPlaced, AllFit, EndOf, SizeList, Ends;
  }

  lemma WholeWrites(st: State, e: Ending, st': State, ps: seq<Piece>, node: Node)
    requires node.Group? && Writes(st, e, st', ps, node.kids)
    ensures Writes(st, e, st', ps, [node])
  {
    LeavesOne(node);
    assert [node][1..] == [];
    assert SizeList([node]) == Size(node) + 0;
    WritesFor(st, e, st', ps, node.kids, [node]);
  }
}
