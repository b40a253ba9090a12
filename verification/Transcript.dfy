// The formatted text piece by piece: what the renderer writes, from which tokens, and
// what stands right before each piece.
module Transcript {
  import opened Text
  import opened SqlTree
  import opened Rendering
  import opened Separation
  import opened Layout

  // ---------------------------------------------------------------------
  // Pieces
  // ---------------------------------------------------------------------

  datatype Piece =
    | Skip(toks: Tokens)                     // tokens that produce nothing
    | Lay(blank: string)                     // whitespace of the layout
    | Word(leaf: Node)                       // a leaf that is no keyword, as it is
    | Key(kind: KeywordKind, block: int, toks: Tokens, text: string)  // a keyword of a list
    | CaseKey(leaf: Node, text: string)      // a keyword of a CASE expression or operand
    | FirstWhen(leaf: Node, text: string)
    | Copy(node: Node, text: string)         // copied with its whitespace squeezed
    | Parens(node: Node, text: string)       // copied as it stands
    | Embed(paren: Node, column: nat, text: string)  // a subquery formatted by itself

  const OPEN := Leaf(Punctuation, "(")
  const CLOSE := Leaf(Punctuation, ")")

  function TextOf(p: Piece): string {
    match p
    case Skip(_) => ""
    case Lay(blank) => blank
    case Word(leaf) => Value(leaf)
    case Key(_, _, _, text) => text
    case CaseKey(_, text) => text
    case FirstWhen(_, text) => text
    case Copy(_, text) => text
    case Parens(_, text) => text
    case Embed(_, _, text) => text
  }

  function SourceOf(p: Piece): Tokens {
    match p
    case Skip(toks) => toks
    case Lay(_) => []
    case Word(leaf) => [leaf]
    case Key(_, _, toks, _) => toks
    case CaseKey(leaf, _) => [leaf]
    case FirstWhen(leaf, _) => [leaf]
    case Copy(node, _) => [node]
    case Parens(node, _) => [node]
    case Embed(paren, _, _) => [paren]
  }

  predicate IsInk(p: Piece) {
    !p.Skip? && !p.Lay?
  }

  // What is written, and what it is written for.
  function Out(ps: seq<Piece>): string {
    if ps == [] then "" else TextOf(ps[0]) + Out(ps[1..])
  }

  function Sources(ps: seq<Piece>): Tokens {
    if ps == [] then [] else SourceOf(ps[0]) + Sources(ps[1..])
  }

  lemma {:induction false} OutAppend(a: seq<Piece>, b: seq<Piece>)
    ensures Out(a + b) == Out(a) + Out(b)
  {
    if a == [] {
      assert a + b == b;
    } else {
      hide TextOf;
      assert (a + b)[1..] == a[1..] + b && (a + b)[0] == a[0];
      OutAppend(a[1..], b);
      assert TextOf(a[0]) + (Out(a[1..]) + Out(b)) == TextOf(a[0]) + Out(a[1..]) + Out(b);
    }
  }

  lemma {:induction false} SourcesAppend(a: seq<Piece>, b: seq<Piece>)
    ensures Sources(a + b) == Sources(a) + Sources(b)
  {
    if a == [] {
      assert a + b == b;
    } else {
      hide SourceOf;
      assert (a + b)[1..] == a[1..] + b && (a + b)[0] == a[0];
      SourcesAppend(a[1..], b);
      assert SourceOf(a[0]) + (Sources(a[1..]) + Sources(b)) == SourceOf(a[0]) + Sources(a[1..]) + Sources(b);
    }
  }

  // ---------------------------------------------------------------------
  // The leaves of a tree
  // ---------------------------------------------------------------------

  function Leaves(node: Node): Tokens {
    match node
    case Leaf(_, _) => [node]
    case Group(_, kids) => LeavesOf(kids)
  }

  function LeavesOf(toks: Tokens): Tokens {
    if toks == [] then [] else Leaves(toks[0]) + LeavesOf(toks[1..])
  }

  lemma {:induction false} LeavesAppend(a: Tokens, b: Tokens)
    ensures LeavesOf(a + b) == LeavesOf(a) + LeavesOf(b)
  {
    if a == [] {
      assert a + b == b;
    } else {
      assert (a + b)[1..] == a[1..] + b;
      LeavesAppend(a[1..], b);
      assert Leaves(a[0]) + (LeavesOf(a[1..]) + LeavesOf(b)) == Leaves(a[0]) + LeavesOf(a[1..]) + LeavesOf(b);
    }
  }

  lemma LeavesOne(node: Node)
    ensures LeavesOf([node]) == Leaves(node)
  {
    assert [node][1..] == [];
  }

  // ---------------------------------------------------------------------
  // The pieces the renderer writes
  // ---------------------------------------------------------------------

  function LaySpace(st: State): seq<Piece> {
    if st.space then [Lay(" ")] else []
  }

  function LayComma(st: State): seq<Piece> {
    if st.comma then [Lay("\n" + Indent(st))] else []
  }

  // The blanks that right-align the first word of a keyword.
  function Padding(kw: string): string {
    Spaces(NonNegative(PAD_WIDTH - |FirstWord(kw)|))
  }

  predicate OpensColumn(kind: KeywordKind) {
    kind in {Clause, JoinOp, Logical, On}
  }

  // Indentation in front of a keyword at block level n, the top level being zero.
  function KeyIndent(block: int): string {
    Spaces(IndentWidth(0, block))
  }

  function KeyPieces(kind: KeywordKind, own: Tokens, kw: string, st: State): seq<Piece> {
    var key := Key(kind, st.block, own, kw);
    match kind
    case Clause => [Lay(LineStart(st) + KeyIndent(st.block) + Padding(kw)), key, Lay(" ")]
    case JoinOp => [Lay(LineStart(st) + KeyIndent(st.block) + Padding(kw)), key, Lay(" ")]
    case Logical => [Lay(LineStart(st) + KeyIndent(st.block) + Padding(kw)), key, Lay(" ")]
    case On => [Lay(LineStart(st) + KeyIndent(st.block) + Padding(kw)), key, Lay(" ")]
    case SetOp => [Lay(LineStart(st) + Padding(kw)), key]
    case BlockStart => [Lay(LineStart(st) + KeyIndent(st.block) + Padding(kw)), key]
    case BlockEnd => [Lay("\n" + KeyIndent(NonNegative(st.block - 1)) + Padding(kw)), key]
    case _ => LayComma(st) + LaySpace(FlushComma(st)) + [key]
  }

  function KeywordPieces(toks: Tokens, i: nat, bounds: set<nat>, st: State): seq<Piece>
    requires i < |toks| && IsKeyword(toks[i])
  {
    var (norm, extra) := ResolveKeyword(toks, i);
    var (kind, origins) := Nest(KindAt(toks, i, bounds), st.origins);
    var s0 := st.(origins := origins, comma := if KeepsCommaBreak(kind) then st.comma else false);
    KeyPieces(kind, toks[i..i + 1 + extra], KeywordText(norm, st.uppercase), s0)
  }

  function Pieces(toks: Tokens, st: State): seq<Piece>
    decreases SizeList(toks), 3, 0
  {
    PiecesFrom(toks, 0, BetweenAnds(toks), st)
  }

  function PiecesFrom(toks: Tokens, i: nat, bounds: set<nat>, st: State): seq<Piece>
    requires i <= |toks|
    decreases SizeList(toks), 2, |toks| - i
  {
    if i == |toks| then []
    else
      var tok := toks[i];
      if IsBlankLeaf(tok) then [Skip([tok])] + PiecesFrom(toks, i + 1, bounds, st)
      else if IsPunct(tok, ",") || IsPunct(tok, ";") then
        [Word(tok)] + PiecesFrom(toks, i + 1, bounds, HandlePunct(tok, st))
      else if IsKeyword(tok) then
        KeywordPieces(toks, i, bounds, st) +
        PiecesFrom(toks, i + 1 + ResolveKeyword(toks, i).1, bounds, HandleKeyword(toks, i, bounds, st))
      else if tok.Group? then
        SizeMember(toks, i);
        LayComma(st) + GroupPieces(tok, FlushComma(st)) +
        PiecesFrom(toks, i + 1, bounds, RenderGroup(tok, FlushComma(st)))
      else
        LayComma(st) + (LaySpace(FlushComma(st)) + [Word(tok)]) +
        PiecesFrom(toks, i + 1, bounds, EmitWord(FlushComma(st), tok.value))
  }

  function GroupPieces(node: Node, st: State): seq<Piece>
    requires node.Group?
    decreases Size(node), 1, 0
  {
    var copy := LaySpace(st) + [Copy(node, CopyText(node, st.uppercase))];
    match node.group
    case CaseExpr => CasePieces(node.kids, 0, st, Indent(st), true)
    case Parens => ParensPieces(node, st)
    case IdList =>
      if st.clause in {"GROUP BY", "ORDER BY"} && IsSimpleList(node.kids)
      then LaySpace(st) + InlinePieces(node.kids, st.uppercase)
      else Pieces(node.kids, st)
    case Ident => if IdentNeedsRecursion(node.kids) then Pieces(node.kids, st) else copy
    case Compare => if ContainsSubquery(node.kids) then ComparisonPieces(node, st) else copy
    case FuncCall => copy
    case Container => Pieces(node.kids, st)
  }

  // Items copied, separated by a comma and a blank.
  function InlinePieces(kids: Tokens, uppercase: bool): seq<Piece> {
    if kids == [] then []
    else if IsBlankLeaf(kids[0]) then [Skip([kids[0]])] + InlinePieces(kids[1..], uppercase)
    else if IsPunct(kids[0], ",") then [Word(kids[0]), Lay(" ")] + InlinePieces(kids[1..], uppercase)
    else [Copy(kids[0], CopyText(kids[0], uppercase))] + InlinePieces(kids[1..], uppercase)
  }

  function ParensPieces(node: Node, st: State): seq<Piece>
    requires node.Group?
    decreases Size(node), 0, 0
  {
    if !HasSelect(node.kids, SELECT_DEPTH) then LaySpace(st) + [Piece.Parens(node, ParenText(node, st.uppercase))]
    else if st.depth >= MAX_DEPTH then LaySpace(st) + [Piece.Parens(node, Value(node))]
    else
      (LaySpace(st) + [Word(OPEN)]) + Pieces(Inner(node.kids), EnterSubquery(st)) +
      [Lay("\n" + Indent(st)), Word(CLOSE)]
  }

  function CasePieces(kids: Tokens, i: nat, st: State, base: string, firstWhen: bool): seq<Piece>
    requires i <= |kids|
    decreases SizeList(kids), 2, |kids| - i
  {
    if i == |kids| then []
    else
      var tok := kids[i];
      if IsKeyword(tok) && Normalize(tok.value) == "WHEN"
      then WhenPieces(tok, st, base, firstWhen) +
           CasePieces(kids, i + 1, EmitWhen(tok, st, base, firstWhen), base, false)
      else if tok.Leaf?
      then CaseLeafPieces(tok, st, base) + CasePieces(kids, i + 1, EmitCaseLeaf(tok, st, base), base, firstWhen)
      else
        SizeMember(kids, i);
        CaseGroupPieces(tok, st) + CasePieces(kids, i + 1, RenderCaseGroup(tok, st), base, firstWhen)
  }

  function WhenPieces(tok: Node, st: State, base: string, firstWhen: bool): seq<Piece>
    requires tok.Leaf?
  {
    var kw := CaseKeyword(tok, st);
    if firstWhen then [FirstWhen(tok, kw), Lay(" ")]
    else [Lay("\n" + base + Spaces(5)), CaseKey(tok, kw), Lay(" ")]
  }

  function CaseLeafPieces(tok: Node, st: State, base: string): seq<Piece>
    requires tok.Leaf?
  {
    if IsBlankLeaf(tok) then [Skip([tok])]
    else if !IsKeyword(tok) then LaySpace(st) + [Word(tok)]
    else
      var key := CaseKey(tok, CaseKeyword(tok, st));
      match Normalize(tok.value)
      case "CASE" => LaySpace(st) + [key, Lay(" ")]
      case "THEN" => [Lay(" "), key, Lay(" ")]
      case "ELSE" => [Lay("\n" + base + Spaces(5)), key, Lay(" ")]
      case "END" => [Lay("\n" + base), key]
      case _ => LaySpace(st) + [key]
  }

  function CaseGroupPieces(tok: Node, st: State): seq<Piece>
    requires tok.Group?
    decreases Size(tok), 2, 0
  {
    if IsSubqueryComparison(tok) then ComparisonPieces(tok, st)
    else if tok.group.Ident? || tok.group.Compare? then LaySpace(st) + [Copy(tok, CopyText(tok, st.uppercase))]
    else LaySpace(st) + GroupPieces(tok, FlushSpace(st))
  }

  function OperandPieces(tok: Node, st: State): seq<Piece> {
    if IsBlankLeaf(tok) then [Skip([tok])]
    else match tok
      case Leaf(_, _) => LaySpace(st) + [if IsKeyword(tok) then CaseKey(tok, CaseKeyword(tok, st)) else Word(tok)]
      case Group(group, _) =>
        if group.Ident? || group.FuncCall? then LaySpace(st) + [Copy(tok, CopyText(tok, st.uppercase))]
        else [Skip([tok])]
  }

  function LeftPieces(toks: Tokens, st: State): seq<Piece> {
    if toks == [] then [] else OperandPieces(toks[0], st) + LeftPieces(toks[1..], EmitOperand(toks[0], st))
  }

  function ComparisonPieces(node: Node, st: State): seq<Piece>
    requires node.Group? && ContainsSubquery(node.kids)
  {
    var p := FirstSubquery(node.kids);
    var paren := node.kids[p];
    if IsSimpleSubquery(paren) then LaySpace(st) + [Copy(node, CopyText(node, st.uppercase))]
    else
      var left := EmitComparisonLeft(node.kids[..p], st);
      var s0 := FlushSpace(left);
      var column := CurrentColumn(s0.text);
      LeftPieces(node.kids[..p], st) + LaySpace(left) +
      [Embed(paren, column, EmbedText(paren, st.uppercase, column)), Skip(node.kids[p + 1..])]
  }

  function EmbedText(paren: Node, uppercase: bool, column: nat): string
    requires paren.Group?
  {
    "(" + Body(FormatTokens(Inner(paren.kids), uppercase), column) + ")"
  }
}
