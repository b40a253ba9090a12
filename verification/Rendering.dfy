// What rendering does to the formatter's state, as functions from state to
// state. The methods in Formatter.dfy are proved to compute exactly these.
module Rendering {
  import opened Text
  import opened SqlTree
  import PostProcess

  datatype Origin = FromBegin | FromCase

  // A snapshot of the render context and its indentation stack.
  datatype State = State(
    text: string,           // the output buffer, joined
    hasContent: bool,       // whether the buffer holds any part
    top: int,
    block: int,
    uppercase: bool,
    space: bool,            // a blank is pending
    comma: bool,            // a line break is pending
    depth: int,
    origins: seq<Origin>,   // open BEGIN and CASE keywords
    clause: string          // the clause keyword last emitted
  )

  const INDENT_UNIT := 8
  const BLOCK_INDENT := 6
  const PAD_WIDTH := 7
  const MAX_DEPTH := 30
  const SELECT_DEPTH := 5

  function Start(uppercase: bool): State {
    State("", false, 0, 0, uppercase, false, false, 0, [], "")
  }

  function NonNegative(n: int): nat {
    if n < 0 then 0 else n
  }

  // ---------------------------------------------------------------------
  // Emission
  // ---------------------------------------------------------------------

  function IndentWidth(top: int, block: int): nat {
    INDENT_UNIT * NonNegative(top) + BLOCK_INDENT * NonNegative(block)
  }

  function Indent(st: State): string {
    Spaces(IndentWidth(st.top, st.block))
  }

  function Emit(st: State, t: string): State {
    st.(text := st.text + t, hasContent := true, space := false)
  }

  function WithSpace(st: State): State {
    st.(space := true)
  }

  function FlushSpace(st: State): State {
    if st.space then st.(text := st.text + " ", hasContent := true, space := false) else st
  }

  function FlushComma(st: State): State {
    if st.comma then Emit(st, "\n" + Indent(st)).(comma := false) else st
  }

  // Flush, emit, and leave a blank pending.
  function EmitWord(st: State, t: string): State {
    WithSpace(Emit(FlushSpace(st), t))
  }

  function LineStart(st: State): string {
    if st.hasContent then "\n" else ""
  }

  // ---------------------------------------------------------------------
  // Keywords
  // ---------------------------------------------------------------------

  // str.rjust(7)
  function RightAlign(word: string): string {
    Spaces(NonNegative(PAD_WIDTH - |word|)) + word
  }

  // The first word right-aligned to seven columns, the rest appended.
  function Pad(keyword: string): string {
    var i := IndexOf(keyword, ' ');
    if i < |keyword| then RightAlign(keyword[..i]) + " " + keyword[i + 1..] else RightAlign(keyword)
  }

  function KeywordText(norm: string, uppercase: bool): string {
    if uppercase then norm else Lower(norm)
  }

  function EmitClause(st: State, kw: string): State {
    var s0 := st.(space := false, comma := false, top := if st.top > 0 then st.top - 1 else st.top);
    var s1 := Emit(s0, LineStart(s0) + Indent(s0) + Pad(kw) + " ");
    s1.(clause := Upper(kw), top := s1.top + 1)
  }

  function EmitJoinLike(st: State, kw: string): State {
    var s0 := st.(space := false, comma := false, top := NonNegative(st.top - 1));
    var s1 := Emit(s0, LineStart(s0) + Indent(s0) + Pad(kw) + " ");
    s1.(top := s1.top + 1)
  }

  function EmitSetOp(st: State, kw: string): State {
    var s0 := st.(space := false, comma := false, top := 0, block := 0);
    Emit(s0, LineStart(s0) + Pad(kw))
  }

  function EmitBegin(st: State, kw: string): State {
    var s0 := st.(space := false, comma := false, top := NonNegative(st.top - 1));
    var s1 := Emit(s0, LineStart(s0) + Indent(s0) + Pad(kw));
    s1.(top := 0, block := s1.block + 1, comma := true)
  }

  function EmitBlockEnd(st: State, kw: string): State {
    var s0 := st.(block := NonNegative(st.block - 1), space := false, comma := false, top := NonNegative(st.top - 1));
    WithSpace(Emit(s0, "\n" + Indent(s0) + Pad(kw)).(top := 0))
  }

  function EmitInline(st: State, kw: string): State {
    EmitWord(FlushComma(st), kw)
  }

  function Dispatch(kind: KeywordKind, kw: string, st: State): State {
    match kind
    case Clause => EmitClause(st, kw)
    case JoinOp => EmitJoinLike(st, kw)
    case Logical => EmitJoinLike(st, kw)
    case SetOp => EmitSetOp(st, kw)
    case On => EmitJoinLike(st, kw)
    case BlockStart => EmitBegin(st, kw)
    case BlockEnd => EmitBlockEnd(st, kw)
    case CaseStart => EmitInline(st, kw)
    case CaseInner => EmitInline(st, kw)
    case CaseEnd => EmitInline(st, kw)
    case Other => EmitInline(st, kw)
  }

  // BEGIN, CASE and END against the stack of open blocks.
  function Nest(kind: KeywordKind, origins: seq<Origin>): (r: (KeywordKind, seq<Origin>)) {
    match kind
    case BlockStart => (kind, origins + [FromBegin])
    case CaseStart => (kind, origins + [FromCase])
    case CaseEnd =>
      if origins == [] then (kind, origins)
      else
        var rest := origins[..|origins| - 1];
        (if origins[|origins| - 1] == FromBegin then BlockEnd else CaseEnd, rest)
    case _ => (kind, origins)
  }

  predicate KeepsCommaBreak(kind: KeywordKind) {
    kind in {Other, CaseStart, CaseInner, CaseEnd}
  }

  function KindAt(toks: Tokens, i: nat, bounds: set<nat>): KeywordKind
    requires i < |toks| && IsKeyword(toks[i])
  {
    var kind := Classify(ResolveKeyword(toks, i).0);
    if kind == Logical && i in bounds then Other else kind
  }

  function HandleKeyword(toks: Tokens, i: nat, bounds: set<nat>, st: State): State
    requires i < |toks| && IsKeyword(toks[i])
  {
    var norm := ResolveKeyword(toks, i).0;
    var (kind, origins) := Nest(KindAt(toks, i, bounds), st.origins);
    var s0 := st.(origins := origins, comma := if KeepsCommaBreak(kind) then st.comma else false);
    Dispatch(kind, KeywordText(norm, st.uppercase), s0)
  }

  function HandlePunct(tok: Node, st: State): State
    requires IsPunct(tok, ",") || IsPunct(tok, ";")
  {
    if tok.value == "," then Emit(st.(space := false), ",").(comma := true)
    else Emit(st.(space := false, top := 0), ";").(comma := true)
  }

  // ---------------------------------------------------------------------
  // Verbatim text
  // ---------------------------------------------------------------------

  function KeywordsUpper(node: Node): string {
    match node
    case Leaf(_, value) => if IsKeyword(node) then Upper(value) else value
    case Group(_, kids) => KeywordsUpperList(kids)
  }

  function KeywordsUpperList(toks: Tokens): string {
    if toks == [] then "" else KeywordsUpper(toks[0]) + KeywordsUpperList(toks[1..])
  }

  // A node copied with its whitespace squeezed.
  function CopyText(node: Node, uppercase: bool): string {
    if uppercase then Strip(SquashSpaces(KeywordsUpper(node))) else Join(" ", Words(Value(node)))
  }

  // A parenthesis copied as it stands.
  function ParenText(node: Node, uppercase: bool): string {
    if uppercase then KeywordsUpper(node) else Value(node)
  }

  function CopyAll(toks: Tokens, uppercase: bool): seq<string> {
    if toks == [] then [] else [CopyText(toks[0], uppercase)] + CopyAll(toks[1..], uppercase)
  }

  // ---------------------------------------------------------------------
  // Layout of an embedded, independently formatted subquery
  // ---------------------------------------------------------------------

  function CurrentColumn(text: string): nat {
    if text == "" || text[|text| - 1] == '\n' then 0 else 1 + CurrentColumn(text[..|text| - 1])
  }

  function EmitLines(st: State, lines: seq<string>, column: nat): State
    decreases |lines|
  {
    if lines == [] then st
    else EmitLines(Emit(st, "\n" + Spaces(column) + lines[0]), lines[1..], column)
  }

  function EmitEmbedded(st: State, formatted: string, column: nat): State {
    var lines := Lines(formatted);
    var s0 := Emit(st, "(" + TrimLeft(lines[0]));
    WithSpace(Emit(EmitLines(s0, lines[1..], column), ")"))
  }

  function EmitComparisonLeft(toks: Tokens, st: State): State {
    if toks == [] then st
    else EmitComparisonLeft(toks[1..], EmitOperand(toks[0], st))
  }

  // One token on the left of a comparison: whitespace and groups other than
  // identifiers and functions produce nothing.
  function EmitOperand(tok: Node, st: State): State {
    if IsBlankLeaf(tok) then st
    else match tok
      case Leaf(_, value) => EmitWord(st, if st.uppercase && IsKeyword(tok) then Upper(value) else value)
      case Group(group, _) =>
        if group.Ident? || group.FuncCall? then EmitWord(st, CopyText(tok, st.uppercase)) else st
  }

  // ---------------------------------------------------------------------
  // The mutually recursive renderer
  // ---------------------------------------------------------------------

  function RenderList(toks: Tokens, st: State): State
    decreases SizeList(toks), 3, 0
  {
    RenderFrom(toks, 0, BetweenAnds(toks), st)
  }

  function RenderFrom(toks: Tokens, i: nat, bounds: set<nat>, st: State): State
    requires i <= |toks|
    decreases SizeList(toks), 2, |toks| - i
  {
    if i == |toks| then st
    else
      var tok := toks[i];
      if IsBlankLeaf(tok) then RenderFrom(toks, i + 1, bounds, st)
      else if IsPunct(tok, ",") || IsPunct(tok, ";") then RenderFrom(toks, i + 1, bounds, HandlePunct(tok, st))
      else if IsKeyword(tok) then
        RenderFrom(toks, i + 1 + ResolveKeyword(toks, i).1, bounds, HandleKeyword(toks, i, bounds, st))
      else if tok.Group? then
        SizeMember(toks, i);
        RenderFrom(toks, i + 1, bounds, RenderGroup(tok, FlushComma(st)))
      else RenderFrom(toks, i + 1, bounds, EmitWord(FlushComma(st), tok.value))
  }

  function RenderGroup(node: Node, st: State): State
    requires node.Group?
    decreases Size(node), 1, 0
  {
    match node.group
    case CaseExpr => RenderCaseFrom(node.kids, 0, st, Indent(st), true)
    case Parens => RenderParens(node, st)
    case IdList =>
      if st.clause in {"GROUP BY", "ORDER BY"} && IsSimpleList(node.kids)
      then EmitWord(st, Join(", ", CopyAll(Items(node.kids), st.uppercase)))
      else RenderList(node.kids, st)
    case Ident =>
      if IdentNeedsRecursion(node.kids) then RenderList(node.kids, st) else EmitWord(st, CopyText(node, st.uppercase))
    case Compare =>
      if ContainsSubquery(node.kids) then RenderComparison(node, st) else EmitWord(st, CopyText(node, st.uppercase))
    case FuncCall => EmitWord(st, CopyText(node, st.uppercase))
    case Container => RenderList(node.kids, st)
  }

  function EnterSubquery(st: State): State {
    Emit(FlushSpace(st), "(").(top := 0, block := st.block + 1, depth := st.depth + 1)
  }

  // outer is the state before the subquery was entered, st the one after its
  // tokens were rendered.
  function LeaveSubquery(outer: State, st: State): State {
    var s0 := st.(depth := st.depth - 1, top := outer.top, block := outer.block);
    WithSpace(Emit(s0, "\n" + Indent(outer) + ")"))
  }

  function RenderParens(node: Node, st: State): State
    requires node.Group?
    decreases Size(node), 0, 0
  {
    if !HasSelect(node.kids, SELECT_DEPTH) then EmitWord(st, ParenText(node, st.uppercase))
    else if st.depth >= MAX_DEPTH then EmitWord(st, Value(node))
    else LeaveSubquery(st, RenderList(Inner(node.kids), EnterSubquery(st)))
  }

  // The tokens of a CASE expression from index i on.
  function RenderCaseFrom(kids: Tokens, i: nat, st: State, base: string, firstWhen: bool): State
    requires i <= |kids|
    decreases SizeList(kids), 2, |kids| - i
  {
    if i == |kids| then st
    else
      var tok := kids[i];
      if IsKeyword(tok) && Normalize(tok.value) == "WHEN"
      then RenderCaseFrom(kids, i + 1, EmitWhen(tok, st, base, firstWhen), base, false)
      else if IsBlankLeaf(tok) || tok.Leaf?
      then RenderCaseFrom(kids, i + 1, EmitCaseLeaf(tok, st, base), base, firstWhen)
      else
        SizeMember(kids, i);
        RenderCaseFrom(kids, i + 1, RenderCaseGroup(tok, st), base, firstWhen)
  }

  function RenderCaseGroup(tok: Node, st: State): State
    requires tok.Group?
    decreases Size(tok), 2, 0
  {
    if IsSubqueryComparison(tok) then RenderComparison(tok, st)
    else if tok.group.Ident? || tok.group.Compare? then EmitWord(st, CopyText(tok, st.uppercase))
    else RenderGroup(tok, FlushSpace(st))
  }

  function CaseKeyword(tok: Node, st: State): string
    requires tok.Leaf?
  {
    if st.uppercase then Upper(tok.value) else tok.value
  }

  function EmitWhen(tok: Node, st: State, base: string, firstWhen: bool): State
    requires tok.Leaf?
  {
    var kw := CaseKeyword(tok, st);
    if firstWhen then Emit(st.(space := false), kw + " ")
    else Emit(st.(space := false), "\n" + base + Spaces(5) + kw + " ")
  }

  // Any token of a CASE expression that is neither WHEN nor a group.
  function EmitCaseLeaf(tok: Node, st: State, base: string): State
    requires tok.Leaf?
  {
    if IsBlankLeaf(tok) then st
    else if !IsKeyword(tok) then EmitWord(st, tok.value)
    else
      var kw := CaseKeyword(tok, st);
      match Normalize(tok.value)
      case "CASE" => Emit(FlushSpace(st), kw + " ")
      case "THEN" => Emit(st.(space := false), " " + kw + " ")
      case "ELSE" => Emit(st.(space := false), "\n" + base + Spaces(5) + kw + " ")
      case "END" => WithSpace(Emit(st.(space := false), "\n" + base + kw))
      case _ => EmitWord(st, kw)
  }

  function RenderComparison(node: Node, st: State): State
    requires node.Group? && ContainsSubquery(node.kids)
    decreases Size(node), 0, 0
  {
    var p := FirstSubquery(node.kids);
    var paren := node.kids[p];
    if IsSimpleSubquery(paren) then EmitWord(st, CopyText(node, st.uppercase))
    else
      SizeMember(node.kids, p);
      var s0 := FlushSpace(EmitComparisonLeft(node.kids[..p], st));
      EmitEmbedded(s0, FormatTokens(Inner(paren.kids), st.uppercase), CurrentColumn(s0.text))
  }

  // The formatted text of one statement.
  function FormatTokens(toks: Tokens, uppercase: bool): string
    decreases SizeList(toks), 4, 0
  {
    PostProcess.Clean(RenderList(toks, Start(uppercase)).text)
  }

  // Several statements: blank ones are skipped, the others joined by line feeds.
  function FormatStatements(stmts: seq<Tokens>, uppercase: bool): seq<string> {
    if stmts == [] then []
    else if Blank(ValueList(stmts[0])) then FormatStatements(stmts[1..], uppercase)
    else [FormatTokens(stmts[0], uppercase)] + FormatStatements(stmts[1..], uppercase)
  }

  // The public entry point, given what the parser made of the text.
  function Format(sql: string, stmts: seq<Tokens>, uppercase: bool): string {
    if Blank(sql) then sql
    else
      var results := FormatStatements(stmts, uppercase);
      if results == [] then sql else Join("\n", results)
  }
}
