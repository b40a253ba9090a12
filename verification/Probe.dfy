// Token boundaries: what it means that an output text still shows the tokens of
// a tree apart from one another, and a dry run that decides it.
module Probe {
  import opened Text
  import opened SqlTree
  import opened Rendering
  import opened Preservation

  // ---------------------------------------------------------------------
  // Marked characters
  // ---------------------------------------------------------------------

  // A visible character of the input: whether whitespace precedes it, and
  // whether it is the first character of a token.
  datatype Mark = Mark(ch: char, gap: bool, start: bool)

  function MarkToken(cells: seq<Cell>): seq<Mark> {
    seq(|cells|, k requires 0 <= k < |cells| => Mark(cells[k].ch, cells[k].gap, k == 0))
  }

  function Marks(node: Node, g: bool): seq<Mark> {
    match node
    case Leaf(_, value) => MarkToken(Cells(value, g))
    case Group(_, kids) => MarksList(kids, g)
  }

  function MarksList(toks: Tokens, g: bool): seq<Mark> {
    if toks == [] then [] else Marks(toks[0], g) + MarksList(toks[1..], Trail(Value(toks[0]), g))
  }

  // Characters next to which whitespace carries no meaning.
  predicate IsDelim(c: char) {
    c == '(' || c == ')' || c == ',' || c == ';'
  }

  // Output cell c shows mark m, which follows the character prev, properly:
  // no whitespace is inserted inside a token, and none that separates two
  // tokens is lost.
  predicate GapOk(prev: char, m: Mark, c: Cell) {
    && (c.gap ==> m.gap || m.start)
    && (m.gap && !IsDelim(prev) && !IsDelim(m.ch) ==> c.gap)
  }

  predicate SameText(ms: seq<Mark>, cs: seq<Cell>) {
    |ms| == |cs| && forall k :: 0 <= k < |ms| ==> ms[k].ch == cs[k].ch
  }

  // The visible character before mark k.
  function Before(prev: char, ms: seq<Mark>, k: nat): char
    requires k <= |ms|
  {
    if k == 0 then prev else ms[k - 1].ch
  }

  predicate GapsFrom(prev: char, ms: seq<Mark>, cs: seq<Cell>)
    requires |ms| == |cs|
  {
    forall k :: 0 <= k < |ms| ==> GapOk(Before(prev, ms, k), ms[k], cs[k])
  }

  // A position before which nothing needs to be kept apart.
  const OUTSIDE := '('

  // The text shows exactly the tokens of the tree.
  predicate ShowsTokens(toks: Tokens, text: string) {
    var ms, cs := MarksList(toks, true), Cells(text, true);
    SameText(ms, cs) && GapsFrom(OUTSIDE, ms, cs)
  }

  // ---------------------------------------------------------------------
  // The dry run: the pending flags of the renderer and a verdict
  // ---------------------------------------------------------------------

  datatype Probe = Probe(
    ok: bool,       // no two tokens fused so far
    prev: char,     // last visible character
    gap: bool,      // whitespace precedes the next token in the input
    loose: bool,    // the output ends in whitespace, or is empty
    space: bool,
    comma: bool,
    origins: seq<Origin>,
    clause: string,
    depth: int
  )

  const BEGINNING := Probe(true, OUTSIDE, true, true, false, false, [], "", 0)

  function LastOf(prev: char, v: string): char {
    var c := Canon(v);
    if c == "" then prev else c[|c| - 1]
  }

  // Writing v right behind the last visible character would fuse two tokens
  // that the input keeps apart.
  predicate Fuses(p: Probe, v: string) {
    var cs := Cells(v, p.gap);
    cs != [] && cs[0].gap && !IsDelim(p.prev) && !IsDelim(cs[0].ch)
  }

  function Passed(p: Probe, v: string): Probe {
    p.(prev := LastOf(p.prev, v), gap := Trail(v, p.gap))
  }

  // v produces nothing.
  function Skipped(p: Probe, v: string): Probe {
    p.(gap := Trail(v, p.gap))
  }

  // v is written at the end of the output.
  function Write(p: Probe, v: string): Probe {
    Passed(p, v).(ok := p.ok && (p.loose || !Fuses(p, v)), loose := false, space := false)
  }

  function Flushed(p: Probe): Probe {
    if p.space then p.(loose := true, space := false) else p
  }

  function Broken(p: Probe): Probe {
    if p.comma then p.(loose := true, comma := false, space := false) else p
  }

  function WriteWord(p: Probe, v: string): Probe {
    Write(Flushed(p), v).(space := true)
  }

  // v is written at the start of a line of its own.
  function WriteLine(p: Probe, v: string): Probe {
    Write(p.(loose := true, comma := false), v)
  }

  function ProbeDispatch(kind: KeywordKind, norm: string, v: string, p: Probe): Probe {
    match kind
    case Clause => WriteLine(p, v).(loose := true, clause := Upper(norm))
    case JoinOp => WriteLine(p, v).(loose := true)
    case Logical => WriteLine(p, v).(loose := true)
    case On => WriteLine(p, v).(loose := true)
    case SetOp => WriteLine(p, v)
    case BlockStart => WriteLine(p, v).(comma := true)
    case BlockEnd => WriteLine(p, v).(space := true)
    case CaseStart => WriteWord(Broken(p), v)
    case CaseInner => WriteWord(Broken(p), v)
    case CaseEnd => WriteWord(Broken(p), v)
    case Other => WriteWord(Broken(p), v)
  }

  function ProbeKeyword(toks: Tokens, i: nat, bounds: set<nat>, p: Probe): Probe
    requires i < |toks| && IsKeyword(toks[i])
  {
    var (norm, extra) := ResolveKeyword(toks, i);
    var (kind, origins) := Nest(KindAt(toks, i, bounds), p.origins);
    var q := p.(origins := origins, comma := if KeepsCommaBreak(kind) then p.comma else false);
    ProbeDispatch(kind, norm, ValueList(toks[i..i + 1 + extra]), q)
  }

  function ProbeList(toks: Tokens, p: Probe): Probe
    decreases SizeList(toks), 3, 0
  {
    ProbeFrom(toks, 0, BetweenAnds(toks), p)
  }

  function ProbeFrom(toks: Tokens, i: nat, bounds: set<nat>, p: Probe): Probe
    requires i <= |toks|
    decreases SizeList(toks), 2, |toks| - i
  {
    if i == |toks| then p
    else
      var tok := toks[i];
      if IsBlankLeaf(tok) then ProbeFrom(toks, i + 1, bounds, Skipped(p, tok.value))
      else if IsPunct(tok, ",") || IsPunct(tok, ";") then
        ProbeFrom(toks, i + 1, bounds, Write(p, tok.value).(comma := true))
      else if IsKeyword(tok) then
        ProbeFrom(toks, i + 1 + ResolveKeyword(toks, i).1, bounds, ProbeKeyword(toks, i, bounds, p))
      else if tok.Group? then
        SizeMember(toks, i);
        ProbeFrom(toks, i + 1, bounds, ProbeGroup(tok, Broken(p)))
      else ProbeFrom(toks, i + 1, bounds, WriteWord(Broken(p), tok.value))
  }

  function ProbeGroup(node: Node, p: Probe): Probe
    requires node.Group?
    decreases Size(node), 1, 0
  {
    match node.group
    case CaseExpr => ProbeCase(node.kids, 0, p, true)
    case Parens => ProbeParens(node, p)
    case IdList =>
      if p.clause in {"GROUP BY", "ORDER BY"} && IsSimpleList(node.kids)
      then WriteWord(p, Value(node))
      else ProbeList(node.kids, p)
    case Ident => if IdentNeedsRecursion(node.kids) then ProbeList(node.kids, p) else WriteWord(p, Value(node))
    case Compare => if ContainsSubquery(node.kids) then ProbeComparison(node, p) else WriteWord(p, Value(node))
    case FuncCall => WriteWord(p, Value(node))
    case Container => ProbeList(node.kids, p)
  }

  function ProbeParens(node: Node, p: Probe): Probe
    requires node.Group?
    decreases Size(node), 0, 0
  {
    if !HasSelect(node.kids, SELECT_DEPTH) || p.depth >= MAX_DEPTH then WriteWord(p, Value(node))
    else
      var q := ProbeList(Inner(node.kids), Write(Flushed(p), "(").(depth := p.depth + 1));
      WriteLine(q, ")").(comma := q.comma, space := true, depth := q.depth - 1)
  }

  function ProbeCase(kids: Tokens, i: nat, p: Probe, firstWhen: bool): Probe
    requires i <= |kids|
    decreases SizeList(kids), 2, |kids| - i
  {
    if i == |kids| then p
    else
      var tok := kids[i];
      if IsKeyword(tok) && Normalize(tok.value) == "WHEN"
      then ProbeCase(kids, i + 1, ProbeWhen(tok, p, firstWhen), false)
      else if tok.Leaf? then ProbeCase(kids, i + 1, ProbeCaseLeaf(tok, p), firstWhen)
      else
        SizeMember(kids, i);
        ProbeCase(kids, i + 1, ProbeCaseGroup(tok, p), firstWhen)
  }

  // The first WHEN is written without the pending blank.
  function ProbeWhen(tok: Node, p: Probe, firstWhen: bool): Probe
    requires tok.Leaf?
  {
    Write(if firstWhen then p else p.(loose := true), tok.value).(loose := true)
  }

  function ProbeCaseLeaf(tok: Node, p: Probe): Probe
    requires tok.Leaf?
  {
    if IsBlankLeaf(tok) then Skipped(p, tok.value)
    else if !IsKeyword(tok) then WriteWord(p, tok.value)
    else
      match Normalize(tok.value)
      case "CASE" => Write(Flushed(p), tok.value).(loose := true)
      case "THEN" => Write(p.(loose := true), tok.value).(loose := true)
      case "ELSE" => Write(p.(loose := true), tok.value).(loose := true)
      case "END" => Write(p.(loose := true), tok.value).(space := true)
      case _ => WriteWord(p, tok.value)
  }

  function ProbeCaseGroup(tok: Node, p: Probe): Probe
    requires tok.Group?
    decreases Size(tok), 2, 0
  {
    if IsSubqueryComparison(tok) then ProbeComparison(tok, p)
    else if tok.group.Ident? || tok.group.Compare? then WriteWord(p, Value(tok))
    else ProbeGroup(tok, Flushed(p))
  }

  function ProbeOperands(toks: Tokens, p: Probe): Probe {
    if toks == [] then p
    else
      var v := Value(toks[0]);
      ProbeOperands(toks[1..], if IsBlankLeaf(toks[0]) || !IsOperand(toks[0]) then Skipped(p, v) else WriteWord(p, v))
  }

  function ProbeComparison(node: Node, p: Probe): Probe
    requires node.Group? && ContainsSubquery(node.kids)
    decreases Size(node), 0, 0
  {
    var s := FirstSubquery(node.kids);
    var paren := node.kids[s];
    if IsSimpleSubquery(paren) then WriteWord(p, Value(node))
    else
      SizeMember(node.kids, s);
      var left := ProbeOperands(node.kids[..s], p);
      var inside := ProbeList(Inner(paren.kids), BEGINNING);
      Passed(left, ValueList(node.kids[s..])).(ok := left.ok && inside.ok, loose := false, space := true)
  }
}
