// The token tree the formatter receives from the SQL parser, and the purely
// syntactic questions the formatter asks about it.
module SqlTree {
  import opened Text

  datatype LeafKind = Whitespace | Keyword | DmlKeyword | Punctuation | OtherLeaf

  datatype GroupKind = CaseExpr | Parens | IdList | Ident | Compare | FuncCall | Container

  datatype Node =
    | Leaf(kind: LeafKind, value: string)
    | Group(group: GroupKind, kids: seq<Node>)

  type Tokens = seq<Node>

  function Value(node: Node): string {
    match node
    case Leaf(_, value) => value
    case Group(_, kids) => ValueList(kids)
  }

  function ValueList(toks: Tokens): string {
    if toks == [] then "" else Value(toks[0]) + ValueList(toks[1..])
  }

  // Termination measure for the renderer, which also works on filtered lists.
  function Size(node: Node): nat {
    match node
    case Leaf(_, _) => 1
    case Group(_, kids) => 1 + SizeList(kids)
  }

  function SizeList(toks: Tokens): nat {
    if toks == [] then 0 else Size(toks[0]) + SizeList(toks[1..])
  }

  lemma {:induction false} SizeMember(toks: Tokens, i: nat)
    requires i < |toks|
    ensures Size(toks[i]) <= SizeList(toks)
  {
    if i > 0 {
      assert toks[i] == toks[1..][i - 1];
      SizeMember(toks[1..], i - 1);
    }
  }

  lemma {:induction false} ValueListAppend(a: Tokens, b: Tokens)
    ensures ValueList(a + b) == ValueList(a) + ValueList(b)
  {
    if a == [] {
      assert a + b == b;
    } else {
      assert (a + b)[1..] == a[1..] + b;
      ValueListAppend(a[1..], b);
    }
  }

  // ---------------------------------------------------------------------
  // Leaves
  // ---------------------------------------------------------------------

  predicate IsBlankLeaf(tok: Node) {
    tok.Leaf? && tok.kind.Whitespace?
  }

  predicate IsKeyword(tok: Node) {
    tok.Leaf? && (tok.kind.Keyword? || tok.kind.DmlKeyword?)
  }

  predicate IsPunct(tok: Node, text: string) {
    tok.Leaf? && tok.kind.Punctuation? && tok.value == text
  }

  predicate IsParen(tok: Node) {
    IsPunct(tok, "(") || IsPunct(tok, ")")
  }

  // ---------------------------------------------------------------------
  // Keyword classes
  // ---------------------------------------------------------------------

  datatype KeywordKind =
    Clause | JoinOp | SetOp | Logical | CaseStart | CaseInner | CaseEnd | BlockStart | BlockEnd | On | Other

  const CLAUSES: set<string> := {
    "SELECT", "FROM", "WHERE", "GROUP BY", "HAVING", "ORDER BY", "OFFSET", "INSERT INTO", "VALUES",
    "UPDATE", "SET", "DELETE FROM", "RETURNING", "WITH", "LIMIT", "CONNECT BY", "START WITH", "QUALIFY",
    "DECLARE", "IF"
  }

  const JOINS: set<string> := {
    "JOIN", "INNER JOIN", "LEFT JOIN", "RIGHT JOIN", "FULL JOIN", "CROSS JOIN", "LEFT OUTER JOIN",
    "RIGHT OUTER JOIN", "FULL OUTER JOIN", "NATURAL JOIN", "LEFT INNER JOIN"
  }

  const SET_OPS: set<string> := {
    "UNION", "UNION ALL", "UNION DISTINCT", "EXCEPT", "EXCEPT ALL", "INTERSECT", "INTERSECT ALL", "MINUS"
  }

  const COMPOUND_HEADS: set<string> := {"INSERT", "DELETE", "START", "CONNECT"}

  function Classify(norm: string): KeywordKind {
    if norm in CLAUSES then Clause
    else if norm in JOINS then JoinOp
    else if norm in SET_OPS then SetOp
    else if norm == "AND" || norm == "OR" then Logical
    else if norm == "BEGIN" then BlockStart
    else if norm == "CASE" then CaseStart
    else if norm == "WHEN" || norm == "THEN" || norm == "ELSE" then CaseInner
    else if norm == "END" then CaseEnd
    else if norm == "ON" then On
    else Other
  }

  // ---------------------------------------------------------------------
  // Subqueries
  // ---------------------------------------------------------------------

  predicate HasSelect(toks: Tokens, maxDepth: nat) {
    maxDepth > 0 &&
    exists k :: 0 <= k < |toks| &&
      match toks[k]
      case Leaf(kind, value) => kind.DmlKeyword? && Normalize(value) in {"SELECT", "WITH"}
      case Group(_, kids) => HasSelect(kids, maxDepth - 1)
  }

  predicate IsSubquery(tok: Node) {
    tok.Group? && tok.group.Parens? && HasSelect(tok.kids, 5)
  }

  // The tokens between the parentheses: every bare parenthesis leaf is dropped.
  function Inner(kids: Tokens): (r: Tokens)
    ensures SizeList(r) <= SizeList(kids)
  {
    if kids == [] then []
    else if IsParen(kids[0]) then Inner(kids[1..])
    else
      var r := [kids[0]] + Inner(kids[1..]);
      assert r[1..] == Inner(kids[1..]);
      r
  }

  // Index of the first subquery among the tokens, |toks| when there is none.
  function FirstSubquery(toks: Tokens): (i: nat)
    ensures i <= |toks|
    ensures i < |toks| ==> IsSubquery(toks[i])
    ensures forall k :: 0 <= k < i ==> !IsSubquery(toks[k])
  {
    if toks == [] || IsSubquery(toks[0]) then 0 else 1 + FirstSubquery(toks[1..])
  }

  predicate ContainsSubquery(toks: Tokens) {
    FirstSubquery(toks) < |toks|
  }

  predicate IsSubqueryComparison(tok: Node) {
    tok.Group? && tok.group.Compare? && ContainsSubquery(tok.kids)
  }

  // A subquery short enough to stay on one line.
  predicate IsSimpleSubquery(paren: Node) {
    var raw := " " + Upper(Value(paren)) + " ";
    && !Contains(raw, " JOIN ")
    && !Contains(raw, " GROUP BY ") && !Contains(raw, " HAVING ") && !Contains(raw, " ORDER BY ")
    && !Contains(raw, " LIMIT ") && !Contains(raw, " UNION ") && !Contains(raw, " INTERSECT ")
    && !Contains(raw, " EXCEPT ") && !Contains(raw, " MINUS ")
    && Count(raw, " AND ") - Count(raw, " BETWEEN ") + Count(raw, " OR ") <= 0
  }

  predicate IdentNeedsRecursion(kids: Tokens) {
    exists k :: 0 <= k < |kids| && (IsCase(kids[k]) || IsSubquery(kids[k]))
  }

  predicate IsCase(tok: Node) {
    tok.Group? && tok.group.CaseExpr?
  }

  // ---------------------------------------------------------------------
  // Identifier lists
  // ---------------------------------------------------------------------

  // node.get_identifiers(): everything but whitespace and commas.
  predicate IsItem(tok: Node) {
    !IsBlankLeaf(tok) && !IsPunct(tok, ",")
  }

  function Items(kids: Tokens): (r: Tokens)
    ensures forall k :: 0 <= k < |r| ==> r[k] in kids && IsItem(r[k])
  {
    if kids == [] then []
    else if IsItem(kids[0]) then [kids[0]] + Items(kids[1..])
    else Items(kids[1..])
  }

  predicate HasCase(tok: Node) {
    IsCase(tok) || (tok.Group? && exists k :: 0 <= k < |tok.kids| && IsCase(tok.kids[k]))
  }

  predicate IsPlainItem(tok: Node) {
    var text := Upper(Value(tok));
    '(' !in text && '+' !in text && '-' !in text && '*' !in text && '/' !in text && !Contains(text, "||")
  }

  predicate IsSimpleList(kids: Tokens) {
    && (forall k :: 0 <= k < |kids| ==> !HasCase(kids[k]))
    && (forall k :: 0 <= k < |kids| && IsItem(kids[k]) ==> IsPlainItem(kids[k]))
  }

  // ---------------------------------------------------------------------
  // BETWEEN ... AND
  // ---------------------------------------------------------------------

  // Keywords that decide what an AND belongs to.
  predicate DecidesAnd(tok: Node) {
    IsKeyword(tok) &&
    var norm := Normalize(tok.value);
    norm == "BETWEEN" || norm == "AND" || Classify(norm) in {Clause, JoinOp, SetOp}
  }

  // The latest deciding keyword among toks[..i] is BETWEEN.
  predicate AwaitsBound(toks: Tokens, i: nat)
    requires i <= |toks|
  {
    exists b :: 0 <= b < i && IsKeyword(toks[b]) && Normalize(toks[b].value) == "BETWEEN" &&
      forall k :: b < k < i ==> !DecidesAnd(toks[k])
  }

  predicate IsBound(toks: Tokens, i: nat)
    requires i < |toks|
  {
    IsKeyword(toks[i]) && Normalize(toks[i].value) == "AND" && AwaitsBound(toks, i)
  }

  // The ANDs that separate the two bounds of a BETWEEN.
  function BetweenAnds(toks: Tokens): set<nat> {
    set i: nat | 0 <= i < |toks| && IsBound(toks, i)
  }

  // ---------------------------------------------------------------------
  // Compound keywords
  // ---------------------------------------------------------------------

  // Index of the first token after i that is not whitespace, |toks| when there is none.
  function NextVisible(toks: Tokens, i: nat): (j: nat)
    requires i <= |toks|
    ensures i <= j <= |toks|
    ensures forall k :: i <= k < j ==> IsBlankLeaf(toks[k])
    ensures j < |toks| ==> !IsBlankLeaf(toks[j])
    decreases |toks| - i
  {
    if i == |toks| || !IsBlankLeaf(toks[i]) then i else NextVisible(toks, i + 1)
  }

  // The keyword right after toks[i], "" when the next token is no keyword.
  function PeekKeyword(toks: Tokens, i: nat): string
    requires i < |toks|
  {
    var j := NextVisible(toks, i + 1);
    if j < |toks| && IsKeyword(toks[j]) then Normalize(toks[j].value) else ""
  }

  lemma NoClauseEndsInBlank(norm: string)
    ensures norm + " " + "" !in CLAUSES
  {
    var s := norm + " " + "";
    assert s[|s| - 1] == ' ';
    assert forall c :: c in CLAUSES ==> c[|c| - 1] != ' ';
  }

  // The normalised keyword at i, merged with the next one when together they
  // form a clause keyword, and the number of further tokens consumed.
  function ResolveKeyword(toks: Tokens, i: nat): (r: (string, nat))
    requires i < |toks| && IsKeyword(toks[i])
    ensures i + r.1 < |toks|
    ensures r.1 > 0 ==> r.1 == NextVisible(toks, i + 1) - i && IsKeyword(toks[i + r.1])
  {
    var norm := Normalize(toks[i].value);
    var compound := norm + " " + PeekKeyword(toks, i);
    if norm in COMPOUND_HEADS && compound in CLAUSES then
      NoClauseEndsInBlank(norm);
      (compound, NextVisible(toks, i + 1) - i)
    else (norm, 0)
  }
}
