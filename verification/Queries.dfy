// A query language with joins, conditions, CASE expressions, nested queries and set
// operators: the token trees of its queries, and the layout they should get.
module Queries {
  import opened Text
  import opened SqlTree
  import opened Stable
  import Transcript

  datatype Arm = Arm(test: string, result: string)
  datatype Item = Plain(word: string) | Cases(arms: seq<Arm>, other: string)
  datatype Source = Table(name: string) | Derived(query: Query, name: string)
  datatype Link = Link(kind: string, name: string, on: string)
  datatype Cond = Fact(word: string) | Compared(word: string, query: Query)
  datatype Further = Further(op: string, cond: Cond)
  datatype Filter = Always | Only(first: Cond, more: seq<Further>)
  datatype Tail = Last | Then(op: string, query: Query)

  datatype Query = Query(
    items: seq<Item>,
    source: Source,
    links: seq<Link>,
    filter: Filter,
    groups: seq<string>,
    tail: Tail
  )

  // ---------------------------------------------------------------------
  // Token trees
  // ---------------------------------------------------------------------

  const BLANK := Leaf(Whitespace, " ")
  const COMMA := Leaf(Punctuation, ",")
  const SELECT := Leaf(DmlKeyword, "SELECT")

  function Kw(w: string): Node {
    Leaf(Keyword, w)
  }

  function Name(w: string): Node {
    Group(Ident, [Leaf(OtherLeaf, w)])
  }

  function ArmToks(arms: seq<Arm>): Tokens {
    if arms == [] then []
    else
      [Kw("WHEN"), BLANK, Name(arms[0].test), BLANK, Kw("THEN"), BLANK, Name(arms[0].result), BLANK] +
      ArmToks(arms[1..])
  }

  function ItemNode(item: Item): Node {
    match item
    case Plain(w) => Name(w)
    case Cases(arms, other) =>
      Group(CaseExpr, [Kw("CASE"), BLANK] + (ArmToks(arms) + [Kw("ELSE"), BLANK, Name(other), BLANK, Kw("END")]))
  }

  function ItemToks(items: seq<Item>): Tokens {
    if items == [] then []
    else [ItemNode(items[0])] + MoreItems(items[1..])
  }

  function MoreItems(items: seq<Item>): Tokens {
    if items == [] then [] else [COMMA, BLANK, ItemNode(items[0])] + MoreItems(items[1..])
  }

  function NameToks(names: seq<string>): Tokens {
    if names == [] then [] else [Name(names[0])] + MoreNames(names[1..])
  }

  function MoreNames(names: seq<string>): Tokens {
    if names == [] then [] else [COMMA, BLANK, Name(names[0])] + MoreNames(names[1..])
  }

  function Paren(q: Query): Node
    decreases q, 1
  {
    Group(Parens, [Transcript.OPEN] + QueryToks(q) + [Transcript.CLOSE])
  }

  function SourceNode(s: Source): Node {
    match s
    case Table(name) => Name(name)
    case Derived(q, name) => Group(Ident, [Paren(q), BLANK, Leaf(OtherLeaf, name)])
  }

  function LinkToks(links: seq<Link>): Tokens {
    if links == [] then []
    else
      [BLANK, Kw(links[0].kind), BLANK, Name(links[0].name), BLANK, Kw("ON"), BLANK, Name(links[0].on)] +
      LinkToks(links[1..])
  }

  function CondNode(c: Cond): Node {
    match c
    case Fact(w) => Name(w)
    case Compared(w, q) => Group(Compare, [Name(w), BLANK, Leaf(OtherLeaf, "="), BLANK, Paren(q)])
  }

  function MoreToks(more: seq<Further>): Tokens {
    if more == [] then [] else [BLANK, Kw(more[0].op), BLANK, CondNode(more[0].cond)] + MoreToks(more[1..])
  }

  function FilterToks(f: Filter): Tokens {
    match f
    case Always => []
    case Only(first, more) => [BLANK, Group(Container, [Kw("WHERE"), BLANK, CondNode(first)] + MoreToks(more))]
  }

  function GroupToks(groups: seq<string>): Tokens {
    if groups == [] then [] else [BLANK, Kw("GROUP BY"), BLANK, Group(IdList, NameToks(groups))]
  }

  function TailToks(t: Tail): Tokens {
    match t
    case Last => []
    case Then(op, q) => [BLANK, Kw(op), BLANK] + QueryToks(q)
  }

  function QueryToks(q: Query): Tokens
    decreases q, 0
  {
    [SELECT, BLANK, Group(IdList, ItemToks(q.items)), BLANK, Kw("FROM"), BLANK, SourceNode(q.source)] +
    (LinkToks(q.links) + (FilterToks(q.filter) + (GroupToks(q.groups) + TailToks(q.tail))))
  }

  // ---------------------------------------------------------------------
  // Layout
  // ---------------------------------------------------------------------

  function Cased(w: string, upper: bool): string {
    if upper then w else Lower(w)
  }

  // A line break and the given number of blanks.
  function Line(n: nat): string {
    "\n" + Spaces(n)
  }

  // What is left of the seven columns of a keyword.
  function Room(n: nat): nat {
    if n < 7 then 7 - n else 0
  }

  // Every clause keyword, JOIN, ON, AND and OR ends its first word in the same column.
  function Opening(b: nat, w: string, upper: bool): string {
    Spaces(6 * b + Room(IndexOf(w, ' '))) + Cased(w, upper) + " "
  }

  // WHEN and ELSE five columns right of the CASE expression, END below it; the keywords
  // of a CASE expression stay in the case they have.
  function ArmText(a: Arm): string {
    "WHEN " + a.test + " THEN " + a.result
  }

  function MoreArms(arms: seq<Arm>, column: nat): string {
    if arms == [] then "" else Line(column + 5) + ArmText(arms[0]) + MoreArms(arms[1..], column)
  }

  function ItemText(item: Item, column: nat): string {
    match item
    case Plain(w) => w
    case Cases(arms, other) =>
      "CASE " + (if arms == [] then "" else ArmText(arms[0]) + MoreArms(arms[1..], column)) +
      Line(column + 5) + "ELSE " + other + Line(column) + "END"
  }

  // One item below the other.
  function MoreItemText(items: seq<Item>, column: nat): string {
    if items == [] then "" else "," + Line(column) + ItemText(items[0], column) + MoreItemText(items[1..], column)
  }

  function ItemsText(items: seq<Item>, column: nat): string {
    if items == [] then "" else ItemText(items[0], column) + MoreItemText(items[1..], column)
  }

  function SourceText(s: Source, b: nat, upper: bool): string {
    match s
    case Table(name) => name
    case Derived(q, name) => "(\n" + Lay(q, b + 1, upper) + Line(6 * b + 8) + ") " + name
  }

  function LinkText(links: seq<Link>, b: nat, upper: bool): string {
    if links == [] then ""
    else
      "\n" + Opening(b, links[0].kind, upper) + links[0].name + Line(6 * b + 5) + Cased("ON", upper) + " " +
      links[0].on + LinkText(links[1..], b, upper)
  }

  // A subquery compared with is laid out by itself and moved to its column.
  function CondText(c: Cond, column: nat, upper: bool): string {
    match c
    case Fact(w) => w
    case Compared(w, q) =>
      w + " = (" + Reindent(Lay(q, 0, upper)[1..], column + |w| + 3) + ")"
  }

  function MoreText(more: seq<Further>, b: nat, upper: bool): string {
    if more == [] then ""
    else
      Line(6 * b + Room(|more[0].op|)) + Cased(more[0].op, upper) + " " + CondText(more[0].cond, 6 * b + 8, upper) +
      MoreText(more[1..], b, upper)
  }

  function FilterText(f: Filter, b: nat, upper: bool): string {
    match f
    case Always => ""
    case Only(first, more) =>
      Line(6 * b + 2) + Cased("WHERE", upper) + " " + CondText(first, 6 * b + 8, upper) + MoreText(more, b, upper)
  }

  function GroupText(groups: seq<string>, b: nat, upper: bool): string {
    if groups == [] then "" else Line(6 * b + 2) + Cased("GROUP BY", upper) + " " + Join(", ", groups)
  }

  // A set operator and what follows it are laid out from the margin, also in a subquery.
  function TailText(t: Tail, upper: bool): string {
    match t
    case Last => ""
    case Then(op, q) =>
      Line(Room(IndexOf(op, ' '))) + Cased(op, upper) + "\n" + Lay(q, 0, upper)
  }

  function Lay(q: Query, b: nat, upper: bool): (r: string)
    ensures r != ""
  {
    Spaces(6 * b + 1) +
    (Cased("SELECT", upper) + " " + ItemsText(q.items, 6 * b + 8) +
     Line(6 * b + 3) + Cased("FROM", upper) + " " + SourceText(q.source, b, upper) +
     LinkText(q.links, b, upper) + FilterText(q.filter, b, upper) + GroupText(q.groups, b, upper) +
     TailText(q.tail, upper))
  }

  // ---------------------------------------------------------------------
  // The queries meant
  // ---------------------------------------------------------------------

  // A name or a number: no whitespace, and nothing that makes an expression of it.
  predicate Wordy(w: string) {
    w != "" && forall c :: c in w ==> !IsSpace(c) && c !in "()+-*/|"
  }

  predicate ItemOk(item: Item) {
    match item
    case Plain(w) => Wordy(w)
    case Cases(arms, other) =>
      arms != [] && Wordy(other) && forall k :: 0 <= k < |arms| ==> Wordy(arms[k].test) && Wordy(arms[k].result)
  }

  predicate LinkOk(l: Link) {
    l.kind in JOINS && Normalize(l.kind) == l.kind && IndexOf(l.kind, ' ') <= 7 && Wordy(l.name) && Wordy(l.on)
  }

  predicate SourceOk(s: Source) {
    match s
    case Table(name) => Wordy(name)
    case Derived(q, name) => Wordy(name) && QueryOk(q)
  }

  // A subquery simple enough to stay on one line is left out here.
  predicate CondOk(c: Cond) {
    match c
    case Fact(w) => Wordy(w)
    case Compared(w, q) => Wordy(w) && QueryOk(q) && !IsSimpleSubquery(Paren(q)) && Nesting(q) <= 30
  }

  predicate FurtherOk(f: Further) {
    f.op in {"AND", "OR"} && CondOk(f.cond)
  }

  predicate FilterOk(f: Filter) {
    match f
    case Always => true
    case Only(first, more) => CondOk(first) && forall k :: 0 <= k < |more| ==> FurtherOk(more[k])
  }

  predicate TailOk(t: Tail) {
    match t
    case Last => true
    case Then(op, q) => op in SET_OPS && Normalize(op) == op && QueryOk(q)
  }

  predicate QueryOk(q: Query) {
    && q.items != [] && (forall k :: 0 <= k < |q.items| ==> ItemOk(q.items[k]))
    && SourceOk(q.source)
    && (forall k :: 0 <= k < |q.links| ==> LinkOk(q.links[k]))
    && FilterOk(q.filter)
    && (forall k :: 0 <= k < |q.groups| ==> Wordy(q.groups[k]))
    && TailOk(q.tail)
  }

  // How deep queries nest in FROM.
  function Nesting(q: Query): nat {
    var inside := match q.source case Table(_) => 0 case Derived(p, _) => 1 + Nesting(p);
    var behind := match q.tail case Last => 0 case Then(_, p) => Nesting(p);
    if inside > behind then inside else behind
  }
}
