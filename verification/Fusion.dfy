// Where tokens get fused: a readable condition under which none are, and the
// two constructs that do fuse them.
module Fusion {
  import opened Text
  import opened SqlTree
  import opened Rendering
  import opened Preservation
  import opened Probe
  import opened Separation

  // ---------------------------------------------------------------------
  // A fused pair of tokens is never repaired
  // ---------------------------------------------------------------------

  lemma {:induction false} ListStays(toks: Tokens, p: Probe)
    ensures ProbeList(toks, p).ok ==> p.ok
    decreases SizeList(toks), 3, 0
  {
    FromStays(toks, 0, BetweenAnds(toks), p);
  }

  // The token the dry run comes to behind toks[i], and what it has become by then.
  function Next(toks: Tokens, i: nat): (n: nat)
    requires i < |toks|
    ensures i < n <= |toks|
  {
    if IsKeyword(toks[i]) then i + 1 + ResolveKeyword(toks, i).1 else i + 1
  }

  function Stepped(toks: Tokens, i: nat, bounds: set<nat>, p: Probe): Probe
    requires i < |toks|
  {
    var tok := toks[i];
    if IsBlankLeaf(tok) then Skipped(p, tok.value)
    else if IsPunct(tok, ",") || IsPunct(tok, ";") then Write(p, tok.value).(comma := true)
    else if IsKeyword(tok) then ProbeKeyword(toks, i, bounds, p)
    else if tok.Group? then ProbeGroup(tok, Broken(p))
    else WriteWord(Broken(p), tok.value)
  }

  lemma FromNext(toks: Tokens, i: nat, bounds: set<nat>, p: Probe)
    requires i < |toks|
    ensures ProbeFrom(toks, i, bounds, p) == ProbeFrom(toks, Next(toks, i), bounds, Stepped(toks, i, bounds, p))
  {
    hide Skipped, Write, ProbeKeyword, ProbeGroup, WriteWord, Broken, ResolveKeyword;
  }

  lemma {:induction false} FromStays(toks: Tokens, i: nat, bounds: set<nat>, p: Probe)
    requires i <= |toks|
    ensures ProbeFrom(toks, i, bounds, p).ok ==> p.ok
    decreases SizeList(toks), 2, |toks| - i
  {
    hide Stepped, Next;
    if i < |toks| {
      FromNext(toks, i, bounds, p);
      StepStays(toks, i, bounds, p);
      FromStays(toks, Next(toks, i), bounds, Stepped(toks, i, bounds, p));
    }
  }

  lemma {:induction false} StepStays(toks: Tokens, i: nat, bounds: set<nat>, p: Probe)
    requires i < |toks|
    ensures Stepped(toks, i, bounds, p).ok ==> p.ok
    decreases SizeList(toks), 1, 1
  {
    hide Nest, KindAt, Cells, Canon, ValueList, LastOf, Fuses, ResolveKeyword, ProbeGroup;
    if toks[i].Group? {
      SizeMember(toks, i);
      GroupStays(toks[i], Broken(p));
    }
  }

  lemma {:induction false} GroupStays(node: Node, p: Probe)
    requires node.Group?
    ensures ProbeGroup(node, p).ok ==> p.ok
    decreases Size(node), 1, 0
  {
    hide Cells, Canon, ValueList, LastOf, Fuses;
    match node.group
    case CaseExpr => CaseStays(node.kids, 0, p, true);
    case Parens =>
      ParensStay(node, p);
    case IdList => ListStays(node.kids, p);
    case Ident => ListStays(node.kids, p);
    case Compare => if ContainsSubquery(node.kids) { ComparisonStays(node, p); }
    case FuncCall =>
    case Container => ListStays(node.kids, p);
  }

  lemma {:induction false} ParensStay(node: Node, p: Probe)
    requires node.Group?
    ensures ProbeParens(node, p).ok ==> p.ok
    decreases Size(node), 0, 0
  {
    hide Cells, Canon, ValueList, LastOf, Fuses;
    if HasSelect(node.kids, SELECT_DEPTH) && p.depth < MAX_DEPTH {
      ListStays(Inner(node.kids), Write(Flushed(p), "(").(depth := p.depth + 1));
    }
  }

  lemma ComparisonStays(node: Node, p: Probe)
    requires node.Group? && ContainsSubquery(node.kids)
    ensures ProbeComparison(node, p).ok ==> p.ok
  {
    hide Cells, Canon, ValueList, LastOf, Fuses;
    OperandsStay(node.kids[..FirstSubquery(node.kids)], p);
  }

  lemma {:induction false} CaseGroupStays(tok: Node, p: Probe)
    requires tok.Group?
    ensures ProbeCaseGroup(tok, p).ok ==> p.ok
    decreases Size(tok), 2, 0
  {
    hide Cells, Canon, ValueList, LastOf, Fuses;
    if IsSubqueryComparison(tok) {
      ComparisonStays(tok, p);
    } else {
      GroupStays(tok, Flushed(p));
    }
  }

  lemma {:induction false} OperandsStay(toks: Tokens, p: Probe)
    ensures ProbeOperands(toks, p).ok ==> p.ok
  {
    hide Cells, Canon, LastOf, Fuses;
    if toks != [] {
      var v := Value(toks[0]);
      OperandsStay(toks[1..], if IsBlankLeaf(toks[0]) || !IsOperand(toks[0]) then Skipped(p, v) else WriteWord(p, v));
    }
  }

  lemma {:induction false} CaseStays(kids: Tokens, i: nat, p: Probe, firstWhen: bool)
    requires i <= |kids|
    ensures ProbeCase(kids, i, p, firstWhen).ok ==> p.ok
    decreases SizeList(kids), 2, |kids| - i
  {
    hide Cells, Canon, LastOf, Fuses, Normalize;
    if i < |kids| {
      var tok := kids[i];
      if IsKeyword(tok) && Normalize(tok.value) == "WHEN" {
        CaseStays(kids, i + 1, ProbeWhen(tok, p, firstWhen), false);
      } else if tok.Leaf? {
        CaseStays(kids, i + 1, ProbeCaseLeaf(tok, p), firstWhen);
      } else {
        SizeMember(kids, i);
        CaseGroupStays(tok, p);
        CaseStays(kids, i + 1, ProbeCaseGroup(tok, p), firstWhen);
      }
    }
  }

  // ---------------------------------------------------------------------
  // A readable sufficient condition
  // ---------------------------------------------------------------------

  // Keywords that open a line of their own.
  predicate OpensLine(kind: KeywordKind) {
    kind in {Clause, JoinOp, SetOp, Logical, On, BlockStart}
  }

  // toks[j] may directly follow a set operator: it opens a line, or its text
  // starts with a parenthesis.
  predicate MayFollowSetOp(toks: Tokens, j: nat)
    requires j < |toks|
  {
    if IsKeyword(toks[j]) then OpensLine(KindAt(toks, j, BetweenAnds(toks)))
    else toks[j].Group? && toks[j].group.Parens?
  }

  // In its own list, a set operator is followed by a keyword that opens a line
  // or by a parenthesis, and a BEGIN by some token.
  predicate TidyKeyword(toks: Tokens, i: nat)
    requires i < |toks| && IsKeyword(toks[i])
  {
    var kind := KindAt(toks, i, BetweenAnds(toks));
    var next := NextVisible(toks, i + 1 + ResolveKeyword(toks, i).1);
    && (kind.SetOp? ==> next < |toks| && MayFollowSetOp(toks, next))
    && (kind.BlockStart? ==> next < |toks|)
  }

  predicate TidyList(toks: Tokens, depth: int)
    decreases SizeList(toks), 2, 0
  {
    forall i :: 0 <= i < |toks| ==>
      && (IsKeyword(toks[i]) ==> TidyKeyword(toks, i))
      && (SizeMember(toks, i); toks[i].Group? ==> Tidy(toks[i], depth))
  }

  // A CASE expression starts with CASE WHEN: it has no operand.
  predicate TidyCase(kids: Tokens, depth: int)
    decreases SizeList(kids), 3, 0
  {
    && kids != [] && IsKeyword(kids[0]) && Normalize(kids[0].value) == "CASE"
    && (var w := NextVisible(kids, 1); w < |kids| && IsKeyword(kids[w]) && Normalize(kids[w].value) == "WHEN")
    && forall i :: 0 <= i < |kids| ==> (SizeMember(kids, i); kids[i].Group? ==> TidyInCase(kids[i], depth))
  }

  predicate TidyInCase(tok: Node, depth: int)
    requires tok.Group?
    decreases Size(tok), 2, 0
  {
    if IsSubqueryComparison(tok) then TidyComparison(tok)
    else (tok.group.Ident? || tok.group.Compare?) || Tidy(tok, depth)
  }

  // The rule, in every part of the tree that is laid out rather than copied.
  predicate Tidy(node: Node, depth: int)
    requires node.Group?
    decreases Size(node), 1, 0
  {
    match node.group
    case CaseExpr => TidyCase(node.kids, depth)
    case Parens => HasSelect(node.kids, SELECT_DEPTH) && depth < MAX_DEPTH ==> TidyList(Inner(node.kids), depth + 1)
    case IdList => TidyList(node.kids, depth)
    case Ident => IdentNeedsRecursion(node.kids) ==> TidyList(node.kids, depth)
    case Compare => ContainsSubquery(node.kids) ==> TidyComparison(node)
    case FuncCall => true
    case Container => TidyList(node.kids, depth)
  }

  predicate TidyComparison(node: Node)
    requires node.Group? && ContainsSubquery(node.kids)
    decreases Size(node), 0, 0
  {
    var s := FirstSubquery(node.kids);
    SizeMember(node.kids, s);
    IsSimpleSubquery(node.kids[s]) || TidyList(Inner(node.kids[s].kids), 0)
  }

  // Nothing fused, and nothing written next can be.
  predicate Calm(p: Probe) {
    p.ok && (p.loose || p.space || IsDelim(p.prev))
  }

  // As Calm, a pending line break counting as well.
  predicate CalmInList(p: Probe) {
    p.ok && (p.loose || p.space || p.comma || IsDelim(p.prev))
  }

  lemma WordIsCalm(p: Probe, v: string)
    requires Calm(p)
    ensures Calm(WriteWord(p, v)) && Calm(Write(p.(loose := true), v).(space := true)) && Calm(Flushed(p)) &&
      Calm(Skipped(p, v))
    ensures Calm(Write(Flushed(p), v).(loose := true))
  {
    hide Cells, Canon, LastOf, Trail;
  }

  lemma BrokenIsCalm(p: Probe)
    requires CalmInList(p)
    ensures Calm(Broken(p))
  {
  }

  lemma LineIsCalm(p: Probe, v: string)
    requires p.ok
    ensures WriteLine(p, v).ok
  {
    hide Cells, Canon, LastOf;
  }

  // How far the text before toks[i] constrains what comes next.
  predicate Ready(toks: Tokens, i: nat, p: Probe)
    requires i <= |toks|
  {
    || Calm(p)
    || (p.ok && NextVisible(toks, i) < |toks| && MayFollowSetOp(toks, NextVisible(toks, i)))
    || (p.ok && NextVisible(toks, i) < |toks| && p.comma)
    || (p.ok && p.comma && IsDelim(p.prev))
  }

  lemma {:induction false} ListCalm(toks: Tokens, p: Probe)
    requires AllWellFormed(toks) && TidyList(toks, p.depth) && Calm(p)
    ensures Calm(ProbeList(toks, p)) && ProbeList(toks, p).depth == p.depth
    decreases SizeList(toks), 3, 0
  {
    CalmIsReady(toks, 0, p);
    FromCalm(toks, 0, p);
  }

  lemma KeywordCalm(toks: Tokens, i: nat, p: Probe)
    requires i < |toks| && IsKeyword(toks[i]) && TidyKeyword(toks, i)
    requires Ready(toks, i, p)
    ensures Ready(toks, i + 1 + ResolveKeyword(toks, i).1, ProbeKeyword(toks, i, BetweenAnds(toks), p))
    ensures ProbeKeyword(toks, i, BetweenAnds(toks), p).depth == p.depth
  {
    hide Cells, Canon, LastOf, Fuses, ValueList, ResolveKeyword, KindAt, Classify, IsBound, BetweenAnds;
    var bounds := BetweenAnds(toks);
    var (norm, extra) := ResolveKeyword(toks, i);
    var v := ValueList(toks[i..i + 1 + extra]);
    var (kind, origins) := Nest(KindAt(toks, i, bounds), p.origins);
    var q := p.(origins := origins, comma := if KeepsCommaBreak(kind) then p.comma else false);
    assert NextVisible(toks, i) == i;
    match kind {
      case Clause =>
      case JoinOp =>
      case Logical =>
      case On =>
      case SetOp =>
      case BlockStart =>
      case BlockEnd =>
      case _ =>
        assert CalmInList(q);
        BrokenIsCalm(q);
        WordIsCalm(Broken(q), v);
    }
  }

  lemma ReadyBlank(toks: Tokens, i: nat, p: Probe)
    requires i < |toks| && IsBlankLeaf(toks[i]) && Ready(toks, i, p)
    ensures Ready(toks, i + 1, Skipped(p, toks[i].value)) && Skipped(p, toks[i].value).depth == p.depth
  {
    hide Trail, MayFollowSetOp;
  }

  lemma ReadyEnd(toks: Tokens, p: Probe)
    requires Ready(toks, |toks|, p)
    ensures Calm(p)
  {
    hide MayFollowSetOp;
  }

  // What Ready says when a visible token is next.
  lemma ReadyAt(toks: Tokens, i: nat, p: Probe)
    requires i < |toks| && !IsBlankLeaf(toks[i]) && !IsKeyword(toks[i]) && Ready(toks, i, p)
    ensures p.ok
    ensures toks[i].Leaf? ==> CalmInList(p)
    ensures toks[i].Group? ==> GroupFits(toks[i], Broken(p)) && Broken(p).depth == p.depth
  {
    hide KindAt, BetweenAnds;
    assert NextVisible(toks, i) == i;
  }

  lemma CalmIsReady(toks: Tokens, i: nat, p: Probe)
    requires i <= |toks| && Calm(p)
    ensures Ready(toks, i, p)
  {
    hide MayFollowSetOp;
  }

  lemma LeafCalm(p: Probe, v: string)
    requires CalmInList(p)
    ensures Calm(WriteWord(Broken(p), v)) && WriteWord(Broken(p), v).depth == p.depth
  {
    hide Fuses, LastOf, Trail;
    BrokenIsCalm(p);
    WordIsCalm(Broken(p), v);
  }

  lemma {:induction false} FromCalm(toks: Tokens, i: nat, p: Probe)
    requires i <= |toks| && AllWellFormed(toks) && TidyList(toks, p.depth) && Ready(toks, i, p)
    ensures var q := ProbeFrom(toks, i, BetweenAnds(toks), p); Calm(q) && q.depth == p.depth
    decreases SizeList(toks), 2, |toks| - i
  {
    hide Ready, Calm, CalmInList, GroupFits, ResolveKeyword, BetweenAnds, ProbeKeyword, ProbeGroup, TidyKeyword,
      Tidy, Write, WriteWord, Broken, Skipped, WellFormed;
    var bounds := BetweenAnds(toks);
    if i == |toks| {
      ReadyEnd(toks, p);
    } else {
      var tok := toks[i];
      SizeMember(toks, i);
      if IsBlankLeaf(tok) {
        ReadyBlank(toks, i, p);
        FromCalm(toks, i + 1, Skipped(p, tok.value));
      } else if IsKeyword(tok) {
        KeywordCalm(toks, i, p);
        FromCalm(toks, i + 1 + ResolveKeyword(toks, i).1, ProbeKeyword(toks, i, bounds, p));
      } else {
        ReadyAt(toks, i, p);
        var q := if IsPunct(tok, ",") || IsPunct(tok, ";") then Write(p, tok.value).(comma := true)
                 else if tok.Group? then ProbeGroup(tok, Broken(p))
                 else WriteWord(Broken(p), tok.value);
        if IsPunct(tok, ",") || IsPunct(tok, ";") {
          PunctCalm(tok, p);
        } else if tok.Group? {
          GroupCalm(tok, Broken(p));
        } else {
          LeafCalm(p, tok.value);
        }
        CalmIsReady(toks, i + 1, q);
        FromCalm(toks, i + 1, q);
      }
    }
  }

  lemma PunctCalm(tok: Node, p: Probe)
    requires IsPunct(tok, ",") || IsPunct(tok, ";")
    requires p.ok
    ensures var q := Write(p, tok.value).(comma := true); Calm(q) && q.depth == p.depth
  {
    assert tok.value[1..] == "";
    assert Cells(tok.value, p.gap) == [Cell(tok.value[0], p.gap)];
    assert Canon(tok.value) == tok.value;
  }

  // A group may stand where the text is calm, and a parenthesis anywhere.
  predicate GroupFits(node: Node, p: Probe)
    requires node.Group?
  {
    Calm(p) || (p.ok && node.group.Parens?)
  }

  lemma {:induction false} GroupCalm(node: Node, p: Probe)
    requires node.Group? && WellFormed(node) && Tidy(node, p.depth) && GroupFits(node, p)
    ensures Calm(ProbeGroup(node, p)) && ProbeGroup(node, p).depth == p.depth
    decreases Size(node), 1, 0
  {
    hide Cells, Canon, LastOf, Fuses, ValueList, Value, HasSelect, TidyList, ProbeList, Inner;
    match node.group
    case CaseExpr =>
      WordIsCalm(p, Value(node));
      CaseCalm(node.kids, p);
    case Parens => ParensCalm(node, p);
    case IdList =>
      WordIsCalm(p, Value(node));
      ListCalm(node.kids, p);
    case Ident =>
      WordIsCalm(p, Value(node));
      if IdentNeedsRecursion(node.kids) { ListCalm(node.kids, p); }
    case Compare =>
      WordIsCalm(p, Value(node));
      if ContainsSubquery(node.kids) { ComparisonCalm(node, p); }
    case FuncCall => WordIsCalm(p, Value(node));
    case Container =>
      WordIsCalm(p, Value(node));
      ListCalm(node.kids, p);
  }

  lemma {:induction false} ParensCalm(node: Node, p: Probe)
    requires node.Group? && node.group.Parens? && WellFormed(node) && Tidy(node, p.depth) && p.ok
    ensures Calm(ProbeParens(node, p)) && ProbeParens(node, p).depth == p.depth
    decreases Size(node), 0, 0
  {
    hide HasSelect, ProbeList, TidyList, Inner, Cells, Canon, LastOf, Fuses, Value;
    ParenOpens(node, Flushed(p));
    if HasSelect(node.kids, SELECT_DEPTH) && p.depth < MAX_DEPTH {
      InnerOfPaired(node.kids);
      var p0 := Write(Flushed(p), "(").(depth := p.depth + 1);
      assert LastOf(Flushed(p).prev, "(") == '(' by { ParenLast(Flushed(p).prev); }
      ListCalm(Inner(node.kids), p0);
      LineIsCalm(ProbeList(Inner(node.kids), p0), ")");
    }
  }

  lemma ParenLast(prev: char)
    ensures LastOf(prev, "(") == '('
  {
    assert Canon("(") == "(";
  }

  lemma ParenOpens(node: Node, p: Probe)
    requires node.Group? && node.group.Parens? && WellFormed(node)
    ensures !Fuses(p, Value(node)) && !Fuses(p, "(")
  {
    InnerOfPaired(node.kids);
    assert Value(node)[0] == '(';
  }

  lemma {:induction false} CaseCalm(kids: Tokens, p: Probe)
    requires AllWellFormed(kids) && TidyCase(kids, p.depth) && Calm(p)
    ensures var q := ProbeCase(kids, 0, p, true); Calm(q) && q.depth == p.depth
    decreases SizeList(kids), 3, 0
  {
    hide Cells, Canon, LastOf, Fuses, Normalize;
    var p1 := ProbeCaseLeaf(kids[0], p);
    WordIsCalm(p, kids[0].value);
    assert p1.loose;
    CaseOpening(kids, 1, p1);
  }

  // Between CASE and the first WHEN there is whitespace only.
  lemma {:induction false} CaseOpening(kids: Tokens, i: nat, p: Probe)
    requires 1 <= i <= |kids| && AllWellFormed(kids) && TidyCase(kids, p.depth)
    requires i <= NextVisible(kids, 1) && Calm(p) && p.loose
    ensures var q := ProbeCase(kids, i, p, true); Calm(q) && q.depth == p.depth
    decreases SizeList(kids), 2, |kids| - i
  {
    hide Cells, Canon, LastOf, Fuses, Normalize, TidyInCase, ProbeCaseGroup, Trail, WellFormed;
    var w := NextVisible(kids, 1);
    var tok := kids[i];
    if i == w {
      CaseRest(kids, i + 1, ProbeWhen(tok, p, true));
    } else {
      CaseOpening(kids, i + 1, Skipped(p, tok.value));
    }
  }

  lemma CaseLeafCalm(tok: Node, p: Probe)
    requires tok.Leaf? && Calm(p)
    ensures Calm(ProbeWhen(tok, p, false)) && ProbeWhen(tok, p, false).depth == p.depth
    ensures Calm(ProbeCaseLeaf(tok, p)) && ProbeCaseLeaf(tok, p).depth == p.depth
  {
    hide Cells, Canon, LastOf, Fuses, Normalize, Trail;
    WordIsCalm(p, tok.value);
  }

  lemma {:induction false} CaseRest(kids: Tokens, i: nat, p: Probe)
    requires i <= |kids| && AllWellFormed(kids) && TidyCase(kids, p.depth) && Calm(p)
    ensures var q := ProbeCase(kids, i, p, false); Calm(q) && q.depth == p.depth
    decreases SizeList(kids), 2, |kids| - i
  {
    hide Calm, Normalize, ProbeWhen, ProbeCaseLeaf, ProbeCaseGroup, TidyInCase, WellFormed;
    if i < |kids| {
      var tok := kids[i];
      if tok.Leaf? {
        CaseLeafCalm(tok, p);
        if IsKeyword(tok) && Normalize(tok.value) == "WHEN" {
          CaseRest(kids, i + 1, ProbeWhen(tok, p, false));
        } else {
          CaseRest(kids, i + 1, ProbeCaseLeaf(tok, p));
        }
      } else {
        SizeMember(kids, i);
        CaseGroupCalm(tok, p);
        CaseRest(kids, i + 1, ProbeCaseGroup(tok, p));
      }
    }
  }

  lemma {:induction false} CaseGroupCalm(tok: Node, p: Probe)
    requires tok.Group? && WellFormed(tok) && TidyInCase(tok, p.depth) && Calm(p)
    ensures Calm(ProbeCaseGroup(tok, p)) && ProbeCaseGroup(tok, p).depth == p.depth
    decreases Size(tok), 2, 0
  {
    hide Cells, Canon, LastOf, Fuses;
    WordIsCalm(p, Value(tok));
    if IsSubqueryComparison(tok) {
      ComparisonCalm(tok, p);
    } else if !tok.group.Ident? && !tok.group.Compare? {
      GroupCalm(tok, Flushed(p));
    }
  }

  lemma {:induction false} OperandsCalm(toks: Tokens, p: Probe)
    requires AllWellFormed(toks) && Calm(p)
    ensures ProbeOperands(toks, p).ok && ProbeOperands(toks, p).depth == p.depth
  {
    hide Cells, Canon, LastOf, Fuses;
    if toks != [] {
      var v := Value(toks[0]);
      WordIsCalm(p, v);
      if IsBlankLeaf(toks[0]) {
        OperandsCalm(toks[1..], Skipped(p, v));
      } else if IsOperand(toks[0]) {
        OperandsCalm(toks[1..], WriteWord(p, v));
      } else {
        OperandsCalm(toks[1..], Skipped(p, v));
      }
    }
  }

  lemma {:induction false} ComparisonCalm(node: Node, p: Probe)
    requires node.Group? && ContainsSubquery(node.kids) && WellFormed(node) && TidyComparison(node) && Calm(p)
    ensures Calm(ProbeComparison(node, p)) && ProbeComparison(node, p).depth == p.depth
    decreases Size(node), 0, 0
  {
    hide Cells, Canon, LastOf, Fuses, IsSimpleSubquery, ProbeList, TidyList, Inner;
    var s := FirstSubquery(node.kids);
    SizeMember(node.kids, s);
    if IsSimpleSubquery(node.kids[s]) {
      WordIsCalm(p, Value(node));
    } else {
      OperandsCalm(node.kids[..s], p);
      InnerOfPaired(node.kids[s].kids);
      ListCalm(Inner(node.kids[s].kids), BEGINNING);
    }
  }

  // In a tidy tree that drops nothing, formatting shows exactly the tokens.
  lemma TidyKeepsTokens(toks: Tokens, uppercase: bool)
    requires AllWellFormed(toks) && DroplessList(toks, 0) && TidyList(toks, 0)
    ensures ShowsTokens(toks, FormatTokens(toks, uppercase))
  {
    hide ShowsTokens, FormatTokens, ProbeList, TidyList, DroplessList;
    ListCalm(toks, BEGINNING);
    FormattingKeepsTokens(toks, uppercase);
  }

  // ---------------------------------------------------------------------
  // CASE with an operand
  // ---------------------------------------------------------------------

  lemma {:induction false} LastIsVisible(prev: char, v: string)
    requires v != "" && !IsSpace(v[|v| - 1])
    ensures LastOf(prev, v) == Up(v[|v| - 1])
    ensures !IsDelim(v[|v| - 1]) ==> !IsDelim(LastOf(prev, v))
  {
    var a, b := v[..|v| - 1], [v[|v| - 1]];
    assert v == a + b;
    CanonAppend(a, b);
    assert b[1..] == "";
  }

  lemma FirstIsVisible(v: string, g: bool)
    requires v != "" && !IsSpace(v[0])
    ensures Cells(v, g) != [] && Cells(v, g)[0] == Cell(Up(v[0]), g)
  {
  }

  // A node written as one word when it stands in a CASE expression.
  predicate IsPlainOperand(tok: Node) {
    if tok.Leaf? then !IsBlankLeaf(tok) && !IsKeyword(tok)
    else tok.group.Ident? || tok.group.FuncCall? || (tok.group.Compare? && !IsSubqueryComparison(tok))
  }

  predicate IsWhen(tok: Node) {
    IsKeyword(tok) && Normalize(tok.value) == "WHEN"
  }

  // Before the first WHEN the dry run goes from token to token.
  lemma {:induction false} BeforeWhen(kids: Tokens, i: nat, n: nat, p: Probe) returns (q: Probe)
    requires i <= n <= |kids| && forall k :: i <= k < n ==> !IsWhen(kids[k])
    ensures ProbeCase(kids, i, p, true) == ProbeCase(kids, n, q, true)
    decreases n - i
  {
    hide Normalize, ProbeCaseLeaf, ProbeCaseGroup;
    if i == n {
      q := p;
    } else {
      var tok := kids[i];
      SizeMember(kids, i);
      assert !IsWhen(tok);
      var p1 := if tok.Leaf? then ProbeCaseLeaf(tok, p) else ProbeCaseGroup(tok, p);
      assert ProbeCase(kids, i, p, true) == ProbeCase(kids, i + 1, p1, true);
      q := BeforeWhen(kids, i + 1, n, p1);
    }
  }

  // Behind blanks whitespace is due, but nothing was written.
  lemma {:induction false} OverBlanks(kids: Tokens, i: nat, n: nat, p: Probe) returns (q: Probe)
    requires i <= n <= |kids| && (forall k :: i <= k < n ==> IsBlankLeaf(kids[k]) && WellFormed(kids[k]))
    ensures ProbeCase(kids, i, p, true) == ProbeCase(kids, n, q, true)
    ensures q.ok == p.ok && q.prev == p.prev && q.loose == p.loose
    ensures q.gap <==> p.gap || exists k :: i <= k < n && Value(kids[k]) != ""
    decreases n - i
  {
    hide Normalize;
    if i == n {
      q := p;
    } else {
      var tok := kids[i];
      var p1 := Skipped(p, tok.value);
      assert ProbeCase(kids, i, p, true) == ProbeCase(kids, i + 1, p1, true);
      q := OverBlanks(kids, i + 1, n, p1);
    }
  }

  lemma OperandWord(kids: Tokens, i: nat, p: Probe) returns (q: Probe)
    requires i < |kids| && IsPlainOperand(kids[i])
    ensures ProbeCase(kids, i, p, true) == ProbeCase(kids, i + 1, q, true)
    ensures !q.loose && q.prev == LastOf(p.prev, Value(kids[i]))
  {
    hide Normalize, Cells, Canon, LastOf, Fuses, Value, ProbeCaseGroup;
    var tok := kids[i];
    SizeMember(kids, i);
    if tok.Leaf? {
      LeafValue(tok);
      q := WriteWord(p, tok.value);
      SamePrev(p, tok.value);
    } else {
      q := OperandGroup(tok, p);
    }
  }

  lemma OperandGroup(tok: Node, p: Probe) returns (q: Probe)
    requires tok.Group? && IsPlainOperand(tok)
    ensures q == ProbeCaseGroup(tok, p) && !q.loose && q.prev == LastOf(p.prev, Value(tok))
  {
    hide Cells, Canon, LastOf, Fuses, Value;
    SamePrev(p, Value(tok));
    q := ProbeCaseGroup(tok, p);
  }

  lemma SamePrev(p: Probe, v: string)
    ensures Flushed(p).prev == p.prev && LastOf(Flushed(p).prev, v) == LastOf(p.prev, v)
  {
  }

  lemma WhenStarts(when: Node, g: bool)
    requires IsWhen(when) && WellFormed(when)
    ensures Cells(when.value, g) != [] && Cells(when.value, g)[0] == Cell('W', g)
  {
    hide Normalize, Cells;
    NormalizeCells(when.value);
    FirstIsVisible(when.value, g);
    FirstIsVisible(when.value, true);
    FirstIsVisible("WHEN", true);
  }

  // In the dry run, a CASE expression with an operand before its first WHEN fuses the two,
  // unless the operand ends in a delimiter, as a function call does.
  lemma CaseOperandFuses(kids: Tokens, o: nat, w: nat, p: Probe)
    requires o < w < |kids| && AllWellFormed(kids)
    requires (forall k :: 0 <= k < w ==> !IsWhen(kids[k])) && IsWhen(kids[w]) && IsPlainOperand(kids[o])
    requires (forall k :: o < k < w ==> IsBlankLeaf(kids[k])) && exists k :: o < k < w && Value(kids[k]) != ""
    requires forall c :: !IsDelim(LastOf(c, Value(kids[o])))
    ensures !ProbeCase(kids, 0, p, true).ok
  {
    hide Normalize, Cells, Canon, LastOf, Value, WellFormed;
    var p1 := BeforeWhen(kids, 0, o, p);
    var p2 := OperandWord(kids, o, p1);
    var p3 := OverBlanks(kids, o + 1, w, p2);
    WhenStarts(kids[w], p3.gap);
    var p4 := ProbeWhen(kids[w], p3, true);
    assert Fuses(p3, kids[w].value) && !p3.loose;
    assert ProbeCase(kids, w, p3, true) == ProbeCase(kids, w + 1, p4, false);
    CaseStays(kids, w + 1, p4, false);
  }

  // A group on which every dry run fails makes it fail for the list it stands in.
  lemma {:induction false} FromFails(toks: Tokens, i: nat, n: nat, bounds: set<nat>, p: Probe)
    requires i <= n < |toks| && toks[n].Group? && forall q :: !ProbeGroup(toks[n], q).ok
    ensures !ProbeFrom(toks, i, bounds, p).ok
    decreases n - i
  {
    hide ResolveKeyword, ProbeKeyword, ProbeGroup, WriteWord, Write, Broken, Skipped;
    SizeMember(toks, i);
    var tok := toks[i];
    if i == n {
      FromStays(toks, i + 1, bounds, ProbeGroup(tok, Broken(p)));
    } else if IsBlankLeaf(tok) {
      FromFails(toks, i + 1, n, bounds, Skipped(p, tok.value));
    } else if IsPunct(tok, ",") || IsPunct(tok, ";") {
      FromFails(toks, i + 1, n, bounds, Write(p, tok.value).(comma := true));
    } else if IsKeyword(tok) {
      FromFails(toks, i + 1 + ResolveKeyword(toks, i).1, n, bounds, ProbeKeyword(toks, i, bounds, p));
    } else if tok.Group? {
      FromFails(toks, i + 1, n, bounds, ProbeGroup(tok, Broken(p)));
    } else {
      FromFails(toks, i + 1, n, bounds, WriteWord(Broken(p), tok.value));
    }
  }

  // CASE x WHEN ... anywhere in a statement: the formatted text does not show its tokens.
  lemma CaseOperandLosesABoundary(toks: Tokens, n: nat, o: nat, w: nat, uppercase: bool)
    requires AllWellFormed(toks) && DroplessList(toks, 0) && n < |toks| && IsCase(toks[n])
    requires o < w < |toks[n].kids| && IsPlainOperand(toks[n].kids[o]) && IsWhen(toks[n].kids[w])
    requires forall k :: 0 <= k < w ==> !IsWhen(toks[n].kids[k])
    requires forall k :: o < k < w ==> IsBlankLeaf(toks[n].kids[k])
    requires exists k :: o < k < w && Value(toks[n].kids[k]) != ""
    requires forall c :: !IsDelim(LastOf(c, Value(toks[n].kids[o])))
    ensures !ShowsTokens(toks, FormatTokens(toks, uppercase))
  {
    hide Normalize, ShowsTokens, FormatTokens, ProbeCase, DroplessList, BetweenAnds, LastOf, Value, IsPlainOperand,
      IsWhen, IsBlankLeaf;
    var kids := toks[n].kids;
    assert AllWellFormed(kids) by { assert WellFormed(toks[n]); }
    forall q ensures !ProbeGroup(toks[n], q).ok {
      CaseOperandFuses(kids, o, w, q);
    }
    FromFails(toks, 0, n, BetweenAnds(toks), BEGINNING);
    FormattingKeepsTokens(toks, uppercase);
  }

  // CASE x WHEN y END
  const SIMPLE_CASE: Node := Group(CaseExpr, [
    Leaf(Keyword, "CASE"), Leaf(Whitespace, " "), Leaf(OtherLeaf, "x"), Leaf(Whitespace, " "), Leaf(Keyword, "WHEN")]
    + [Leaf(Whitespace, " "), Leaf(OtherLeaf, "y"), Leaf(Whitespace, " "), Leaf(Keyword, "END")])

  lemma SimpleCaseLosesABoundary(uppercase: bool)
    ensures AllWellFormed([SIMPLE_CASE])
    ensures !ShowsTokens([SIMPLE_CASE], FormatTokens([SIMPLE_CASE], uppercase))
  {
    hide Normalize, ShowsTokens, FormatTokens, LastOf;
    var toks, kids := [SIMPLE_CASE], SIMPLE_CASE.kids;
    CapitalsNormal("CASE");
    CapitalsNormal("WHEN");
    SimpleCaseShape();
    assert "CASE"[0] != "WHEN"[0];
    assert kids[2] == Leaf(OtherLeaf, "x") && kids[3] == Leaf(Whitespace, " ") && kids[4] == Leaf(Keyword, "WHEN");
    forall c ensures !IsDelim(LastOf(c, Value(kids[2]))) {
      LastIsVisible(c, "x");
    }
    assert DroplessList(toks, 0) by { SimpleCaseDropless(); }
    CaseOperandLosesABoundary(toks, 0, 2, 4, uppercase);
  }

  lemma SimpleCaseDropless()
    ensures DroplessList([SIMPLE_CASE], 0)
  {
    var toks := [SIMPLE_CASE];
    assert toks[1..] == [] && toks[0] == SIMPLE_CASE;
    LeavesDropless(SIMPLE_CASE.kids, 0);
    assert Dropless(SIMPLE_CASE, 0);
    assert DroplessList([], 0);
  }

  lemma {:induction false} LeavesDropless(kids: Tokens, depth: int)
    requires forall k :: 0 <= k < |kids| ==> kids[k].Leaf?
    ensures DroplessCase(kids, depth) && DroplessList(kids, depth)
  {
    if kids != [] {
      LeavesDropless(kids[1..], depth);
    }
  }

  lemma SimpleCaseShape()
    ensures WellFormed(SIMPLE_CASE)
  {
    var kids := SIMPLE_CASE.kids;
    assert Value(kids[0]) == "CASE" && ValueList(kids)[0] == 'C';
  }

  // ---------------------------------------------------------------------
  // Behind a set operator
  // ---------------------------------------------------------------------

  // What is written right behind a set operator: a keyword that opens no line, or a leaf.
  predicate FollowsTightly(toks: Tokens, j: nat)
    requires j < |toks|
  {
    var next := toks[j];
    && next.Leaf? && !IsBlankLeaf(next) && !IsPunct(next, ",") && !IsPunct(next, ";")
    && (IsKeyword(next) ==> KindAt(toks, j, BetweenAnds(toks)) in {Other, CaseStart, CaseInner, CaseEnd})
  }

  // A statement that starts with a set operator, whitespace and such a token, as EXCEPT
  // ALL read as two keywords: the two are written as one word.
  lemma SetOperatorFuses(toks: Tokens, j: nat, uppercase: bool)
    requires AllWellFormed(toks) && DroplessList(toks, 0) && 0 < j < |toks|
    requires IsKeyword(toks[0]) && Normalize(toks[0].value) in SET_OPS
    requires (forall k :: 0 < k < j ==> IsBlankLeaf(toks[k])) && exists k :: 0 < k < j && Value(toks[k]) != ""
    requires FollowsTightly(toks, j)
    requires !IsDelim(toks[0].value[|toks[0].value| - 1]) && !IsDelim(Up(toks[j].value[0]))
    ensures !ShowsTokens(toks, FormatTokens(toks, uppercase))
  {
    hide Normalize, Cells, Canon, ShowsTokens, FormatTokens, ProbeFrom, BetweenAnds, KindAt, FollowsTightly,
      ProbeKeyword, LastOf, DroplessList, ValueList;
    var bounds := BetweenAnds(toks);
    SetOpFuses(toks, 0, j, bounds, BEGINNING);
    FormattingKeepsTokens(toks, uppercase);
  }

  // Once the dry run has come to a set operator, it fails on such a token behind it.
  lemma SetOpFuses(toks: Tokens, i: nat, j: nat, bounds: set<nat>, p: Probe)
    requires AllWellFormed(toks) && i < j < |toks| && bounds == BetweenAnds(toks)
    requires IsKeyword(toks[i]) && Normalize(toks[i].value) in SET_OPS
    requires (forall k :: i < k < j ==> IsBlankLeaf(toks[k])) && exists k :: i < k < j && Value(toks[k]) != ""
    requires FollowsTightly(toks, j)
    requires p.origins == [] || (IsKeyword(toks[j]) ==> !KindAt(toks, j, bounds).CaseEnd?)
    requires !IsDelim(toks[i].value[|toks[i].value| - 1]) && !IsDelim(Up(toks[j].value[0]))
    ensures !ProbeFrom(toks, i, bounds, p).ok
  {
    hide Normalize, Cells, Canon, ProbeFrom, BetweenAnds, KindAt, FollowsTightly, ProbeKeyword, LastOf, ValueList;
    SetOpKind(toks, i, bounds);
    assert toks[i..i + 1] == [toks[i]];
    SingleMarks(toks[i], true);
    LeafValue(toks[i]);
    SetOpWritten(toks, i, bounds, p);
    var p1 := ProbeKeyword(toks, i, bounds, p);
    var p2 := OverBlanksIn(toks, i + 1, j, bounds, p1);
    FromKeyword(toks, i, bounds, p);
    TightFuses(toks, j, bounds, p2);
  }

  lemma FromKeyword(toks: Tokens, i: nat, bounds: set<nat>, p: Probe)
    requires i < |toks| && IsKeyword(toks[i]) && ResolveKeyword(toks, i).1 == 0
    ensures ProbeFrom(toks, i, bounds, p) == ProbeFrom(toks, i + 1, bounds, ProbeKeyword(toks, i, bounds, p))
  {
    hide ResolveKeyword, ProbeKeyword;
  }

  lemma SetOpKind(toks: Tokens, i: nat, bounds: set<nat>)
    requires i < |toks| && IsKeyword(toks[i]) && Normalize(toks[i].value) in SET_OPS
    ensures ResolveKeyword(toks, i).1 == 0 && KindAt(toks, i, bounds) == SetOp
  {
    hide Normalize, PeekKeyword;
    assert SET_OPS !! CLAUSES && SET_OPS !! JOINS && SET_OPS !! COMPOUND_HEADS;
  }

  lemma SetOpWritten(toks: Tokens, i: nat, bounds: set<nat>, p: Probe)
    requires i < |toks| && IsKeyword(toks[i]) && KindAt(toks, i, bounds) == SetOp && ResolveKeyword(toks, i).1 == 0
    requires ValueList(toks[i..i + 1]) == toks[i].value && WellFormed(toks[i])
    requires !IsDelim(toks[i].value[|toks[i].value| - 1])
    ensures
      var p1 := ProbeKeyword(toks, i, bounds, p);
      !p1.loose && !p1.space && !p1.comma && !IsDelim(p1.prev) && p1.origins == p.origins
  {
    hide Normalize, ResolveKeyword, KindAt, Cells, Canon, LastOf, ValueList;
    LastIsVisible(p.prev, toks[i].value);
  }

  lemma {:induction false} OverBlanksIn(toks: Tokens, i: nat, n: nat, bounds: set<nat>, p: Probe) returns (q: Probe)
    requires i <= n <= |toks| && (forall k :: i <= k < n ==> IsBlankLeaf(toks[k]) && WellFormed(toks[k]))
    ensures ProbeFrom(toks, i, bounds, p) == ProbeFrom(toks, n, bounds, q)
    ensures q == p.(gap := q.gap)
    ensures q.gap <==> p.gap || exists k :: i <= k < n && Value(toks[k]) != ""
    decreases n - i
  {
    if i == n {
      q := p;
    } else {
      var p1 := Skipped(p, toks[i].value);
      assert ProbeFrom(toks, i, bounds, p) == ProbeFrom(toks, i + 1, bounds, p1);
      q := OverBlanksIn(toks, i + 1, n, bounds, p1);
    }
  }

  lemma TightFuses(toks: Tokens, j: nat, bounds: set<nat>, p: Probe)
    requires j < |toks| && bounds == BetweenAnds(toks) && FollowsTightly(toks, j) && AllWellFormed(toks)
    requires p.gap && !p.loose && !p.space && !p.comma && !IsDelim(p.prev)
    requires p.origins == [] || (IsKeyword(toks[j]) ==> !KindAt(toks, j, bounds).CaseEnd?)
    requires !IsDelim(Up(toks[j].value[0]))
    ensures !ProbeFrom(toks, j, bounds, p).ok
  {
    hide Normalize, Cells, Canon, LastOf, ValueList, BetweenAnds, ResolveKeyword, KindAt, WellFormed;
    var next := toks[j];
    assert WellFormed(next);
    if IsKeyword(next) {
      TightKeyword(toks, j, bounds, p);
      FromStays(toks, j + 1 + ResolveKeyword(toks, j).1, bounds, ProbeKeyword(toks, j, bounds, p));
    } else {
      LeafStarts(next, p.gap);
      FromStays(toks, j + 1, bounds, WriteWord(Broken(p), next.value));
    }
  }

  lemma LeafStarts(leaf: Node, g: bool)
    requires leaf.Leaf? && WellFormed(leaf) && !IsBlankLeaf(leaf)
    ensures leaf.value != "" && Cells(leaf.value, g) != [] && Cells(leaf.value, g)[0] == Cell(Up(leaf.value[0]), g)
  {
    FirstIsVisible(leaf.value, g);
  }

  lemma TightKeyword(toks: Tokens, j: nat, bounds: set<nat>, p: Probe)
    requires j < |toks| && IsKeyword(toks[j]) && WellFormed(toks[j])
    requires KindAt(toks, j, bounds) in {Other, CaseStart, CaseInner, CaseEnd}
    requires p.origins == [] || !KindAt(toks, j, bounds).CaseEnd?
    requires p.gap && !p.loose && !p.space && !p.comma && !IsDelim(p.prev)
    requires !IsDelim(Up(toks[j].value[0]))
    ensures !ProbeKeyword(toks, j, bounds, p).ok
  {
    hide Normalize, Canon, LastOf, ValueList, ResolveKeyword, KindAt, Cells, WellFormed;
    var own := toks[j..j + 1 + ResolveKeyword(toks, j).1];
    assert own == [toks[j]] + toks[j + 1..j + 1 + ResolveKeyword(toks, j).1];
    ValueListAppend([toks[j]], toks[j + 1..j + 1 + ResolveKeyword(toks, j).1]);
    SingleMarks(toks[j], true);
    LeafValue(toks[j]);
    LeafStarts(toks[j], p.gap);
    assert ValueList(own)[0] == toks[j].value[0];
    FirstVisible(toks[j]);
    FirstIsVisible(ValueList(own), p.gap);
  }

  lemma FirstVisible(leaf: Node)
    requires leaf.Leaf? && WellFormed(leaf) && !IsBlankLeaf(leaf)
    ensures leaf.value != "" && !IsSpace(leaf.value[0])
  {
  }

  const EXCEPT_ALL: Tokens := [Leaf(Keyword, "EXCEPT"), Leaf(Whitespace, " "), Leaf(Keyword, "ALL")]

  lemma SetOperatorLosesABoundary(uppercase: bool)
    ensures AllWellFormed(EXCEPT_ALL)
    ensures !ShowsTokens(EXCEPT_ALL, FormatTokens(EXCEPT_ALL, uppercase))
  {
    hide Normalize, ShowsTokens, FormatTokens, BetweenAnds, KindAt;
    var toks := EXCEPT_ALL;
    CapitalsNormal("EXCEPT");
    CapitalsNormal("ALL");
    AllIsOther(toks);
    LeavesDropless(toks, 0);
    SetOperatorFuses(toks, 2, uppercase);
  }

  lemma AllIsOther(toks: Tokens)
    requires |toks| == 3 && toks[2] == Leaf(Keyword, "ALL") && Normalize("ALL") == "ALL"
    ensures KindAt(toks, 2, BetweenAnds(toks)) == Other
  {
    hide Normalize, PeekKeyword, BetweenAnds;
    assert "ALL" !in COMPOUND_HEADS;
    assert ResolveKeyword(toks, 2).0 == "ALL";
    AllClass();
  }

  lemma AllClass()
    ensures Classify("ALL") == Other
  {
    AllIsNoClause();
    AllIsNoJoin();
    AllIsNoSetOp();
    assert "AND"[1] != "ALL"[1];
  }

  lemma AllIsNoClause()
    ensures "ALL" !in CLAUSES
  {
    assert forall c :: c in CLAUSES ==> c[0] != 'A';
  }

  lemma AllIsNoJoin()
    ensures "ALL" !in JOINS
  {
    assert forall c :: c in JOINS ==> c[0] != 'A';
  }

  lemma AllIsNoSetOp()
    ensures "ALL" !in SET_OPS
  {
    assert forall c :: c in SET_OPS ==> c[0] != 'A';
  }

  // ---------------------------------------------------------------------
  // Behind BEGIN
  // ---------------------------------------------------------------------

  const LONE_BEGIN: Tokens := [Leaf(Keyword, "BEGIN")]

  // CASE BEGIN x, with BEGIN at the end of a list of its own.
  const BEGIN_IN_CASE: Node := Group(CaseExpr, [
    Leaf(Keyword, "CASE"), Leaf(Whitespace, " "), Group(Container, LONE_BEGIN), Leaf(Whitespace, " "),
      Leaf(OtherLeaf, "x")])

  // The line break pending behind BEGIN is not written inside a CASE expression.
  lemma BeginLosesABoundary(uppercase: bool)
    ensures AllWellFormed([BEGIN_IN_CASE])
    ensures !ShowsTokens([BEGIN_IN_CASE], FormatTokens([BEGIN_IN_CASE], uppercase))
  {
    hide Normalize, ShowsTokens, FormatTokens, ProbeGroup;
    var toks := [BEGIN_IN_CASE];
    BeginShape();
    forall q ensures !ProbeGroup(toks[0], q).ok {
      BeginFuses(q);
    }
    FromFails(toks, 0, 0, BetweenAnds(toks), BEGINNING);
    FormattingKeepsTokens(toks, uppercase);
  }

  lemma BeginShape()
    ensures AllWellFormed([BEGIN_IN_CASE]) && DroplessList([BEGIN_IN_CASE], 0)
  {
    hide WellFormed, DroplessCase;
    BeginWellFormed();
    BeginDropless();
    assert [BEGIN_IN_CASE][1..] == [] && DroplessList([], 0);
    assert Dropless(BEGIN_IN_CASE, 0);
  }

  lemma BeginWellFormed()
    ensures WellFormed(BEGIN_IN_CASE)
  {
    var kids := BEGIN_IN_CASE.kids;
    assert LONE_BEGIN[1..] == [] && Value(LONE_BEGIN[0]) == "BEGIN" && ValueList(LONE_BEGIN)[0] == 'B';
    assert Value(kids[0]) == "CASE" && ValueList(kids)[0] == 'C';
  }

  lemma BeginDropless()
    ensures DroplessCase(BEGIN_IN_CASE.kids, 0)
  {
    hide Normalize, HasSelect;
    var kids := BEGIN_IN_CASE.kids;
    LeavesDropless(LONE_BEGIN, 0);
    LeavesDropless(kids[3..], 0);
    assert kids[1..][1..] == kids[2..] && kids[2..][1..] == kids[3..];
    assert DroplessInCase(kids[2], 0);
    assert DroplessCase(kids[2..], 0);
    assert DroplessCase(kids[1..], 0);
  }

  lemma BeginKind()
    ensures IsKeyword(LONE_BEGIN[0]) && ResolveKeyword(LONE_BEGIN, 0).1 == 0
    ensures KindAt(LONE_BEGIN, 0, BetweenAnds(LONE_BEGIN)) == BlockStart
  {
    hide Normalize, PeekKeyword, BetweenAnds;
    CapitalsNormal("BEGIN");
    BeginIsNoClause();
    BeginIsNoJoin();
    assert forall c :: c in SET_OPS ==> c[0] != 'B';
    assert "BEGIN"[0] != "AND"[0] && "BEGIN"[0] != "OR"[0];
    assert forall c :: c in COMPOUND_HEADS ==> c[0] != 'B';
  }

  lemma BeginIsNoClause()
    ensures "BEGIN" !in CLAUSES
  {
    assert forall c :: c in CLAUSES ==> c[0] != 'B';
  }

  lemma BeginIsNoJoin()
    ensures "BEGIN" !in JOINS
  {
    assert forall c :: c in JOINS ==> c[0] != 'B';
  }

  // Behind BEGIN nothing separates what comes next.
  lemma BeginLeaves(p: Probe)
    ensures
      var q := ProbeList(LONE_BEGIN, p);
      !q.loose && !q.space && !IsDelim(q.prev)
  {
    hide Normalize, ResolveKeyword, KindAt, Cells, Canon, LastOf, ValueList, BetweenAnds;
    var toks, bounds := LONE_BEGIN, BetweenAnds(LONE_BEGIN);
    BeginKind();
    assert toks[0..1] == [toks[0]];
    SingleMarks(toks[0], true);
    LastIsVisible(p.prev, "BEGIN");
    var q := ProbeKeyword(toks, 0, bounds, p);
    assert ProbeFrom(toks, 1, bounds, q) == q;
    assert ProbeFrom(toks, 0, bounds, p) == q;
  }

  lemma BeginFuses(p: Probe)
    ensures !ProbeGroup(BEGIN_IN_CASE, p).ok
  {
    hide Normalize, Cells, Canon, LastOf, ProbeList, ProbeCaseLeaf;
    var kids := BEGIN_IN_CASE.kids;
    CapitalsNormal("CASE");
    assert "CASE"[0] != "WHEN"[0];
    var p2 := BeforeWhen(kids, 0, 2, p);
    var p3 := ProbeList(LONE_BEGIN, Flushed(p2));
    BeginLeaves(Flushed(p2));
    assert ProbeCaseGroup(kids[2], p2) == p3;
    var p4 := Skipped(p3, " ");
    var p5 := WriteWord(p4, "x");
    FirstIsVisible("x", p4.gap);
    assert Fuses(p4, "x");
    assert kids[3] == Leaf(Whitespace, " ") && kids[4] == Leaf(OtherLeaf, "x");
    assert ProbeCase(kids, 5, p5, true) == p5;
    assert ProbeCase(kids, 4, p4, true) == ProbeCase(kids, 5, p5, true) by { PlainStep(kids, 4, p4); }
    assert ProbeCase(kids, 3, p3, true) == ProbeCase(kids, 4, p4, true) by { BlankStep(kids, 3, p3); }
    SizeMember(kids, 2);
    assert ProbeCase(kids, 2, p2, true) == ProbeCase(kids, 3, p3, true);
  }

  lemma PlainStep(kids: Tokens, i: nat, p: Probe)
    requires i < |kids| && kids[i].Leaf? && !IsKeyword(kids[i]) && !IsBlankLeaf(kids[i])
    ensures ProbeCase(kids, i, p, true) == ProbeCase(kids, i + 1, WriteWord(p, kids[i].value), true)
  {
    hide WriteWord;
  }

  lemma BlankStep(kids: Tokens, i: nat, p: Probe)
    requires i < |kids| && IsBlankLeaf(kids[i])
    ensures ProbeCase(kids, i, p, true) == ProbeCase(kids, i + 1, Skipped(p, kids[i].value), true)
  {
    hide Skipped;
  }
}
