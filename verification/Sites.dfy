// The places where tokens get fused, wherever in a statement they are laid out.
module Sites {
  import opened Text
  import opened SqlTree
  import opened Rendering
  import opened Preservation
  import opened Lossless
  import opened Probe
  import opened Separation
  import opened Fusion

  // ---------------------------------------------------------------------
  // What is laid out in a statement
  // ---------------------------------------------------------------------

  datatype Site = AList(toks: Tokens) | AGroup(node: Node)

  // The site is laid out with the list, at that depth of parentheses, whatever is written
  // in front of it. Lists of plain items, which a clause may keep on one line, and what is
  // copied are left out.
  predicate LaysOut(toks: Tokens, depth: int, site: Site)
    decreases SizeList(toks), 2
  {
    site == AList(toks) ||
    exists k :: 0 <= k < |toks| && (SizeMember(toks, k); toks[k].Group? && GroupLaysOut(toks[k], depth, site))
  }

  predicate GroupLaysOut(node: Node, depth: int, site: Site)
    requires node.Group?
    decreases Size(node), 1
  {
    site == AGroup(node) ||
    match node.group
    case CaseExpr =>
      exists k :: 0 <= k < |node.kids| &&
        (SizeMember(node.kids, k); node.kids[k].Group? && CaseLaysOut(node.kids[k], depth, site))
    case Parens => HasSelect(node.kids, SELECT_DEPTH) && depth < MAX_DEPTH && LaysOut(Inner(node.kids), depth + 1, site)
    case IdList => !IsSimpleList(node.kids) && LaysOut(node.kids, depth, site)
    case Ident => IdentNeedsRecursion(node.kids) && LaysOut(node.kids, depth, site)
    case Compare => ComparisonLaysOut(node, site)
    case FuncCall => false
    case Container => LaysOut(node.kids, depth, site)
  }

  // A group in a CASE expression.
  predicate CaseLaysOut(tok: Node, depth: int, site: Site)
    requires tok.Group?
    decreases Size(tok), 2
  {
    if tok.group.Ident? || tok.group.Compare? then ComparisonLaysOut(tok, site) && tok.group.Compare?
    else GroupLaysOut(tok, depth, site)
  }

  // A subquery in a comparison is a statement of its own.
  predicate ComparisonLaysOut(node: Node, site: Site)
    requires node.Group?
    decreases Size(node), 0
  {
    ContainsSubquery(node.kids) &&
    var s := FirstSubquery(node.kids);
    SizeMember(node.kids, s);
    !IsSimpleSubquery(node.kids[s]) && LaysOut(Inner(node.kids[s].kids), 0, site)
  }

  predicate SiteOk(site: Site) {
    match site
    case AList(toks) => AllWellFormed(toks)
    case AGroup(node) => WellFormed(node)
  }

  lemma {:induction false} InnerWellFormed(kids: Tokens)
    requires AllWellFormed(kids)
    ensures AllWellFormed(Inner(kids))
  {
    hide WellFormed;
    if kids != [] {
      InnerWellFormed(kids[1..]);
    }
  }

  lemma {:induction false} ListSiteOk(toks: Tokens, depth: int, site: Site)
    requires AllWellFormed(toks) && LaysOut(toks, depth, site)
    ensures SiteOk(site)
    decreases SizeList(toks), 2
  {
    hide WellFormed, GroupLaysOut;
    if site != AList(toks) {
      var k :| 0 <= k < |toks| && toks[k].Group? && GroupLaysOut(toks[k], depth, site);
      SizeMember(toks, k);
      GroupSiteOk(toks[k], depth, site);
    }
  }

  lemma {:induction false} GroupSiteOk(node: Node, depth: int, site: Site)
    requires node.Group? && WellFormed(node) && GroupLaysOut(node, depth, site)
    ensures SiteOk(site)
    decreases Size(node), 1
  {
    hide LaysOut, CaseLaysOut, ComparisonLaysOut, IsSimpleList, HasSelect;
    assert AllWellFormed(node.kids);
    if site != AGroup(node) {
      match node.group
      case CaseExpr =>
        var k :| 0 <= k < |node.kids| && node.kids[k].Group? && CaseLaysOut(node.kids[k], depth, site);
        SizeMember(node.kids, k);
        CaseSiteOk(node.kids[k], depth, site);
      case Parens =>
        InnerWellFormed(node.kids);
        ListSiteOk(Inner(node.kids), depth + 1, site);
      case IdList => ListSiteOk(node.kids, depth, site);
      case Ident => ListSiteOk(node.kids, depth, site);
      case Compare => ComparisonSiteOk(node, site);
      case Container => ListSiteOk(node.kids, depth, site);
    }
  }

  lemma {:induction false} CaseSiteOk(tok: Node, depth: int, site: Site)
    requires tok.Group? && WellFormed(tok) && CaseLaysOut(tok, depth, site)
    ensures SiteOk(site)
    decreases Size(tok), 2
  {
    if tok.group.Ident? || tok.group.Compare? {
      ComparisonSiteOk(tok, site);
    } else {
      GroupSiteOk(tok, depth, site);
    }
  }

  lemma {:induction false} ComparisonSiteOk(node: Node, site: Site)
    requires node.Group? && WellFormed(node) && ComparisonLaysOut(node, site)
    ensures SiteOk(site)
    decreases Size(node), 0
  {
    hide LaysOut, IsSimpleSubquery;
    var s := FirstSubquery(node.kids);
    SizeMember(node.kids, s);
    assert WellFormed(node.kids[s]) && AllWellFormed(node.kids[s].kids);
    InnerWellFormed(node.kids[s].kids);
    ListSiteOk(Inner(node.kids[s].kids), 0, site);
  }

  // ---------------------------------------------------------------------
  // The dry run leaves the depth as it was
  // ---------------------------------------------------------------------

  lemma WritesDeep(p: Probe, v: string)
    ensures
      && Write(p, v).depth == p.depth && WriteWord(p, v).depth == p.depth && WriteLine(p, v).depth == p.depth
      && Skipped(p, v).depth == p.depth && Broken(p).depth == p.depth && Flushed(p).depth == p.depth
  {
    hide LastOf, Fuses, Trail;
  }

  lemma KeywordDeep(toks: Tokens, i: nat, bounds: set<nat>, p: Probe)
    requires i < |toks| && IsKeyword(toks[i])
    ensures ProbeKeyword(toks, i, bounds, p).depth == p.depth
  {
    hide ResolveKeyword, KindAt, Nest, ProbeDispatch, ValueList;
    var (norm, extra) := ResolveKeyword(toks, i);
    var (kind, origins) := Nest(KindAt(toks, i, bounds), p.origins);
    var q := p.(origins := origins, comma := if KeepsCommaBreak(kind) then p.comma else false);
    DispatchGap(kind, norm, ValueList(toks[i..i + 1 + extra]), q);
  }

  lemma {:induction false} ListDeep(toks: Tokens, p: Probe)
    ensures ProbeList(toks, p).depth == p.depth
    decreases SizeList(toks), 3, 0
  {
    hide ProbeFrom;
    FromDeep(toks, 0, BetweenAnds(toks), p);
  }

  lemma {:induction false} FromDeep(toks: Tokens, i: nat, bounds: set<nat>, p: Probe)
    requires i <= |toks|
    ensures ProbeFrom(toks, i, bounds, p).depth == p.depth
    decreases SizeList(toks), 2, |toks| - i
  {
    hide Stepped, Next;
    if i < |toks| {
      FromNext(toks, i, bounds, p);
      StepDeep(toks, i, bounds, p);
      FromDeep(toks, Next(toks, i), bounds, Stepped(toks, i, bounds, p));
    }
  }

  lemma {:induction false} StepDeep(toks: Tokens, i: nat, bounds: set<nat>, p: Probe)
    requires i < |toks|
    ensures Stepped(toks, i, bounds, p).depth == p.depth
    decreases SizeList(toks), 1, 1
  {
    hide Skipped, Write, WriteWord, Broken, ProbeKeyword, ProbeGroup;
    var tok := toks[i];
    if tok.Group? {
      SizeMember(toks, i);
      WritesDeep(p, "");
      GroupDeep(tok, Broken(p));
    } else {
      WritesDeep(p, tok.value);
      WritesDeep(Broken(p), tok.value);
      if IsKeyword(tok) {
        KeywordDeep(toks, i, bounds, p);
      }
    }
  }

  lemma {:induction false} GroupDeep(node: Node, p: Probe)
    requires node.Group?
    ensures ProbeGroup(node, p).depth == p.depth
    decreases Size(node), 1, 0
  {
    hide ProbeList, ProbeCase, ProbeParens, ProbeComparison, WriteWord, IsSimpleList;
    WritesDeep(p, Value(node));
    match node.group
    case CaseExpr => CaseDeep(node.kids, 0, p, true);
    case Parens => ParensDeep(node, p);
    case IdList => ListDeep(node.kids, p);
    case Ident => ListDeep(node.kids, p);
    case Compare => if ContainsSubquery(node.kids) { ComparisonDeep(node, p); }
    case FuncCall =>
    case Container => ListDeep(node.kids, p);
  }

  lemma {:induction false} ParensDeep(node: Node, p: Probe)
    requires node.Group?
    ensures ProbeParens(node, p).depth == p.depth
    decreases Size(node), 0, 0
  {
    hide ProbeList, Write, WriteWord, WriteLine, Flushed, HasSelect;
    WritesDeep(p, Value(node));
    if HasSelect(node.kids, SELECT_DEPTH) && p.depth < MAX_DEPTH {
      WritesDeep(Flushed(p), "(");
      var q := Write(Flushed(p), "(").(depth := p.depth + 1);
      ListDeep(Inner(node.kids), q);
      WritesDeep(ProbeList(Inner(node.kids), q), ")");
    }
  }

  lemma {:induction false} CaseDeep(kids: Tokens, i: nat, p: Probe, firstWhen: bool)
    requires i <= |kids|
    ensures ProbeCase(kids, i, p, firstWhen).depth == p.depth
    decreases SizeList(kids), 2, |kids| - i
  {
    hide Normalize, ProbeWhen, ProbeCaseLeaf, ProbeCaseGroup;
    if i < |kids| {
      var tok := kids[i];
      if tok.Leaf? {
        CaseLeafDeep(tok, p, firstWhen);
      }
      if IsKeyword(tok) && Normalize(tok.value) == "WHEN" {
        CaseDeep(kids, i + 1, ProbeWhen(tok, p, firstWhen), false);
      } else if tok.Leaf? {
        CaseDeep(kids, i + 1, ProbeCaseLeaf(tok, p), firstWhen);
      } else {
        SizeMember(kids, i);
        CaseGroupDeep(tok, p);
        CaseDeep(kids, i + 1, ProbeCaseGroup(tok, p), firstWhen);
      }
    }
  }

  lemma CaseLeafDeep(tok: Node, p: Probe, firstWhen: bool)
    requires tok.Leaf?
    ensures ProbeWhen(tok, p, firstWhen).depth == p.depth && ProbeCaseLeaf(tok, p).depth == p.depth
  {
    hide Normalize, LastOf, Fuses, Trail;
  }

  lemma {:induction false} CaseGroupDeep(tok: Node, p: Probe)
    requires tok.Group?
    ensures ProbeCaseGroup(tok, p).depth == p.depth
    decreases Size(tok), 2, 0
  {
    hide ProbeGroup, ProbeComparison, WriteWord, Flushed;
    WritesDeep(p, Value(tok));
    if IsSubqueryComparison(tok) {
      ComparisonDeep(tok, p);
    } else if !tok.group.Ident? && !tok.group.Compare? {
      GroupDeep(tok, Flushed(p));
    }
  }

  lemma ComparisonDeep(node: Node, p: Probe)
    requires node.Group? && ContainsSubquery(node.kids)
    ensures ProbeComparison(node, p).depth == p.depth
  {
    hide ProbeList, IsSimpleSubquery, Fuses, LastOf, Trail;
    OperandsDeep(node.kids[..FirstSubquery(node.kids)], p);
  }

  lemma {:induction false} OperandsDeep(toks: Tokens, p: Probe)
    ensures ProbeOperands(toks, p).depth == p.depth
  {
    hide WriteWord, Skipped;
    if toks != [] {
      var v := Value(toks[0]);
      WritesDeep(p, v);
      OperandsDeep(toks[1..], if IsBlankLeaf(toks[0]) || !IsOperand(toks[0]) then Skipped(p, v) else WriteWord(p, v));
    }
  }

  // ---------------------------------------------------------------------
  // A site every dry run fails on
  // ---------------------------------------------------------------------

  ghost predicate Breaks(site: Site) {
    match site
    case AList(toks) => forall p :: !ProbeList(toks, p).ok
    case AGroup(node) => node.Group? && forall p :: !ProbeGroup(node, p).ok
  }

  lemma {:induction false} ListBreaks(toks: Tokens, p: Probe, site: Site)
    requires Breaks(site) && LaysOut(toks, p.depth, site)
    ensures !ProbeList(toks, p).ok
    decreases SizeList(toks), 3, 0
  {
    hide ProbeFrom, GroupLaysOut;
    if site != AList(toks) {
      var k :| 0 <= k < |toks| && toks[k].Group? && GroupLaysOut(toks[k], p.depth, site);
      FromBreaks(toks, 0, k, BetweenAnds(toks), p, site);
    }
  }

  lemma {:induction false} FromBreaks(toks: Tokens, i: nat, n: nat, bounds: set<nat>, p: Probe, site: Site)
    requires i <= n < |toks| && toks[n].Group? && Breaks(site) && GroupLaysOut(toks[n], p.depth, site)
    ensures !ProbeFrom(toks, i, bounds, p).ok
    decreases SizeList(toks), 2, n - i
  {
    hide ProbeFrom, Stepped, Next, GroupLaysOut, Breaks;
    FromNext(toks, i, bounds, p);
    StepDeep(toks, i, bounds, p);
    var next, q := Next(toks, i), Stepped(toks, i, bounds, p);
    if i == n {
      SizeMember(toks, n);
      WritesDeep(p, "");
      GroupBreaks(toks[n], Broken(p), site);
      GroupStepped(toks, n, bounds, p);
      FromStays(toks, next, bounds, q);
    } else {
      NextBefore(toks, i, n);
      FromBreaks(toks, next, n, bounds, q, site);
    }
  }

  lemma GroupStepped(toks: Tokens, i: nat, bounds: set<nat>, p: Probe)
    requires i < |toks| && toks[i].Group?
    ensures Stepped(toks, i, bounds, p) == ProbeGroup(toks[i], Broken(p))
  {
    hide ProbeGroup, Broken;
  }

  // Only keywords and whitespace are passed over.
  lemma NextBefore(toks: Tokens, i: nat, n: nat)
    requires i < n < |toks| && !IsBlankLeaf(toks[n])
    requires !IsKeyword(toks[n]) || Normalize(toks[n].value) in SET_OPS
    ensures Next(toks, i) <= n
  {
    hide Normalize;
    if IsKeyword(toks[i]) && ResolveKeyword(toks, i).1 > 0 {
      var j := NextVisible(toks, i + 1);
      assert j <= n;
      if j == n {
        NoSetOpMerged(Normalize(toks[i].value), Normalize(toks[n].value));
      }
    }
  }

  // No clause of two words ends in a set operator: they are too short.
  lemma NoSetOpMerged(head: string, op: string)
    requires head in COMPOUND_HEADS && op in SET_OPS
    ensures head + " " + op !in CLAUSES
  {
    hide CLAUSES;
    var c := head + " " + op;
    ShortClause(c);
    LongEnough(op);
    assert |c| == |head| + 1 + |op| && c[0] == head[0];
  }

  lemma ShortClause(c: string)
    ensures c in CLAUSES ==> c != "" && |c| <= 11 && (c[0] == 'S' ==> |c| <= 10)
  {
  }

  lemma LongEnough(op: string)
    requires op in SET_OPS
    ensures |op| >= 5
  {
  }

  lemma {:induction false} GroupBreaks(node: Node, p: Probe, site: Site)
    requires node.Group? && Breaks(site) && GroupLaysOut(node, p.depth, site)
    ensures !ProbeGroup(node, p).ok
    decreases Size(node), 1, 0
  {
    hide ProbeList, ProbeCase, ProbeParens, ProbeComparison, WriteWord, IsSimpleList, LaysOut, CaseLaysOut,
      ComparisonLaysOut, HasSelect;
    if site != AGroup(node) {
      hide Breaks;
      match node.group
      case CaseExpr =>
        var k :| 0 <= k < |node.kids| && node.kids[k].Group? && CaseLaysOut(node.kids[k], p.depth, site);
        CaseBreaks(node.kids, 0, k, p, true, site);
      case Parens => ParensBreak(node, p, site);
      case IdList => ListBreaks(node.kids, p, site);
      case Ident => ListBreaks(node.kids, p, site);
      case Compare => ComparisonBreaks(node, p, site);
      case Container => ListBreaks(node.kids, p, site);
    }
  }

  lemma {:induction false} ParensBreak(node: Node, p: Probe, site: Site)
    requires node.Group? && Breaks(site) && HasSelect(node.kids, SELECT_DEPTH) && p.depth < MAX_DEPTH
    requires LaysOut(Inner(node.kids), p.depth + 1, site)
    ensures !ProbeParens(node, p).ok
    decreases Size(node), 0, 0
  {
    hide ProbeList, HasSelect, LaysOut, Fuses, LastOf, Trail, Breaks;
    var q := Write(Flushed(p), "(").(depth := p.depth + 1);
    ListBreaks(Inner(node.kids), q, site);
  }

  lemma {:induction false} CaseBreaks(kids: Tokens, i: nat, n: nat, p: Probe, firstWhen: bool, site: Site)
    requires i <= n < |kids| && kids[n].Group? && Breaks(site) && CaseLaysOut(kids[n], p.depth, site)
    ensures !ProbeCase(kids, i, p, firstWhen).ok
    decreases SizeList(kids), 2, n - i + 1
  {
    hide Normalize, ProbeWhen, ProbeCaseLeaf, ProbeCaseGroup, Breaks, CaseLaysOut;
    var tok := kids[i];
    if tok.Leaf? {
      CaseLeafDeep(tok, p, firstWhen);
      if IsKeyword(tok) && Normalize(tok.value) == "WHEN" {
        CaseBreaks(kids, i + 1, n, ProbeWhen(tok, p, firstWhen), false, site);
      } else {
        CaseBreaks(kids, i + 1, n, ProbeCaseLeaf(tok, p), firstWhen, site);
      }
    } else {
      SizeMember(kids, i);
      CaseGroupDeep(tok, p);
      var q := ProbeCaseGroup(tok, p);
      if i == n {
        CaseGroupBreaks(tok, p, site);
        CaseStays(kids, i + 1, q, firstWhen);
      } else {
        CaseBreaks(kids, i + 1, n, q, firstWhen, site);
      }
    }
  }

  lemma {:induction false} CaseGroupBreaks(tok: Node, p: Probe, site: Site)
    requires tok.Group? && Breaks(site) && CaseLaysOut(tok, p.depth, site)
    ensures !ProbeCaseGroup(tok, p).ok
    decreases Size(tok), 2, 0
  {
    hide ProbeGroup, ProbeComparison, Flushed, Breaks, GroupLaysOut, ComparisonLaysOut, WriteWord, ContainsSubquery;
    WritesDeep(p, "");
    if tok.group.Compare? {
      ComparisonBreaks(tok, p, site);
    } else {
      GroupBreaks(tok, Flushed(p), site);
    }
  }

  lemma {:induction false} ComparisonBreaks(node: Node, p: Probe, site: Site)
    requires node.Group? && Breaks(site) && ComparisonLaysOut(node, site)
    ensures ContainsSubquery(node.kids) && !ProbeComparison(node, p).ok
    decreases Size(node), 0, 0
  {
    hide ProbeList, LaysOut, Breaks, IsSimpleSubquery, Fuses, LastOf, Trail, ProbeOperands;
    var s := FirstSubquery(node.kids);
    SizeMember(node.kids, s);
    ListBreaks(Inner(node.kids[s].kids), BEGINNING, site);
  }

  // ---------------------------------------------------------------------
  // The two constructs
  // ---------------------------------------------------------------------

  lemma SiteLosesABoundary(toks: Tokens, site: Site, uppercase: bool)
    requires AllWellFormed(toks) && LaysOut(toks, 0, site) && Breaks(site)
    ensures !ShowsTokens(toks, FormatTokens(toks, uppercase))
  {
    hide ShowsTokens, FormatTokens, ProbeList, DroplessList, LaysOut, Breaks;
    ListBreaks(toks, BEGINNING, site);
    FormattingKeepsTokens(toks, uppercase);
  }

  // Wherever CASE x WHEN is laid out in a statement, the formatted text does not show the
  // tokens of the statement.
  lemma CaseOperandAnywhere(toks: Tokens, expr: Node, o: nat, w: nat, uppercase: bool)
    requires AllWellFormed(toks) && IsCase(expr) && LaysOut(toks, 0, AGroup(expr))
    requires o < w < |expr.kids| && IsPlainOperand(expr.kids[o]) && IsWhen(expr.kids[w])
    requires forall k :: 0 <= k < w ==> !IsWhen(expr.kids[k])
    requires forall k :: o < k < w ==> IsBlankLeaf(expr.kids[k])
    requires exists k :: o < k < w && Value(expr.kids[k]) != ""
    requires forall c :: !IsDelim(LastOf(c, Value(expr.kids[o])))
    ensures !ShowsTokens(toks, FormatTokens(toks, uppercase))
  {
    hide ShowsTokens, FormatTokens, ProbeCase, LastOf, Value, IsPlainOperand, IsWhen, IsBlankLeaf, LaysOut;
    ListSiteOk(toks, 0, AGroup(expr));
    assert AllWellFormed(expr.kids) by { assert WellFormed(expr); }
    forall q ensures !ProbeGroup(expr, q).ok {
      CaseOperandFuses(expr.kids, o, w, q);
    }
    SiteLosesABoundary(toks, AGroup(expr), uppercase);
  }

  // Before a set operator every step of the dry run ends in front of it.
  lemma {:induction false} ComesTo(toks: Tokens, i: nat, n: nat, bounds: set<nat>, p: Probe) returns (q: Probe)
    requires i <= n < |toks| && IsKeyword(toks[n]) && Normalize(toks[n].value) in SET_OPS
    ensures ProbeFrom(toks, i, bounds, p) == ProbeFrom(toks, n, bounds, q)
    decreases n - i
  {
    hide ProbeFrom, Stepped, Next, Normalize;
    if i == n {
      q := p;
    } else {
      FromNext(toks, i, bounds, p);
      NextBefore(toks, i, n);
      q := ComesTo(toks, Next(toks, i), n, bounds, Stepped(toks, i, bounds, p));
    }
  }

  // Wherever a list is laid out in a statement that holds a set operator, whitespace and a
  // leaf, or a keyword other than END that opens no line, the same.
  lemma SetOperatorAnywhere(toks: Tokens, sub: Tokens, i: nat, j: nat, uppercase: bool)
    requires AllWellFormed(toks) && LaysOut(toks, 0, AList(sub)) && i < j < |sub|
    requires IsKeyword(sub[i]) && Normalize(sub[i].value) in SET_OPS
    requires (forall k :: i < k < j ==> IsBlankLeaf(sub[k])) && exists k :: i < k < j && Value(sub[k]) != ""
    requires FollowsTightly(sub, j) && (IsKeyword(sub[j]) ==> !KindAt(sub, j, BetweenAnds(sub)).CaseEnd?)
    requires !IsDelim(sub[i].value[|sub[i].value| - 1]) && sub[j].value != "" && !IsDelim(Up(sub[j].value[0]))
    ensures !ShowsTokens(toks, FormatTokens(toks, uppercase))
  {
    hide ShowsTokens, FormatTokens, ProbeFrom, LaysOut, Normalize, BetweenAnds, KindAt, FollowsTightly, Value;
    ListSiteOk(toks, 0, AList(sub));
    var bounds := BetweenAnds(sub);
    forall p ensures !ProbeList(sub, p).ok {
      var q := ComesTo(sub, 0, i, bounds, p);
      SetOpFuses(sub, i, j, bounds, q);
    }
    SiteLosesABoundary(toks, AList(sub), uppercase);
  }
}
