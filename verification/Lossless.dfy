// Exactly when formatting keeps the SQL text: the loss, if any, is in the
// comparisons whose subquery is laid out on its own lines.
module Lossless {
  import opened Text
  import opened SqlTree
  import opened Rendering
  import opened Preservation

  // kept is part of full, and it is all of it exactly when lossless holds.
  predicate Measures(kept: string, full: string, lossless: bool) {
    && |kept| <= |full|
    && (lossless ==> kept == full)
    && (|kept| == |full| ==> lossless)
  }

  lemma MeasuresAppend(k1: string, f1: string, l1: bool, k2: string, f2: string, l2: bool)
    requires Measures(k1, f1, l1) && Measures(k2, f2, l2)
    ensures Measures(k1 + k2, f1 + f2, l1 && l2)
  {
  }

  lemma {:induction false} KeptMeasures(node: Node, depth: int)
    requires WellFormed(node)
    ensures Measures(Kept(node, depth), Canon(Value(node)), Dropless(node, depth))
    decreases Size(node), 1
  {
    hide Canon, HasSelect;
    match node
    case Leaf(_, _) =>
    case Group(group, kids) =>
      match group
      case CaseExpr => CaseMeasures(kids, depth);
      case Parens =>
        if HasSelect(kids, SELECT_DEPTH) && depth < MAX_DEPTH {
          InnerOfPaired(kids);
          ListMeasures(Inner(kids), depth + 1);
          ParenMeasures(KeptList(Inner(kids), depth + 1), ValueList(Inner(kids)), DroplessList(Inner(kids), depth + 1));
        }
      case IdList => ListMeasures(kids, depth);
      case Ident => if IdentNeedsRecursion(kids) { ListMeasures(kids, depth); }
      case Compare => if ContainsSubquery(kids) { ComparisonMeasures(node); }
      case FuncCall =>
      case Container => ListMeasures(kids, depth);
  }

  lemma ParenMeasures(kept: string, inner: string, lossless: bool)
    requires Measures(kept, Canon(inner), lossless)
    ensures Canon("(" + inner + ")") == "(" + Canon(inner) + ")"
    ensures Measures("(" + kept + ")", Canon("(" + inner + ")"), lossless)
  {
    hide Canon;
    CanonAppend("(" + inner, ")");
    CanonAppend("(", inner);
    ParenCanon();
  }

  lemma {:induction false} ListMeasures(toks: Tokens, depth: int)
    requires AllWellFormed(toks)
    ensures Measures(KeptList(toks, depth), Canon(ValueList(toks)), DroplessList(toks, depth))
    decreases SizeList(toks), 2, |toks|
  {
    hide Canon, Kept, Dropless;
    if toks == [] {
      BlankIsInvisible("");
    } else {
      KeptMeasures(toks[0], depth);
      ListMeasures(toks[1..], depth);
      CanonAppend(Value(toks[0]), ValueList(toks[1..]));
      MeasuresAppend(Kept(toks[0], depth), Canon(Value(toks[0])), Dropless(toks[0], depth),
        KeptList(toks[1..], depth), Canon(ValueList(toks[1..])), DroplessList(toks[1..], depth));
    }
  }

  lemma {:induction false} CaseMeasures(kids: Tokens, depth: int)
    requires AllWellFormed(kids)
    ensures Measures(KeptCase(kids, depth), Canon(ValueList(kids)), DroplessCase(kids, depth))
    decreases SizeList(kids), 3, |kids|
  {
    hide Canon, Kept, Dropless, KeptComparison, DroplessComparison;
    if kids == [] {
      BlankIsInvisible("");
    } else {
      var tok := kids[0];
      if IsSubqueryComparison(tok) {
        ComparisonMeasures(tok);
      } else {
        KeptMeasures(tok, depth);
      }
      CaseMeasures(kids[1..], depth);
      CanonAppend(Value(tok), ValueList(kids[1..]));
      MeasuresAppend(KeptInCase(tok, depth), Canon(Value(tok)), DroplessInCase(tok, depth),
        KeptCase(kids[1..], depth), Canon(ValueList(kids[1..])), DroplessCase(kids[1..], depth));
    }
  }

  predicate OperandsOnly(toks: Tokens) {
    forall k :: 0 <= k < |toks| ==> IsOperand(toks[k]) || Blank(Value(toks[k]))
  }

  lemma {:induction false} OperandMeasures(toks: Tokens)
    ensures Measures(KeptOperands(toks), Canon(ValueList(toks)), OperandsOnly(toks))
  {
    hide Canon;
    if toks == [] {
      BlankIsInvisible("");
    } else {
      var v := Canon(Value(toks[0]));
      BlankIsInvisible(Value(toks[0]));
      OperandMeasures(toks[1..]);
      CanonAppend(Value(toks[0]), ValueList(toks[1..]));
      MeasuresAppend(if IsOperand(toks[0]) then v else "", v, IsOperand(toks[0]) || Blank(Value(toks[0])),
        KeptOperands(toks[1..]), Canon(ValueList(toks[1..])), OperandsOnly(toks[1..]));
      assert toks == [toks[0]] + toks[1..];
      assert OperandsOnly(toks) <==> (IsOperand(toks[0]) || Blank(Value(toks[0]))) && OperandsOnly(toks[1..]);
    }
  }

  lemma {:induction false} ComparisonMeasures(node: Node)
    requires node.Group? && ContainsSubquery(node.kids) && WellFormed(node)
    ensures Measures(KeptComparison(node), Canon(Value(node)), DroplessComparison(node))
    decreases Size(node), 0
  {
    hide Canon, IsSimpleSubquery, IsSubquery, Measures, KeptOperands, OperandsOnly, KeptList, DroplessList;
    var kids, p := node.kids, FirstSubquery(node.kids);
    var paren, left, right := kids[p], kids[..p], kids[p + 1..];
    SizeMember(kids, p);
    if !IsSimpleSubquery(paren) {
      assert paren.group.Parens? by { SubqueryIsParens(paren); }
      var inner := Inner(paren.kids);
      InnerOfPaired(paren.kids);
      ListMeasures(inner, 0);
      ParenMeasures(KeptList(inner, 0), ValueList(inner), DroplessList(inner, 0));
      OperandMeasures(left);
      OperandsOnlyLeft(kids, p);
      MeasuresAppend(KeptOperands(left), Canon(ValueList(left)), OperandsOnly(left),
        "(" + KeptList(inner, 0) + ")", Canon(Value(paren)), DroplessList(inner, 0));
      BlankMeasures(ValueList(right));
      MeasuresAppend(KeptOperands(left) + ("(" + KeptList(inner, 0) + ")"),
        Canon(ValueList(left)) + Canon(Value(paren)),
        OperandsOnly(left) && DroplessList(inner, 0), "", Canon(ValueList(right)), Blank(ValueList(right)));
      SplitValue(kids, p);
      var k := KeptOperands(left) + ("(" + KeptList(inner, 0) + ")");
      assert k + "" == k == KeptComparison(node);
    } else {
      MeasuresItself(Canon(Value(node)));
    }
  }

  lemma BlankMeasures(s: string)
    ensures Measures("", Canon(s), Blank(s))
  {
    hide Canon;
    BlankIsInvisible(s);
  }

  lemma MeasuresItself(t: string)
    ensures Measures(t, t, true)
  {
  }

  lemma OperandsOnlyLeft(kids: Tokens, p: nat)
    requires p <= |kids|
    ensures OperandsOnly(kids[..p]) <==> forall k :: 0 <= k < p ==> IsOperand(kids[k]) || Blank(Value(kids[k]))
  {
    hide IsOperand, Blank, Value;
    assert forall k :: 0 <= k < p ==> kids[..p][k] == kids[k];
  }

  lemma SubqueryIsParens(tok: Node)
    requires IsSubquery(tok)
    ensures tok.Group? && tok.group.Parens?
  {
  }

  lemma SplitValue(kids: Tokens, p: nat)
    requires p < |kids|
    ensures Canon(ValueList(kids)) == Canon(ValueList(kids[..p])) + Canon(Value(kids[p])) +
      Canon(ValueList(kids[p + 1..]))
  {
    hide Canon;
    assert kids == kids[..p] + kids[p..];
    assert kids[p..][1..] == kids[p + 1..];
    ValueListAppend(kids[..p], kids[p..]);
    CanonAppend(ValueList(kids[..p]), ValueList(kids[p..]));
    CanonAppend(Value(kids[p]), ValueList(kids[p + 1..]));
  }

  // Formatting a statement keeps its text, whitespace and case aside, if and
  // only if nothing is dropped on either side of a laid-out comparison subquery.
  lemma FormattingKeepsText(toks: Tokens, uppercase: bool)
    requires AllWellFormed(toks)
    ensures Canon(FormatTokens(toks, uppercase)) == Canon(ValueList(toks)) <==> DroplessList(toks, 0)
    ensures |Canon(FormatTokens(toks, uppercase))| <= |Canon(ValueList(toks))|
  {
    FormatKeeps(toks, uppercase);
    ListMeasures(toks, 0);
  }

  // ---------------------------------------------------------------------
  // Several statements
  // ---------------------------------------------------------------------

  function AllValues(stmts: seq<Tokens>): string {
    if stmts == [] then "" else ValueList(stmts[0]) + AllValues(stmts[1..])
  }

  predicate AllDropless(stmts: seq<Tokens>) {
    stmts == [] || (DroplessList(stmts[0], 0) && AllDropless(stmts[1..]))
  }

  lemma {:induction false} StatementsMeasure(stmts: seq<Tokens>, uppercase: bool)
    requires forall k :: 0 <= k < |stmts| ==> AllWellFormed(stmts[k])
    ensures Measures(Canon(Join("\n", FormatStatements(stmts, uppercase))), Canon(AllValues(stmts)), AllDropless(stmts))
  {
    hide Canon, FormatTokens, DroplessList;
    if stmts == [] {
      BlankIsInvisible("");
    } else {
      var rest := FormatStatements(stmts[1..], uppercase);
      var v := ValueList(stmts[0]);
      StatementsMeasure(stmts[1..], uppercase);
      CanonAppend(v, AllValues(stmts[1..]));
      ListMeasures(stmts[0], 0);
      if Blank(v) {
        BlankIsInvisible(v);
        assert |KeptList(stmts[0], 0)| == 0;
        assert Canon(v) + Canon(AllValues(stmts[1..])) == Canon(AllValues(stmts[1..]));
      } else {
        var t := FormatTokens(stmts[0], uppercase);
        FormatKeeps(stmts[0], uppercase);
        assert ([t] + rest)[1..] == rest;
        JoinedCanon([t] + rest);
        MeasuresAppend(KeptList(stmts[0], 0), Canon(v), DroplessList(stmts[0], 0),
          Canon(Join("\n", rest)), Canon(AllValues(stmts[1..])), AllDropless(stmts[1..]));
      }
    }
  }

  // The entry point, for any text and what the parser splits it into.
  lemma FormatKeepsSql(sql: string, stmts: seq<Tokens>, uppercase: bool)
    requires forall k :: 0 <= k < |stmts| ==> AllWellFormed(stmts[k])
    requires AllValues(stmts) == Strip(sql)
    ensures Canon(Format(sql, stmts, uppercase)) == Canon(sql) <==> Blank(sql) || AllDropless(stmts)
  {
    hide Canon, FormatStatements;
    StripCells(sql);
    SameCellsSameCanon(Strip(sql), sql);
    StatementsMeasure(stmts, uppercase);
    if FormatStatements(stmts, uppercase) == [] {
      BlankIsInvisible("");
      BlankIsInvisible(sql);
      NothingFormatted(stmts, uppercase);
    }
  }

  lemma {:induction false} NothingFormatted(stmts: seq<Tokens>, uppercase: bool)
    requires FormatStatements(stmts, uppercase) == []
    ensures Blank(AllValues(stmts))
  {
    if stmts != [] {
      NothingFormatted(stmts[1..], uppercase);
    }
  }

  // ---------------------------------------------------------------------
  // An input that loses text
  // ---------------------------------------------------------------------

  // (SELECT a ORDER BY b) = c, as the parser groups it.
  const SUBQUERY_TAIL: Tokens := [
    Leaf(Whitespace, " "), Leaf(OtherLeaf, "a"), Leaf(Whitespace, " "), Leaf(Keyword, "ORDER BY"),
    Leaf(Whitespace, " "), Leaf(OtherLeaf, "b"), Leaf(Punctuation, ")")]

  const SUBQUERY: Node := Group(Parens, [Leaf(Punctuation, "("), Leaf(DmlKeyword, "SELECT")] + SUBQUERY_TAIL)

  const SUBQUERY_FIRST: Node :=
    Group(Compare, [SUBQUERY, Leaf(OtherLeaf, "="), Leaf(OtherLeaf, "c")])

  lemma SubqueryFirstLosesText(uppercase: bool)
    ensures AllWellFormed([SUBQUERY_FIRST])
    ensures Canon(FormatTokens([SUBQUERY_FIRST], uppercase)) != Canon(ValueList([SUBQUERY_FIRST]))
  {
    hide Canon, FormatTokens, Normalize, IsSimpleSubquery;
    SubqueryShape();
    NotSimple();
    var kids := SUBQUERY_FIRST.kids;
    assert kids[0] == SUBQUERY;
    assert FirstSubquery(kids) == 0;
    var rest := kids[1..];
    assert Value(rest[0]) == "=" && ValueList(rest)[0] == '=';
    assert ValueList(kids)[0] == '(' by { SubqueryText(); }
    assert !DroplessComparison(SUBQUERY_FIRST);
    assert [SUBQUERY_FIRST][0] == SUBQUERY_FIRST;
    assert !DroplessList([SUBQUERY_FIRST], 0);
    FormattingKeepsText([SUBQUERY_FIRST], uppercase);
  }

  lemma SubqueryShape()
    ensures WellFormed(SUBQUERY) && IsSubquery(SUBQUERY)
  {
    hide Normalize, Paired, ValueList, Blank;
    var kids := SUBQUERY.kids;
    assert Normalize("SELECT") == "SELECT" by { CapitalsNormal("SELECT"); }
    assert kids[1] == Leaf(DmlKeyword, "SELECT");
    SubqueryKids();
    SubqueryPaired();
  }

  lemma SubqueryKids()
    ensures forall k :: 0 <= k < |SUBQUERY.kids| ==> SUBQUERY.kids[k].Leaf? && WellFormed(SUBQUERY.kids[k])
  {
    var kids := SUBQUERY.kids;
    assert kids == [Leaf(Punctuation, "("), Leaf(DmlKeyword, "SELECT")] + SUBQUERY_TAIL;
    forall k | 0 <= k < |kids| ensures kids[k].Leaf? && WellFormed(kids[k]) {
      assert k >= 2 ==> kids[k] == SUBQUERY_TAIL[k - 2];
    }
  }

  lemma SubqueryPaired()
    ensures Paired(SUBQUERY.kids) && !Blank(ValueList(SUBQUERY.kids))
  {
    var kids := SUBQUERY.kids;
    assert Value(kids[0]) == "(" && ValueList(kids)[0] == '(';
  }

  lemma {:induction false} ContainsAt(pre: string, pat: string, post: string)
    ensures Contains(pre + pat + post, pat)
  {
    if pre == "" {
      assert pre + pat + post == pat + post;
    } else {
      assert (pre + pat + post)[1..] == pre[1..] + pat + post;
      ContainsAt(pre[1..], pat, post);
    }
  }

  lemma NotSimple()
    ensures !IsSimpleSubquery(SUBQUERY)
  {
    hide Upper, Contains, Count, ValueList;
    SubqueryText();
    assert " " + Upper("(SELECT a ORDER BY b)") + " " == " (SELECT A" + " ORDER BY " + "B) " by { TextUpper(); }
    ContainsAt(" (SELECT A", " ORDER BY ", "B) ");
  }

  lemma TextUpper()
    ensures Upper("(SELECT a ORDER BY b)") == "(SELECT A ORDER BY B)"
  {
  }

  lemma SubqueryText()
    ensures Value(SUBQUERY) == "(SELECT a ORDER BY b)"
  {
    hide ValueList;
    var t := SUBQUERY_TAIL;
    ValueListAppend([Leaf(Punctuation, "("), Leaf(DmlKeyword, "SELECT")], t);
    ValueListAppend([t[0], t[1], t[2]], [t[3], t[4], t[5], t[6]]);
    assert t == [t[0], t[1], t[2]] + [t[3], t[4], t[5], t[6]];
    ValueListAppend([t[3], t[4]], [t[5], t[6]]);
    assert [t[3], t[4], t[5], t[6]] == [t[3], t[4]] + [t[5], t[6]];
    ThreeValues(t[0], t[1], t[2]);
    TwoValues(t[3], t[4]);
    TwoValues(t[5], t[6]);
    TwoValues(Leaf(Punctuation, "("), Leaf(DmlKeyword, "SELECT"));
  }

  lemma TwoValues(a: Node, b: Node)
    ensures ValueList([a, b]) == Value(a) + Value(b)
  {
    assert [a, b][1..] == [b] && [b][1..] == [];
    assert ValueList([b]) == Value(b) + "";
  }

  lemma ThreeValues(a: Node, b: Node, c: Node)
    ensures ValueList([a, b, c]) == Value(a) + Value(b) + Value(c)
  {
    assert [a, b, c][1..] == [b, c];
    TwoValues(b, c);
  }
}
