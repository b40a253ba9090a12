// Formatting keeps the SQL text: which visible characters of a token tree reach
// the output, for every tree the parser can produce and every render state.
module Preservation {
  import opened Text
  import opened SqlTree
  import opened Rendering
  import PostProcess

  // ---------------------------------------------------------------------
  // Trees the parser produces
  // ---------------------------------------------------------------------

  // A parenthesis node: "(" first, ")" last, no bare parenthesis in between.
  predicate Paired(kids: Tokens) {
    && |kids| >= 2
    && IsPunct(kids[0], "(") && IsPunct(kids[|kids| - 1], ")")
    && forall k :: 0 < k < |kids| - 1 ==> !IsParen(kids[k])
  }

  // An identifier list: items and commas in turn, an item at both ends.
  predicate Alternating(kids: Tokens, needItem: bool) {
    if kids == [] then !needItem
    else if IsBlankLeaf(kids[0]) then Alternating(kids[1..], needItem)
    else if IsPunct(kids[0], ",") then !needItem && Alternating(kids[1..], true)
    else needItem && Alternating(kids[1..], false)
  }

  predicate WellFormed(node: Node) {
    match node
    case Leaf(kind, value) =>
      if kind.Whitespace? then Blank(value)
      else value != "" && !IsSpace(value[0]) && !IsSpace(value[|value| - 1])
    case Group(group, kids) =>
      && (forall k :: 0 <= k < |kids| ==> WellFormed(kids[k]))
      && !Blank(ValueList(kids))
      && (group.Parens? ==> Paired(kids))
      && (group.IdList? ==> Alternating(kids, true))
  }

  predicate AllWellFormed(toks: Tokens) {
    forall k :: 0 <= k < |toks| ==> WellFormed(toks[k])
  }

  lemma InnerOfPaired(kids: Tokens)
    requires Paired(kids)
    ensures Inner(kids) == kids[1..|kids| - 1]
    ensures ValueList(kids) == "(" + ValueList(Inner(kids)) + ")"
  {
    var mid := kids[1..|kids| - 1];
    assert kids[1..] == mid + [kids[|kids| - 1]];
    InnerStops(mid, kids[|kids| - 1]);
    ValueListAppend(mid, [kids[|kids| - 1]]);
    assert ValueList([kids[|kids| - 1]]) == ")";
  }

  lemma {:induction false} InnerStops(mid: Tokens, close: Node)
    requires forall k :: 0 <= k < |mid| ==> !IsParen(mid[k])
    requires IsParen(close)
    ensures Inner(mid + [close]) == mid
  {
    if mid == [] {
      assert ([close])[1..] == [];
      assert mid + [close] == [close];
    } else {
      assert (mid + [close])[1..] == mid[1..] + [close];
      InnerStops(mid[1..], close);
    }
  }

  // ---------------------------------------------------------------------
  // What survives, as a function of the tree and the nesting depth alone
  // ---------------------------------------------------------------------

  function Kept(node: Node, depth: int): string
    decreases Size(node), 1
  {
    match node
    case Leaf(_, value) => Canon(value)
    case Group(group, kids) =>
      match group
      case CaseExpr => KeptCase(kids, depth)
      case Parens =>
        if HasSelect(kids, SELECT_DEPTH) && depth < MAX_DEPTH
        then "(" + KeptList(Inner(kids), depth + 1) + ")"
        else Canon(Value(node))
      case IdList => KeptList(kids, depth)
      case Ident => if IdentNeedsRecursion(kids) then KeptList(kids, depth) else Canon(Value(node))
      case Compare => if ContainsSubquery(kids) then KeptComparison(node) else Canon(Value(node))
      case FuncCall => Canon(Value(node))
      case Container => KeptList(kids, depth)
  }

  function KeptList(toks: Tokens, depth: int): string
    decreases SizeList(toks), 2, |toks|
  {
    if toks == [] then "" else Kept(toks[0], depth) + KeptList(toks[1..], depth)
  }

  function KeptCase(kids: Tokens, depth: int): string
    decreases SizeList(kids), 3, |kids|
  {
    if kids == [] then "" else KeptInCase(kids[0], depth) + KeptCase(kids[1..], depth)
  }

  function KeptInCase(tok: Node, depth: int): string
    decreases Size(tok), 2
  {
    if IsSubqueryComparison(tok) then KeptComparison(tok)
    else if tok.Group? && (tok.group.Ident? || tok.group.Compare?) then Canon(Value(tok))
    else Kept(tok, depth)
  }

  function KeptComparison(node: Node): string
    requires node.Group? && ContainsSubquery(node.kids)
    decreases Size(node), 0
  {
    var p := FirstSubquery(node.kids);
    var paren := node.kids[p];
    SizeMember(node.kids, p);
    if IsSimpleSubquery(paren) then Canon(Value(node))
    else KeptOperands(node.kids[..p]) + "(" + KeptList(Inner(paren.kids), 0) + ")"
  }

  // The tokens on the left of a comparison that are emitted at all.
  predicate IsOperand(tok: Node) {
    tok.Leaf? || tok.group.Ident? || tok.group.FuncCall?
  }

  function KeptOperands(toks: Tokens): string {
    if toks == [] then ""
    else (if IsOperand(toks[0]) then Canon(Value(toks[0])) else "") + KeptOperands(toks[1..])
  }

  // ---------------------------------------------------------------------
  // Nothing is dropped: the condition a caller can read off the tree
  // ---------------------------------------------------------------------

  // In every comparison whose subquery is laid out on its own lines, the
  // subquery comes last and only leaves, identifiers and functions precede it.
  predicate Dropless(node: Node, depth: int)
    decreases Size(node), 1
  {
    match node
    case Leaf(_, _) => true
    case Group(group, kids) =>
      match group
      case CaseExpr => DroplessCase(kids, depth)
      case Parens =>
        HasSelect(kids, SELECT_DEPTH) && depth < MAX_DEPTH ==> DroplessList(Inner(kids), depth + 1)
      case IdList => DroplessList(kids, depth)
      case Ident => IdentNeedsRecursion(kids) ==> DroplessList(kids, depth)
      case Compare => ContainsSubquery(kids) ==> DroplessComparison(node)
      case FuncCall => true
      case Container => DroplessList(kids, depth)
  }

  predicate DroplessList(toks: Tokens, depth: int)
    decreases SizeList(toks), 2, |toks|
  {
    toks == [] || (Dropless(toks[0], depth) && DroplessList(toks[1..], depth))
  }

  predicate DroplessCase(kids: Tokens, depth: int)
    decreases SizeList(kids), 3, |kids|
  {
    kids == [] || (DroplessInCase(kids[0], depth) && DroplessCase(kids[1..], depth))
  }

  predicate DroplessInCase(tok: Node, depth: int)
    decreases Size(tok), 2
  {
    if IsSubqueryComparison(tok) then DroplessComparison(tok)
    else if tok.Group? && (tok.group.Ident? || tok.group.Compare?) then true
    else Dropless(tok, depth)
  }

  predicate DroplessComparison(node: Node)
    requires node.Group? && ContainsSubquery(node.kids)
    decreases Size(node), 0
  {
    var p := FirstSubquery(node.kids);
    var paren := node.kids[p];
    SizeMember(node.kids, p);
    IsSimpleSubquery(paren) ||
    (&& (forall k :: 0 <= k < p ==> IsOperand(node.kids[k]) || Blank(Value(node.kids[k])))
     && Blank(ValueList(node.kids[p + 1..]))
     && DroplessList(Inner(paren.kids), 0))
  }

  // ---------------------------------------------------------------------
  // Verbatim copies
  // ---------------------------------------------------------------------

  lemma {:induction false} BlankIsInvisible(s: string)
    ensures Canon(s) == "" <==> Blank(s)
  {
    if s != "" {
      BlankIsInvisible(s[1..]);
      assert s == [s[0]] + s[1..];
      assert IsSpace(s[0]) && Blank(s[1..]) ==> Blank(s);
      assert Blank(s) ==> IsSpace(s[0]) && Blank(s[1..]);
    }
  }

  lemma {:induction false} KeywordsUpperCells(node: Node, g: bool)
    ensures Cells(KeywordsUpper(node), g) == Cells(Value(node), g)
    ensures Trail(KeywordsUpper(node), g) == Trail(Value(node), g)
  {
    match node
    case Leaf(_, value) =>
      UpperCells(value, g);
    case Group(_, kids) =>
      KeywordsUpperListCells(kids, g);
  }

  lemma {:induction false} KeywordsUpperListCells(toks: Tokens, g: bool)
    ensures Cells(KeywordsUpperList(toks), g) == Cells(ValueList(toks), g)
    ensures Trail(KeywordsUpperList(toks), g) == Trail(ValueList(toks), g)
  {
    if toks != [] {
      var a, b := KeywordsUpper(toks[0]), KeywordsUpperList(toks[1..]);
      var c, d := Value(toks[0]), ValueList(toks[1..]);
      KeywordsUpperCells(toks[0], g);
      CellsAppend(a, b, g);
      CellsAppend(c, d, g);
      KeywordsUpperListCells(toks[1..], Trail(c, g));
    }
  }

  // Copying an identifier, comparison or function changes nothing but the
  // width of its gaps and the case of its keywords.
  lemma CopyTextCells(node: Node, uppercase: bool)
    ensures Cells(CopyText(node, uppercase), true) == Cells(Value(node), true)
    ensures Canon(CopyText(node, uppercase)) == Canon(Value(node))
  {
    if uppercase {
      var t := KeywordsUpper(node);
      StripCells(SquashSpaces(t));
      SquashCells(t, true);
      KeywordsUpperCells(node, true);
    } else {
      WordsCells(Value(node));
    }
    SameCellsSameCanon(CopyText(node, uppercase), Value(node));
  }

  lemma ParenTextCells(node: Node, uppercase: bool)
    ensures Cells(ParenText(node, uppercase), true) == Cells(Value(node), true)
    ensures Canon(ParenText(node, uppercase)) == Canon(Value(node))
  {
    KeywordsUpperCells(node, true);
    SameCellsSameCanon(ParenText(node, uppercase), Value(node));
  }

  lemma RightAlignCells(word: string)
    ensures Cells(RightAlign(word), true) == Cells(word, true)
    ensures Trail(RightAlign(word), true) == Trail(word, true)
  {
    hide Cells, Trail;
    var pad := Spaces(NonNegative(PAD_WIDTH - |word|));
    CellsAppend(pad, word, true);
    TrailAppend(pad, word, true);
    BlankCells(pad, true);
    BlankTrail(pad);
  }

  lemma BlankTrail(pad: string)
    requires Blank(pad)
    ensures Trail(pad, true)
  {
  }

  lemma PadCells(kw: string)
    ensures Cells(Pad(kw), true) == Cells(kw, true)
  {
    hide Cells, Trail, RightAlign;
    var i := IndexOf(kw, ' ');
    if i < |kw| {
      var word, rest := kw[..i], " " + kw[i + 1..];
      assert kw == word + rest;
      assert Pad(kw) == RightAlign(word) + rest;
      RightAlignCells(word);
      CellsAppend(word, rest, true);
      CellsAppend(RightAlign(word), rest, true);
    } else {
      RightAlignCells(kw);
    }
  }

  lemma KeywordTextCells(norm: string, uppercase: bool)
    ensures Cells(KeywordText(norm, uppercase), true) == Cells(norm, true)
  {
    LowerCells(norm, true);
  }

  lemma PaddedKeyword(norm: string, uppercase: bool)
    ensures Cells(Pad(KeywordText(norm, uppercase)), true) == Cells(norm, true)
    ensures Canon(Pad(KeywordText(norm, uppercase))) == Canon(norm)
    ensures Canon(KeywordText(norm, uppercase)) == Canon(norm)
  {
    PadCells(KeywordText(norm, uppercase));
    KeywordTextCells(norm, uppercase);
    SameCellsSameCanon(Pad(KeywordText(norm, uppercase)), norm);
    SameCellsSameCanon(KeywordText(norm, uppercase), norm);
  }

  // The merged keyword spells the tokens it was merged from.
  lemma ResolvedText(toks: Tokens, i: nat)
    requires i < |toks| && IsKeyword(toks[i]) && AllWellFormed(toks)
    ensures
      var (norm, extra) := ResolveKeyword(toks, i);
      && i + extra < |toks|
      && (extra == 0 ==> norm == Normalize(toks[i].value))
      && (extra > 0 ==>
        && (forall k :: i < k < i + extra ==> IsBlankLeaf(toks[k]))
        && IsKeyword(toks[i + extra])
        && norm == Normalize(toks[i].value) + " " + Normalize(toks[i + extra].value))
  {
    hide Normalize;
  }

  // ---------------------------------------------------------------------
  // What one emission adds
  // ---------------------------------------------------------------------

  // The step from st to st' puts exactly the visible text kept into the buffer.
  predicate Adds(st: State, st': State, kept: string) {
    Canon(st'.text) == Canon(st.text) + kept && SameFrame(st, st')
  }

  predicate SameFrame(st: State, st': State) {
    st'.depth == st.depth && st'.uppercase == st.uppercase
  }

  lemma AddsThen(st: State, st1: State, st2: State, k1: string, k2: string)
    requires Adds(st, st1, k1) && Adds(st1, st2, k2)
    ensures Adds(st, st2, k1 + k2)
  {
    hide Canon;
    assert Canon(st.text) + k1 + k2 == Canon(st.text) + (k1 + k2);
  }

  lemma AddsNothing(st: State, st1: State, st2: State, k: string)
    requires Adds(st, st1, "") && Adds(st1, st2, k)
    ensures Adds(st, st2, k)
  {
    hide Canon;
    AddsThen(st, st1, st2, "", k);
    assert "" + k == k;
  }

  lemma EmitAdds(st: State, t: string)
    ensures Adds(st, Emit(st, t), Canon(t))
  {
    hide Canon;
    CanonAppend(st.text, t);
  }

  lemma FramedCanon(pre: string, t: string, post: string)
    requires Blank(pre) && Blank(post)
    ensures Canon(pre + t + post) == Canon(t)
  {
    hide Canon;
    CanonAppend(pre + t, post);
    CanonAppend(pre, t);
    BlankIsInvisible(pre);
    BlankIsInvisible(post);
  }

  // A text framed by whitespace only.
  lemma FramedAdds(st: State, pre: string, t: string, post: string)
    requires Blank(pre) && Blank(post)
    ensures Adds(st, Emit(st, pre + t + post), Canon(t))
  {
    hide Canon, Adds, Emit, Blank;
    EmitAdds(st, pre + t + post);
    FramedCanon(pre, t, post);
  }

  lemma IndentIsBlank(st: State)
    ensures Blank("\n" + Indent(st)) && Blank(LineStart(st) + Indent(st)) && Blank(LineStart(st))
  {
  }

  lemma FlushesAdd(st: State)
    ensures Adds(st, FlushSpace(st), "") && Adds(st, FlushComma(st), "")
  {
    hide Canon, Indent, Blank;
    CanonAppend(st.text, " ");
    CanonAppend(st.text, "\n" + Indent(st));
    IndentIsBlank(st);
    BlankIsInvisible("\n" + Indent(st));
    OneBlank();
    assert Canon(st.text) + "" == Canon(st.text);
  }

  lemma OneBlank()
    ensures Blank(" ") && Canon(" ") == "" && Blank("")
  {
  }

  lemma EmitWordAdds(st: State, t: string)
    ensures Adds(st, EmitWord(st, t), Canon(t))
  {
    hide Canon, FlushSpace;
    FlushesAdd(st);
    EmitAdds(FlushSpace(st), t);
    AddsNothing(st, FlushSpace(st), Emit(FlushSpace(st), t), Canon(t));
  }

  // A word after a pending line break.
  lemma BrokenWordAdds(st: State, t: string)
    ensures Adds(st, EmitWord(FlushComma(st), t), Canon(t))
  {
    hide Adds, Canon, EmitWord, FlushComma;
    FlushesAdd(st);
    EmitWordAdds(FlushComma(st), t);
    AddsNothing(st, FlushComma(st), EmitWord(FlushComma(st), t), Canon(t));
  }

  lemma PunctAdds(tok: Node, st: State)
    requires IsPunct(tok, ",") || IsPunct(tok, ";")
    ensures Adds(st, HandlePunct(tok, st), Canon(tok.value))
  {
    hide Canon;
    CanonAppend(st.text, tok.value);
  }

  lemma ClauseAdds(st: State, kw: string)
    ensures Adds(st, EmitClause(st, kw), Canon(Pad(kw)))
  {
    hide Canon, Pad, Indent, Blank, LineStart, Upper;
    OneBlank();
    var s0 := st.(space := false, comma := false, top := if st.top > 0 then st.top - 1 else st.top);
    IndentIsBlank(s0);
    FramedAdds(s0, LineStart(s0) + Indent(s0), Pad(kw), " ");
  }

  lemma SetOpAdds(st: State, kw: string)
    ensures Adds(st, EmitSetOp(st, kw), Canon(Pad(kw)))
  {
    hide Canon, Pad, Indent, Blank, LineStart;
    OneBlank();
    var s0 := st.(space := false, comma := false, top := 0, block := 0);
    IndentIsBlank(s0);
    FramedAdds(s0, LineStart(s0), Pad(kw), "");
    assert LineStart(s0) + Pad(kw) + "" == LineStart(s0) + Pad(kw);
  }

  lemma BlocksAdd(st: State, kw: string)
    ensures Adds(st, EmitBegin(st, kw), Canon(Pad(kw))) && Adds(st, EmitBlockEnd(st, kw), Canon(Pad(kw)))
  {
    hide Canon, Pad, Indent, Blank, LineStart;
    OneBlank();
    var s0 := st.(space := false, comma := false, top := NonNegative(st.top - 1));
    IndentIsBlank(s0);
    FramedAdds(s0, LineStart(s0) + Indent(s0), Pad(kw), "");
    assert LineStart(s0) + Indent(s0) + Pad(kw) + "" == LineStart(s0) + Indent(s0) + Pad(kw);
    var s1 := st.(block := NonNegative(st.block - 1), space := false, comma := false, top := NonNegative(st.top - 1));
    IndentIsBlank(s1);
    FramedAdds(s1, "\n" + Indent(s1), Pad(kw), "");
    assert "\n" + Indent(s1) + Pad(kw) + "" == "\n" + Indent(s1) + Pad(kw);
  }

  lemma DispatchAdds(kind: KeywordKind, norm: string, st: State)
    ensures Adds(st, Dispatch(kind, KeywordText(norm, st.uppercase), st), Canon(norm))
  {
    hide Adds, Canon, Cells, Pad, KeywordText, EmitClause, EmitJoinLike, EmitSetOp, EmitBegin, EmitBlockEnd,
      EmitWord, FlushComma;
    var kw := KeywordText(norm, st.uppercase);
    PaddedKeyword(norm, st.uppercase);
    ClauseAdds(st, kw);
    JoinLikeAdds(st, kw);
    SetOpAdds(st, kw);
    BlocksAdd(st, kw);
    BrokenWordAdds(st, kw);
  }

  lemma JoinLikeAdds(st: State, kw: string)
    ensures Adds(st, EmitJoinLike(st, kw), Canon(Pad(kw)))
  {
    hide Canon, Pad, Indent, Blank, LineStart;
    OneBlank();
    var s0 := st.(space := false, comma := false, top := NonNegative(st.top - 1));
    IndentIsBlank(s0);
    FramedAdds(s0, LineStart(s0) + Indent(s0), Pad(kw), " ");
  }

  lemma NormalizedCanon(value: string)
    ensures Canon(Normalize(value)) == Canon(value)
  {
    NormalizeCells(value);
    SameCellsSameCanon(Normalize(value), value);
  }

  // A keyword, with the tokens merged into it, adds its own text.
  lemma KeywordAdds(toks: Tokens, i: nat, bounds: set<nat>, st: State)
    requires i < |toks| && IsKeyword(toks[i])
    ensures Adds(st, HandleKeyword(toks, i, bounds, st), Canon(ResolveKeyword(toks, i).0))
  {
    hide Canon, Dispatch, KeywordText, KindAt, Nest, ResolveKeyword;
    var norm := ResolveKeyword(toks, i).0;
    var (kind, origins) := Nest(KindAt(toks, i, bounds), st.origins);
    DispatchAdds(kind, norm, st.(origins := origins, comma := if KeepsCommaBreak(kind) then st.comma else false));
  }

  lemma ResolvedKept(toks: Tokens, i: nat, depth: int)
    requires i < |toks| && IsKeyword(toks[i]) && AllWellFormed(toks)
    ensures
      var (norm, extra) := ResolveKeyword(toks, i);
      KeptList(toks[i..], depth) == Canon(norm) + KeptList(toks[i + 1 + extra..], depth)
  {
    hide Canon, ResolveKeyword, Normalize;
    var (norm, extra) := ResolveKeyword(toks, i);
    ResolvedText(toks, i);
    NormalizedCanon(toks[i].value);
    assert toks[i..][1..] == toks[i + 1..];
    if extra > 0 {
      var j := i + extra;
      NormalizedCanon(toks[j].value);
      MergedCanon(Normalize(toks[i].value), Normalize(toks[j].value));
      KeptSkipsBlanks(toks, i + 1, j, depth);
      assert toks[j..][1..] == toks[j + 1..];
    }
  }

  lemma MergedCanon(head: string, next: string)
    ensures Canon(head + " " + next) == Canon(head) + Canon(next)
  {
    hide Canon;
    CanonAppend(head + " ", next);
    CanonAppend(head, " ");
    OneBlank();
    assert Canon(head) + "" == Canon(head);
  }

  lemma {:induction false} KeptSkipsBlanks(toks: Tokens, i: nat, j: nat, depth: int)
    requires i <= j <= |toks| && AllWellFormed(toks)
    requires forall k :: i <= k < j ==> IsBlankLeaf(toks[k])
    ensures KeptList(toks[i..], depth) == KeptList(toks[j..], depth)
    decreases j - i
  {
    if i < j {
      assert toks[i..][1..] == toks[i + 1..];
      BlankIsInvisible(toks[i].value);
      KeptSkipsBlanks(toks, i + 1, j, depth);
    }
  }

  // ---------------------------------------------------------------------
  // Lists on one line
  // ---------------------------------------------------------------------

  lemma {:induction false} NoParenNoLoss(node: Node, depth: int)
    requires WellFormed(node) && '(' !in Value(node)
    ensures Kept(node, depth) == Canon(Value(node))
    decreases Size(node), 1
  {
    match node
    case Leaf(_, _) =>
    case Group(group, kids) =>
      forall k | 0 <= k < |kids| ensures '(' !in Value(kids[k]) {
        ValueContains(kids, k);
      }
      if group.Parens? {
        OpensWithParen(node);
        assert false;
      }
      if ContainsSubquery(kids) {
        OpensWithParen(kids[FirstSubquery(kids)]);
        assert false;
      }
      if group.CaseExpr? {
        NoParenCase(kids, depth);
      } else {
        NoParenList(kids, depth);
      }
  }

  lemma OpensWithParen(node: Node)
    requires WellFormed(node) && node.Group? && node.group.Parens?
    ensures '(' in Value(node)
  {
    InnerOfPaired(node.kids);
    assert Value(node)[0] == '(';
  }

  lemma {:induction false} ValueContains(kids: Tokens, k: nat)
    requires k < |kids| && '(' !in ValueList(kids)
    ensures '(' !in Value(kids[k])
  {
    assert forall c :: c in Value(kids[0]) ==> c in ValueList(kids);
    if k > 0 {
      assert forall c :: c in ValueList(kids[1..]) ==> c in ValueList(kids);
      ValueContains(kids[1..], k - 1);
    }
  }

  lemma {:induction false} NoParenList(toks: Tokens, depth: int)
    requires AllWellFormed(toks) && forall k :: 0 <= k < |toks| ==> '(' !in Value(toks[k])
    ensures KeptList(toks, depth) == Canon(ValueList(toks))
    decreases SizeList(toks), 2, |toks|
  {
    if toks != [] {
      NoParenNoLoss(toks[0], depth);
      NoParenList(toks[1..], depth);
      CanonAppend(Value(toks[0]), ValueList(toks[1..]));
    }
  }

  lemma {:induction false} NoParenCase(kids: Tokens, depth: int)
    requires AllWellFormed(kids) && forall k :: 0 <= k < |kids| ==> '(' !in Value(kids[k])
    ensures KeptCase(kids, depth) == Canon(ValueList(kids))
    decreases SizeList(kids), 3, |kids|
  {
    if kids != [] {
      var tok := kids[0];
      NoParenNoLoss(tok, depth);
      if IsSubqueryComparison(tok) {
        var p := FirstSubquery(tok.kids);
        ValueContains(tok.kids, p);
        OpensWithParen(tok.kids[p]);
        assert false;
      }
      NoParenCase(kids[1..], depth);
      CanonAppend(Value(tok), ValueList(kids[1..]));
    }
  }

  // One line "a, b, c" says what the list says.
  lemma {:induction false} InlineListText(kids: Tokens, uppercase: bool)
    requires AllWellFormed(kids) && Alternating(kids, true)
    ensures Canon(Join(", ", CopyAll(Items(kids), uppercase))) == Canon(ValueList(kids))
    ensures Items(kids) != []
    decreases |kids|
  {
    hide Canon, CopyText;
    CanonAppend(Value(kids[0]), ValueList(kids[1..]));
    if IsBlankLeaf(kids[0]) {
      BlankIsInvisible(kids[0].value);
      InlineListText(kids[1..], uppercase);
    } else {
      CopyTextCells(kids[0], uppercase);
      InlineListRest(kids[1..], CopyText(kids[0], uppercase), uppercase);
      assert Items(kids)[1..] == Items(kids[1..]);
      assert CopyAll(Items(kids), uppercase) == [CopyText(kids[0], uppercase)] + CopyAll(Items(kids[1..]), uppercase);
    }
  }

  // ... with an item already at the head of the line.
  lemma {:induction false} InlineListRest(kids: Tokens, first: string, uppercase: bool)
    requires AllWellFormed(kids) && Alternating(kids, false)
    ensures Canon(Join(", ", [first] + CopyAll(Items(kids), uppercase))) == Canon(first) + Canon(ValueList(kids))
    decreases |kids|
  {
    hide Canon, CopyText;
    if kids == [] {
      CanonAppend("", "");
      assert Canon("") == "" by { BlankIsInvisible(""); }
      assert Canon(first) + "" == Canon(first);
    } else {
      CanonAppend(Value(kids[0]), ValueList(kids[1..]));
      if IsBlankLeaf(kids[0]) {
        BlankIsInvisible(kids[0].value);
        InlineListRest(kids[1..], first, uppercase);
      } else {
        InlineListText(kids[1..], uppercase);
        var rest := CopyAll(Items(kids[1..]), uppercase);
        assert Items(kids) == Items(kids[1..]);
        CommaJoin(first, rest, Canon(ValueList(kids[1..])));
      }
    }
  }

  lemma CommaJoin(first: string, rest: seq<string>, tail: string)
    requires rest != [] && Canon(Join(", ", rest)) == tail
    ensures Canon(Join(", ", [first] + rest)) == Canon(first) + (Canon(",") + tail)
  {
    hide Canon;
    assert ([first] + rest)[1..] == rest;
    assert Join(", ", [first] + rest) == first + ", " + Join(", ", rest);
    CanonAppend(first + ", ", Join(", ", rest));
    CanonAppend(first, ", ");
    assert ", " == "," + " ";
    CanonAppend(",", " ");
    OneBlank();
    assert Canon(",") + "" == Canon(",");
  }

  // ---------------------------------------------------------------------
  // Comparisons with a subquery
  // ---------------------------------------------------------------------

  lemma OperandAdds(tok: Node, st: State)
    requires WellFormed(tok)
    ensures Adds(st, EmitOperand(tok, st), if IsOperand(tok) then Canon(Value(tok)) else "")
  {
    hide Canon, EmitWord, CopyText, Cells;
    assert Canon(st.text) + "" == Canon(st.text);
    if IsBlankLeaf(tok) {
      BlankIsInvisible(tok.value);
    } else if tok.Leaf? {
      var t := if st.uppercase && IsKeyword(tok) then Upper(tok.value) else tok.value;
      EmitWordAdds(st, t);
      UpperCanon(tok.value);
    } else if IsOperand(tok) {
      EmitWordAdds(st, CopyText(tok, st.uppercase));
      CopyTextCells(tok, st.uppercase);
    }
  }

  lemma UpperCanon(s: string)
    ensures Canon(Upper(s)) == Canon(s)
  {
    UpperCells(s, true);
    SameCellsSameCanon(Upper(s), s);
  }

  lemma {:induction false} OperandsAdd(toks: Tokens, st: State)
    requires AllWellFormed(toks)
    ensures Adds(st, EmitComparisonLeft(toks, st), KeptOperands(toks))
  {
    hide Canon, EmitOperand;
    if toks == [] {
      assert Canon(st.text) + "" == Canon(st.text);
    } else {
      var st1 := EmitOperand(toks[0], st);
      OperandAdds(toks[0], st);
      OperandsAdd(toks[1..], st1);
      AddsThen(st, st1, EmitComparisonLeft(toks[1..], st1),
        if IsOperand(toks[0]) then Canon(Value(toks[0])) else "", KeptOperands(toks[1..]));
    }
  }

  lemma {:induction false} LinesAdd(st: State, lines: seq<string>, column: nat)
    ensures Adds(st, EmitLines(st, lines, column), Canon(Join("\n", lines)))
    decreases |lines|
  {
    hide Canon;
    if lines == [] {
      BlankIsInvisible("");
      assert Canon(st.text) + "" == Canon(st.text);
    } else {
      var pre := "\n" + Spaces(column);
      FramedAdds(st, pre, lines[0], "");
      assert pre + lines[0] + "" == pre + lines[0];
      var st1 := Emit(st, pre + lines[0]);
      LinesAdd(st1, lines[1..], column);
      AddsThen(st, st1, EmitLines(st1, lines[1..], column), Canon(lines[0]), Canon(Join("\n", lines[1..])));
      JoinedCanon(lines);
    }
  }

  lemma JoinedCanon(lines: seq<string>)
    requires lines != []
    ensures Canon(Join("\n", lines)) == Canon(lines[0]) + Canon(Join("\n", lines[1..]))
  {
    hide Canon;
    if |lines| == 1 {
      BlankIsInvisible("");
      assert Canon(lines[0]) + "" == Canon(lines[0]);
    } else {
      CanonAppend(lines[0] + "\n", Join("\n", lines[1..]));
      FramedCanon("", lines[0], "\n");
      assert "" + lines[0] + "\n" == lines[0] + "\n";
    }
  }

  lemma EmbeddedAdds(st: State, formatted: string, column: nat)
    ensures Adds(st, EmitEmbedded(st, formatted, column), "(" + Canon(formatted) + ")")
  {
    hide Canon, Lines, EmitLines, Cells, Emit, Adds, Join, TrimLeft;
    var lines := Lines(formatted);
    JoinLines(formatted);
    JoinedCanon(lines);
    var first, rest := TrimLeft(lines[0]), Join("\n", lines[1..]);
    var st1 := Emit(st, "(" + first);
    var st2 := EmitLines(st1, lines[1..], column);
    EmitAdds(st, "(" + first);
    CanonAppend("(", first);
    ParenCanon();
    TrimLeftCells(lines[0]);
    LinesAdd(st1, lines[1..], column);
    EmitAdds(st2, ")");
    AddsThen(st, st1, st2, "(" + Canon(first), Canon(rest));
    AddsThen(st, st2, Emit(st2, ")"), "(" + Canon(first) + Canon(rest), ")");
    AddsPendingSpace(st, Emit(st2, ")"), "(" + Canon(first) + Canon(rest) + ")");
    assert "(" + Canon(first) + Canon(rest) == "(" + (Canon(first) + Canon(rest));
  }

  lemma ParenCanon()
    ensures Canon("(") == "(" && Canon(")") == ")"
  {
  }

  // ---------------------------------------------------------------------
  // The renderer adds exactly what is kept
  // ---------------------------------------------------------------------

  lemma {:induction false} ListAdds(toks: Tokens, st: State)
    requires AllWellFormed(toks)
    ensures Adds(st, RenderList(toks, st), KeptList(toks, st.depth))
    decreases SizeList(toks), 3, 0
  {
    hide Canon, Adds;
    FromAdds(toks, 0, BetweenAnds(toks), st);
    assert toks[0..] == toks;
  }

  lemma {:induction false} FromAdds(toks: Tokens, i: nat, bounds: set<nat>, st: State)
    requires i <= |toks| && AllWellFormed(toks)
    ensures Adds(st, RenderFrom(toks, i, bounds, st), KeptList(toks[i..], st.depth))
    decreases SizeList(toks), 2, |toks| - i
  {
    hide Canon, HandleKeyword, HandlePunct, RenderGroup, ResolveKeyword, FlushComma, EmitWord;
    if i == |toks| {
      assert Canon(st.text) + "" == Canon(st.text);
    } else {
      var tok := toks[i];
      assert toks[i..][1..] == toks[i + 1..];
      if IsBlankLeaf(tok) {
        BlankIsInvisible(tok.value);
        FromAdds(toks, i + 1, bounds, st);
      } else if IsKeyword(tok) {
        var extra := ResolveKeyword(toks, i).1;
        var st1 := HandleKeyword(toks, i, bounds, st);
        KeywordAdds(toks, i, bounds, st);
        ResolvedKept(toks, i, st.depth);
        FromAdds(toks, i + 1 + extra, bounds, st1);
        AddsThen(st, st1, RenderFrom(toks, i + 1 + extra, bounds, st1),
          Canon(ResolveKeyword(toks, i).0), KeptList(toks[i + 1 + extra..], st.depth));
      } else {
        var st1 := if IsPunct(tok, ",") || IsPunct(tok, ";") then HandlePunct(tok, st)
                   else if tok.Group? then RenderGroup(tok, FlushComma(st))
                   else EmitWord(FlushComma(st), tok.value);
        if IsPunct(tok, ",") || IsPunct(tok, ";") {
          PunctAdds(tok, st);
        } else if tok.Group? {
          SizeMember(toks, i);
          FlushesAdd(st);
          GroupAdds(tok, FlushComma(st));
          AddsNothing(st, FlushComma(st), st1, Kept(tok, st.depth));
        } else {
          BrokenWordAdds(st, tok.value);
        }
        FromAdds(toks, i + 1, bounds, st1);
        AddsThen(st, st1, RenderFrom(toks, i + 1, bounds, st1), Kept(tok, st.depth), KeptList(toks[i + 1..], st.depth));
      }
    }
  }

  lemma {:induction false} GroupAdds(node: Node, st: State)
    requires node.Group? && WellFormed(node)
    ensures Adds(st, RenderGroup(node, st), Kept(node, st.depth))
    decreases Size(node), 1, 0
  {
    hide Canon, CopyText, EmitWord, Cells, Adds, Indent, Blank;
    CopyTextCells(node, st.uppercase);
    EmitWordAdds(st, CopyText(node, st.uppercase));
    match node.group
    case CaseExpr =>
      CaseIndentBlank(st);
      CaseAdds(node.kids, 0, st, Indent(st), true);
      assert node.kids[0..] == node.kids;
    case Parens => ParensAdds(node, st);
    case IdList =>
      if st.clause in {"GROUP BY", "ORDER BY"} && IsSimpleList(node.kids) {
        InlineListText(node.kids, st.uppercase);
        EmitWordAdds(st, Join(", ", CopyAll(Items(node.kids), st.uppercase)));
        SimpleListNoLoss(node.kids, st.depth);
      } else {
        ListAdds(node.kids, st);
      }
    case Ident =>
      if IdentNeedsRecursion(node.kids) { ListAdds(node.kids, st); }
    case Compare =>
      if ContainsSubquery(node.kids) { ComparisonAdds(node, st); }
    case FuncCall =>
    case Container => ListAdds(node.kids, st);
  }

  lemma CaseIndentBlank(st: State)
    ensures Blank(Indent(st))
  {
  }

  lemma SimpleListNoLoss(kids: Tokens, depth: int)
    requires AllWellFormed(kids) && IsSimpleList(kids)
    ensures KeptList(kids, depth) == Canon(ValueList(kids))
  {
    hide Canon, KeptList;
    forall k | 0 <= k < |kids| ensures '(' !in Value(kids[k]) {
      if IsItem(kids[k]) {
        var v := Value(kids[k]);
        assert IsPlainItem(kids[k]);
        assert forall j :: 0 <= j < |v| && v[j] == '(' ==> Upper(v)[j] == '(';
      } else if IsBlankLeaf(kids[k]) {
        assert Blank(kids[k].value);
      }
    }
    NoParenList(kids, depth);
  }

  lemma {:induction false} ParensAdds(node: Node, st: State)
    requires node.Group? && node.group.Parens? && WellFormed(node)
    ensures Adds(st, RenderParens(node, st), Kept(node, st.depth))
    decreases Size(node), 0, 0
  {
    hide Canon, EmitWord, ParenText, HasSelect, RenderList, Inner, FlushSpace, Indent;
    if !HasSelect(node.kids, SELECT_DEPTH) {
      ParenTextCells(node, st.uppercase);
      EmitWordAdds(st, ParenText(node, st.uppercase));
    } else if st.depth >= MAX_DEPTH {
      EmitWordAdds(st, Value(node));
    } else {
      var inner := Inner(node.kids);
      InnerOfPaired(node.kids);
      var s0 := EnterSubquery(st);
      var s1 := RenderList(inner, s0);
      ListAdds(inner, s0);
      EnterAdds(st);
      LeaveAdds(st, s0, s1, KeptList(inner, st.depth + 1));
    }
  }

  lemma EnterAdds(st: State)
    ensures
      var s0 := EnterSubquery(st);
      Canon(s0.text) == Canon(st.text) + "(" && s0.depth == st.depth + 1 && s0.uppercase == st.uppercase
  {
    hide Canon, FlushSpace;
    FlushesAdd(st);
    EmitAdds(FlushSpace(st), "(");
    ParenCanon();
  }

  lemma LeaveAdds(st: State, s0: State, s1: State, kept: string)
    requires Canon(s0.text) == Canon(st.text) + "(" && s0.depth == st.depth + 1 && s0.uppercase == st.uppercase
    requires Adds(s0, s1, kept)
    ensures Adds(st, LeaveSubquery(st, s1), "(" + kept + ")")
  {
    hide Canon, Indent;
    IndentIsBlank(st);
    var close := "\n" + Indent(st);
    CanonAppend(s1.text, close + ")");
    FramedCanon(close, ")", "");
    assert close + ")" + "" == close + ")";
    ParenCanon();
    assert Canon(st.text) + "(" + kept + ")" == Canon(st.text) + ("(" + kept + ")");
  }

  lemma {:induction false} CaseAdds(kids: Tokens, i: nat, st: State, base: string, firstWhen: bool)
    requires i <= |kids| && AllWellFormed(kids) && Blank(base)
    ensures Adds(st, RenderCaseFrom(kids, i, st, base, firstWhen), KeptCase(kids[i..], st.depth))
    decreases SizeList(kids), 2, |kids| - i
  {
    hide Canon, EmitWhen, EmitCaseLeaf, RenderCaseGroup, Normalize, Blank;
    if i == |kids| {
      assert Canon(st.text) + "" == Canon(st.text);
    } else {
      var tok := kids[i];
      assert kids[i..][1..] == kids[i + 1..];
      var isWhen := IsKeyword(tok) && Normalize(tok.value) == "WHEN";
      var st1 := if isWhen then EmitWhen(tok, st, base, firstWhen)
                 else if tok.Leaf? then EmitCaseLeaf(tok, st, base)
                 else RenderCaseGroup(tok, st);
      var first1 := if isWhen then false else firstWhen;
      if tok.Leaf? {
        CaseLeafAdds(tok, st, base, firstWhen);
      } else {
        SizeMember(kids, i);
        CaseGroupAdds(tok, st);
      }
      assert Adds(st, st1, KeptInCase(tok, st.depth));
      CaseAdds(kids, i + 1, st1, base, first1);
      AddsThen(st, st1, RenderCaseFrom(kids, i + 1, st1, base, first1),
        KeptInCase(tok, st.depth), KeptCase(kids[i + 1..], st.depth));
    }
  }

  lemma CaseLeafAdds(tok: Node, st: State, base: string, firstWhen: bool)
    requires tok.Leaf? && WellFormed(tok) && Blank(base)
    ensures Adds(st, EmitWhen(tok, st, base, firstWhen), Canon(tok.value))
    ensures Adds(st, EmitCaseLeaf(tok, st, base), Canon(tok.value))
  {
    hide Canon, Emit, Adds, FlushSpace, EmitWord, Normalize;
    var kw := CaseKeyword(tok, st);
    UpperCanon(tok.value);
    BlankIsInvisible(tok.value);
    OneBlank();
    SpaceDropped(st);
    FlushesAdd(st);
    EmitWordAdds(st, tok.value);
    EmitWordAdds(st, kw);
    var s0 := st.(space := false);
    var s1 := FlushSpace(st);
    FramedAdds(s0, "\n" + base + Spaces(5), kw, " ");
    AddsNothing(st, s0, Emit(s0, "\n" + base + Spaces(5) + kw + " "), Canon(kw));
    FramedAdds(s0, "\n" + base, kw, "");
    assert "\n" + base + kw + "" == "\n" + base + kw;
    AddsNothing(st, s0, Emit(s0, "\n" + base + kw), Canon(kw));
    AddsPendingSpace(st, Emit(s0, "\n" + base + kw), Canon(kw));
    FramedAdds(s0, " ", kw, " ");
    AddsNothing(st, s0, Emit(s0, " " + kw + " "), Canon(kw));
    FramedAdds(s0, "", kw, " ");
    assert "" + kw + " " == kw + " ";
    AddsNothing(st, s0, Emit(s0, kw + " "), Canon(kw));
    FramedAdds(s1, "", kw, " ");
    AddsNothing(st, s1, Emit(s1, kw + " "), Canon(kw));
  }

  lemma SpaceDropped(st: State)
    ensures Adds(st, st, "") && Adds(st, st.(space := false), "")
  {
    hide Canon;
    assert Canon(st.text) + "" == Canon(st.text);
  }

  lemma AddsPendingSpace(st: State, st': State, k: string)
    requires Adds(st, st', k)
    ensures Adds(st, WithSpace(st'), k)
  {
  }

  lemma {:induction false} CaseGroupAdds(tok: Node, st: State)
    requires tok.Group? && WellFormed(tok)
    ensures Adds(st, RenderCaseGroup(tok, st), KeptInCase(tok, st.depth))
    decreases Size(tok), 2, 0
  {
    hide Canon, EmitWord, CopyText, FlushSpace, Cells, RenderGroup, RenderComparison;
    if IsSubqueryComparison(tok) {
      ComparisonAdds(tok, st);
    } else if tok.group.Ident? || tok.group.Compare? {
      CopyTextCells(tok, st.uppercase);
      EmitWordAdds(st, CopyText(tok, st.uppercase));
    } else {
      FlushesAdd(st);
      GroupAdds(tok, FlushSpace(st));
      AddsNothing(st, FlushSpace(st), RenderGroup(tok, FlushSpace(st)), Kept(tok, st.depth));
    }
  }

  lemma {:induction false} ComparisonAdds(node: Node, st: State)
    requires node.Group? && ContainsSubquery(node.kids) && WellFormed(node)
    ensures Adds(st, RenderComparison(node, st), KeptComparison(node))
    decreases Size(node), 0, 0
  {
    hide Canon, EmitWord, CopyText, FlushSpace, Cells, Adds, IsSimpleSubquery, EmitComparisonLeft, EmitEmbedded,
      CurrentColumn, KeptOperands, KeptList, FormatTokens;
    var p := FirstSubquery(node.kids);
    var paren := node.kids[p];
    SizeMember(node.kids, p);
    if IsSimpleSubquery(paren) {
      CopyTextCells(node, st.uppercase);
      EmitWordAdds(st, CopyText(node, st.uppercase));
    } else {
      var inner, operands := Inner(paren.kids), node.kids[..p];
      InnerOfPaired(paren.kids);
      var left := EmitComparisonLeft(operands, st);
      var s0 := FlushSpace(left);
      OperandsAdd(operands, st);
      AddsKeepsFrame(st, left, KeptOperands(operands));
      FlushesAdd(left);
      AddsKeepsFrame(left, s0, "");
      AddsThen(st, left, s0, KeptOperands(operands), "");
      assert KeptOperands(operands) + "" == KeptOperands(operands);
      var formatted := FormatTokens(inner, st.uppercase);
      FormatKeeps(inner, st.uppercase);
      var st' := EmitEmbedded(s0, formatted, CurrentColumn(s0.text));
      EmbeddedAdds(s0, formatted, CurrentColumn(s0.text));
      AddsThen(st, s0, st', KeptOperands(operands), "(" + KeptList(inner, 0) + ")");
      assert KeptOperands(operands) + ("(" + KeptList(inner, 0) + ")") ==
        KeptOperands(operands) + "(" + KeptList(inner, 0) + ")";
    }
  }

  lemma AddsKeepsFrame(st: State, st': State, k: string)
    requires Adds(st, st', k)
    ensures SameFrame(st, st')
  {
  }

  // A formatted statement shows exactly what its tree keeps.
  lemma {:induction false} FormatKeeps(toks: Tokens, uppercase: bool)
    requires AllWellFormed(toks)
    ensures Canon(FormatTokens(toks, uppercase)) == KeptList(toks, 0)
    decreases SizeList(toks), 4, 0
  {
    hide KeptList, RenderList, PostProcess.Clean;
    ListAdds(toks, Start(uppercase));
    PostProcess.CleanKeepsCells(RenderList(toks, Start(uppercase)).text);
  }
}
