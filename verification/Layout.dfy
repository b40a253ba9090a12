// Layout: what every reachable render state keeps, where keywords land, and
// which END closes which block.
module Layout {
  import opened Text
  import opened SqlTree
  import opened Rendering
  import opened PostProcess

  // ---------------------------------------------------------------------
  // Invariant of every render state
  // ---------------------------------------------------------------------

  predicate Laid(st: State) {
    && (st.top == 0 || st.top == 1)
    && st.block >= 0
    && 0 <= st.depth <= 30
    && (!st.hasContent ==> st.text == "")
  }

  lemma StartLaid(uppercase: bool)
    ensures Laid(Start(uppercase))
  {
  }

  lemma SmallStepsLaid(st: State, t: string)
    requires Laid(st)
    ensures Laid(Emit(st, t)) && Laid(FlushSpace(st)) && Laid(FlushComma(st)) && Laid(EmitWord(st, t))
    ensures Laid(EmitWord(FlushComma(st), t))
  {
    hide Indent;
  }

  lemma DispatchLaid(kind: KeywordKind, kw: string, st: State)
    requires Laid(st)
    ensures Laid(Dispatch(kind, kw, st)) && Dispatch(kind, kw, st).depth == st.depth
  {
    hide Indent, Pad, Upper, LineStart;
  }

  lemma KeywordLaid(toks: Tokens, i: nat, bounds: set<nat>, st: State)
    requires i < |toks| && IsKeyword(toks[i]) && Laid(st)
    ensures Laid(HandleKeyword(toks, i, bounds, st)) && HandleKeyword(toks, i, bounds, st).depth == st.depth
  {
    hide Dispatch, Nest, KindAt, ResolveKeyword, KeywordText;
    var (kind, origins) := Nest(KindAt(toks, i, bounds), st.origins);
    DispatchLaid(kind, KeywordText(ResolveKeyword(toks, i).0, st.uppercase),
      st.(origins := origins, comma := if KeepsCommaBreak(kind) then st.comma else false));
  }

  // After any list, the levels are in range and the depth is what it was.
  lemma {:induction false} ListLaid(toks: Tokens, st: State)
    requires Laid(st)
    ensures Laid(RenderList(toks, st)) && RenderList(toks, st).depth == st.depth
    decreases SizeList(toks), 3, 0
  {
    FromLaid(toks, 0, BetweenAnds(toks), st);
  }

  lemma {:induction false} FromLaid(toks: Tokens, i: nat, bounds: set<nat>, st: State)
    requires i <= |toks| && Laid(st)
    ensures Laid(RenderFrom(toks, i, bounds, st)) && RenderFrom(toks, i, bounds, st).depth == st.depth
    decreases SizeList(toks), 2, |toks| - i
  {
    hide HandleKeyword, RenderGroup, ResolveKeyword, Indent;
    if i < |toks| {
      var tok := toks[i];
      if IsBlankLeaf(tok) {
        FromLaid(toks, i + 1, bounds, st);
      } else if IsPunct(tok, ",") || IsPunct(tok, ";") {
        FromLaid(toks, i + 1, bounds, HandlePunct(tok, st));
      } else if IsKeyword(tok) {
        KeywordLaid(toks, i, bounds, st);
        FromLaid(toks, i + 1 + ResolveKeyword(toks, i).1, bounds, HandleKeyword(toks, i, bounds, st));
      } else if tok.Group? {
        SizeMember(toks, i);
        SmallStepsLaid(st, "");
        GroupLaid(tok, FlushComma(st));
        FromLaid(toks, i + 1, bounds, RenderGroup(tok, FlushComma(st)));
      } else {
        SmallStepsLaid(st, tok.value);
        FromLaid(toks, i + 1, bounds, EmitWord(FlushComma(st), tok.value));
      }
    }
  }

  lemma {:induction false} GroupLaid(node: Node, st: State)
    requires node.Group? && Laid(st)
    ensures Laid(RenderGroup(node, st)) && RenderGroup(node, st).depth == st.depth
    decreases Size(node), 1, 0
  {
    hide CopyText, EmitWord, Indent, Join, CopyAll;
    SmallStepsLaid(st, CopyText(node, st.uppercase));
    SmallStepsLaid(st, Join(", ", CopyAll(Items(node.kids), st.uppercase)));
    WordDepth(st, CopyText(node, st.uppercase));
    WordDepth(st, Join(", ", CopyAll(Items(node.kids), st.uppercase)));
    match node.group
    case CaseExpr => CaseLaid(node.kids, 0, st, Indent(st), true);
    case Parens => SubqueryRestores(node, st);
    case IdList => ListLaid(node.kids, st);
    case Ident => ListLaid(node.kids, st);
    case Compare => if ContainsSubquery(node.kids) { ComparisonLaid(node, st); }
    case FuncCall =>
    case Container => ListLaid(node.kids, st);
  }

  lemma WordDepth(st: State, t: string)
    ensures EmitWord(st, t).depth == st.depth && EmitWord(st, t).top == st.top && EmitWord(st, t).block == st.block
  {
  }

  // A subquery leaves both levels and the depth as it found them, whatever set
  // operators inside it reset, and never nests deeper than the limit.
  lemma {:induction false} SubqueryRestores(node: Node, st: State)
    requires node.Group? && Laid(st)
    ensures
      var st' := RenderParens(node, st);
      Laid(st') && st'.top == st.top && st'.block == st.block && st'.depth == st.depth
    decreases Size(node), 0, 0
  {
    hide Indent, EmitWord, ParenText, HasSelect, RenderList;
    SmallStepsLaid(st, ParenText(node, st.uppercase));
    SmallStepsLaid(st, Value(node));
    WordDepth(st, ParenText(node, st.uppercase));
    WordDepth(st, Value(node));
    if HasSelect(node.kids, SELECT_DEPTH) && st.depth < MAX_DEPTH {
      ListLaid(Inner(node.kids), EnterSubquery(st));
    }
  }

  lemma {:induction false} CaseLaid(kids: Tokens, i: nat, st: State, base: string, firstWhen: bool)
    requires i <= |kids| && Laid(st)
    ensures Laid(RenderCaseFrom(kids, i, st, base, firstWhen)) &&
      RenderCaseFrom(kids, i, st, base, firstWhen).depth == st.depth
    decreases SizeList(kids), 2, |kids| - i
  {
    hide Normalize, CaseKeyword, RenderCaseGroup, EmitWhen, EmitCaseLeaf, Laid;
    if i < |kids| {
      var tok := kids[i];
      if tok.Leaf? {
        CaseLeafLaid(tok, st, base, firstWhen);
      }
      if IsKeyword(tok) && Normalize(tok.value) == "WHEN" {
        CaseLaid(kids, i + 1, EmitWhen(tok, st, base, firstWhen), base, false);
      } else if tok.Leaf? {
        CaseLaid(kids, i + 1, EmitCaseLeaf(tok, st, base), base, firstWhen);
      } else {
        SizeMember(kids, i);
        CaseGroupLaid(tok, st);
        CaseLaid(kids, i + 1, RenderCaseGroup(tok, st), base, firstWhen);
      }
    }
  }

  lemma CaseLeafLaid(tok: Node, st: State, base: string, firstWhen: bool)
    requires tok.Leaf? && Laid(st)
    ensures Laid(EmitWhen(tok, st, base, firstWhen)) && EmitWhen(tok, st, base, firstWhen).depth == st.depth
    ensures Laid(EmitCaseLeaf(tok, st, base)) && EmitCaseLeaf(tok, st, base).depth == st.depth
  {
    hide Normalize, CaseKeyword;
  }

  lemma {:induction false} CaseGroupLaid(tok: Node, st: State)
    requires tok.Group? && Laid(st)
    ensures Laid(RenderCaseGroup(tok, st)) && RenderCaseGroup(tok, st).depth == st.depth
    decreases Size(tok), 2, 0
  {
    hide CopyText, EmitWord;
    SmallStepsLaid(st, CopyText(tok, st.uppercase));
    WordDepth(st, CopyText(tok, st.uppercase));
    if IsSubqueryComparison(tok) {
      ComparisonLaid(tok, st);
    } else if !tok.group.Ident? && !tok.group.Compare? {
      GroupLaid(tok, FlushSpace(st));
    }
  }

  lemma ComparisonLaid(node: Node, st: State)
    requires node.Group? && ContainsSubquery(node.kids) && Laid(st)
    ensures Laid(RenderComparison(node, st)) && RenderComparison(node, st).depth == st.depth
  {
    hide CopyText, EmitWord, FormatTokens, CurrentColumn, IsSimpleSubquery;
    SmallStepsLaid(st, CopyText(node, st.uppercase));
    WordDepth(st, CopyText(node, st.uppercase));
    var s := FirstSubquery(node.kids);
    OperandsLaid(node.kids[..s], st);
    var s0 := FlushSpace(EmitComparisonLeft(node.kids[..s], st));
    var lines := Lines(FormatTokens(Inner(node.kids[s].kids), st.uppercase));
    LinesLaid(Emit(s0, "(" + TrimLeft(lines[0])), lines[1..], CurrentColumn(s0.text));
  }

  lemma {:induction false} OperandsLaid(toks: Tokens, st: State)
    requires Laid(st)
    ensures Laid(EmitComparisonLeft(toks, st)) && EmitComparisonLeft(toks, st).depth == st.depth
  {
    hide CopyText, Upper;
    if toks != [] {
      OperandsLaid(toks[1..], EmitOperand(toks[0], st));
    }
  }

  lemma {:induction false} LinesLaid(st: State, lines: seq<string>, column: nat)
    requires Laid(st)
    ensures Laid(EmitLines(st, lines, column)) && EmitLines(st, lines, column).depth == st.depth
    decreases |lines|
  {
    if lines != [] {
      LinesLaid(Emit(st, "\n" + Spaces(column) + lines[0]), lines[1..], column);
    }
  }

  // ---------------------------------------------------------------------
  // Columns
  // ---------------------------------------------------------------------

  function LastLine(text: string): string {
    if text == "" || text[|text| - 1] == '\n' then "" else LastLine(text[..|text| - 1]) + [text[|text| - 1]]
  }

  lemma {:induction false} LastLineAfterBreak(a: string, b: string)
    requires '\n' !in b
    ensures LastLine(a + "\n" + b) == b
  {
    if b == "" {
      assert a + "\n" + b == a + "\n";
    } else {
      var c := b[..|b| - 1];
      assert (a + "\n" + b)[..|a + "\n" + b| - 1] == a + "\n" + c;
      LastLineAfterBreak(a, c);
      assert b == c + [b[|b| - 1]];
    }
  }

  lemma {:induction false} LastLineWhole(b: string)
    requires '\n' !in b
    ensures LastLine(b) == b
  {
    if b != "" {
      LastLineWhole(b[..|b| - 1]);
    }
  }

  // The first word of a keyword.
  function FirstWord(kw: string): string {
    kw[..IndexOf(kw, ' ')]
  }

  // The line a clause, JOIN, AND/OR or ON keyword opens: the first word ends in
  // column 6 * block + 7, whatever was rendered before.
  function KeywordLine(block: nat, kw: string): string
    requires |FirstWord(kw)| <= 7
  {
    Spaces(6 * block + 7 - |FirstWord(kw)|) + kw + " "
  }

  lemma PaddedLine(block: nat, kw: string)
    requires |FirstWord(kw)| <= 7
    ensures Spaces(IndentWidth(0, block)) + Pad(kw) + " " == KeywordLine(block, kw)
  {
    hide Spaces;
    var n, m := IndentWidth(0, block), PAD_WIDTH - |FirstWord(kw)|;
    PadPrefix(kw);
    SpacesAdd(n, m);
    assert Spaces(n) + (Spaces(m) + kw) + " " == Spaces(n) + Spaces(m) + kw + " ";
  }

  lemma SpacesAdd(n: nat, m: nat)
    ensures Spaces(n) + Spaces(m) == Spaces(n + m)
  {
  }

  lemma PadPrefix(kw: string)
    requires |FirstWord(kw)| <= PAD_WIDTH
    ensures Pad(kw) == Spaces(PAD_WIDTH - |FirstWord(kw)|) + kw
  {
    hide Spaces;
    var i := IndexOf(kw, ' ');
    var pad := Spaces(PAD_WIDTH - i);
    if i < |kw| {
      assert kw == kw[..i] + " " + kw[i + 1..];
      assert Pad(kw) == pad + kw[..i] + " " + kw[i + 1..] == pad + kw;
    } else {
      assert kw[..i] == kw;
    }
  }

  lemma KeywordColumn(st: State, kw: string)
    requires Laid(st) && '\n' !in kw && |FirstWord(kw)| <= 7
    ensures LastLine(EmitClause(st, kw).text) == KeywordLine(st.block, kw)
    ensures LastLine(EmitJoinLike(st, kw).text) == KeywordLine(st.block, kw)
  {
    hide Pad, KeywordLine, LastLine;
    var line := KeywordLine(st.block, kw);
    PaddedLine(st.block, kw);
    assert '\n' !in line by { NoBreak(st.block, kw); }
    LastLineAfterBreak(st.text, line);
    LastLineWhole(line);
    var pad := Spaces(IndentWidth(0, st.block));
    if st.hasContent {
      assert st.text + ("\n" + pad + Pad(kw) + " ") == st.text + "\n" + (pad + Pad(kw) + " ");
    } else {
      assert "" + ("" + pad + Pad(kw) + " ") == pad + Pad(kw) + " ";
    }
  }

  // BEGIN opens a block six columns further right, END closes it in the column it was
  // opened in; what comes behind BEGIN starts on a new line.
  lemma BlockColumns(st: State, kw: string)
    requires Laid(st) && '\n' !in kw && |FirstWord(kw)| <= 7
    ensures
      var r := EmitBegin(st, kw);
      && LastLine(r.text) + " " == KeywordLine(st.block, kw) && r.block == st.block + 1 && r.top == 0 && r.comma
    ensures
      var r, outer := EmitBlockEnd(st, kw), if st.block > 0 then st.block - 1 else 0;
      && LastLine(r.text) + " " == KeywordLine(outer, kw) && r.block == outer && r.top == 0 && r.space
  {
    hide Pad, KeywordLine, LastLine, LineStart;
    var outer := if st.block > 0 then st.block - 1 else 0;
    StartOfLine(st);
    BlockLine(st.text, LineStart(st), st.block, kw);
    BlockLine(st.text, "\n", outer, kw);
    assert LineStart(st.(space := false, comma := false, top := 0)) == LineStart(st) by { SameStart(st); }
  }

  lemma SameStart(st: State)
    ensures LineStart(st.(space := false, comma := false, top := 0)) == LineStart(st)
  {
  }

  lemma StartOfLine(st: State)
    requires Laid(st)
    ensures LineStart(st) == "\n" || (LineStart(st) == "" && st.text == "")
  {
  }

  lemma BlockLine(t: string, start: string, block: nat, kw: string)
    requires '\n' !in kw && |FirstWord(kw)| <= 7 && (start == "\n" || (start == "" && t == ""))
    ensures LastLine(t + (start + Spaces(IndentWidth(0, block)) + Pad(kw))) + " " == KeywordLine(block, kw)
  {
    hide Pad, LastLine;
    var line := Spaces(IndentWidth(0, block)) + Pad(kw);
    PaddedLine(block, kw);
    assert line + " " == KeywordLine(block, kw);
    assert '\n' !in line by {
      NoBreak(block, kw);
      assert line == KeywordLine(block, kw)[..|line|];
    }
    LastLineAfterBreak(t, line);
    LastLineWhole(line);
    assert t + ("\n" + Spaces(IndentWidth(0, block)) + Pad(kw)) == t + "\n" + line;
    assert "" + ("" + Spaces(IndentWidth(0, block)) + Pad(kw)) == line;
  }

  lemma NoBreak(block: nat, kw: string)
    requires '\n' !in kw && |FirstWord(kw)| <= 7
    ensures '\n' !in KeywordLine(block, kw)
  {
  }

  // The clean-up leaves the indentation and the first word of a line in place.
  lemma CleanLineKeepsStart(n: nat, word: string, rest: string)
    requires word != "" && forall i :: 0 <= i < |word| ==> !IsSpace(word[i])
    ensures Spaces(n) + word <= CleanLine(Spaces(n) + word + rest)
  {
    var line := Spaces(n) + word + rest;
    RunOf(n, word + rest);
    assert line == Spaces(n) + (word + rest);
    assert line[n..] == word + rest;
    CollapseKeepsWord(word, rest, false);
    var content := CollapseRuns(word + rest, false);
    TrimKeepsPrefix(content, word);
  }

  lemma {:induction false} RunOf(n: nat, t: string)
    requires t != "" && t[0] != ' '
    ensures SpaceRun(Spaces(n) + t) == n
  {
    if n == 0 {
      assert Spaces(0) + t == t;
    } else {
      assert (Spaces(n) + t)[1..] == Spaces(n - 1) + t;
      RunOf(n - 1, t);
    }
  }

  lemma {:induction false} CollapseKeepsWord(word: string, rest: string, preceded: bool)
    requires forall i :: 0 <= i < |word| ==> !IsSpace(word[i])
    ensures word <= CollapseRuns(word + rest, preceded)
  {
    if word != "" {
      assert (word + rest)[1..] == word[1..] + rest;
      CollapseKeepsWord(word[1..], rest, word[0] != '\n');
      assert word == [word[0]] + word[1..];
    }
  }

  lemma {:induction false} TrimKeepsPrefix(s: string, word: string)
    requires word <= s && word != "" && !IsSpace(word[|word| - 1])
    ensures word <= TrimRight(s)
  {
    if IsSpace(s[|s| - 1]) {
      TrimKeepsPrefix(s[..|s| - 1], word);
    }
  }

  lemma DispatchOrigins(kind: KeywordKind, kw: string, st: State)
    ensures
      var st' := Dispatch(kind, kw, st);
      && st'.origins == st.origins
      && st'.block == (match kind
                       case SetOp => 0
                       case BlockStart => st.block + 1
                       case BlockEnd => NonNegative(st.block - 1)
                       case _ => st.block)
  {
    hide Indent, Pad, Upper, LineStart;
  }
}
