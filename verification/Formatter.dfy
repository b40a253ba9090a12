// The formatter itself: a render context updated step by step. Every method is
// proved to compute the state transition of the same name in Rendering.dfy.
module Formatter {
  import opened Text
  import opened SqlTree
  import opened Rendering
  import PostProcess

  class IndentStack {
    var topLevel: int
    var blockLevel: int

    constructor ()
      ensures topLevel == 0 && blockLevel == 0
    {
      topLevel, blockLevel := 0, 0;
    }

    function IndentStr(): string
      reads this
    {
      Spaces(IndentWidth(topLevel, blockLevel))
    }

    method IncreaseTop()
      modifies this
      ensures topLevel == old(topLevel) + 1 && blockLevel == old(blockLevel)
    {
      topLevel := topLevel + 1;
    }

    method DecreaseTop()
      modifies this
      ensures topLevel == NonNegative(old(topLevel) - 1) && blockLevel == old(blockLevel)
    {
      topLevel := NonNegative(topLevel - 1);
    }

    method IncreaseBlock()
      modifies this
      ensures blockLevel == old(blockLevel) + 1 && topLevel == old(topLevel)
    {
      blockLevel := blockLevel + 1;
    }

    method DecreaseBlock()
      modifies this
      ensures blockLevel == NonNegative(old(blockLevel) - 1) && topLevel == old(topLevel)
    {
      blockLevel := NonNegative(blockLevel - 1);
    }
  }

  class RenderCtx {
    var parts: seq<string>
    const stack: IndentStack
    const uppercase: bool
    var afterSpace: bool
    var afterCommaNewline: bool
    var depth: int
    var blockOrigins: seq<Origin>
    var currentClause: string

    constructor (uppercase: bool)
      ensures fresh(stack) && View() == Start(uppercase)
    {
      parts := [];
      stack := new IndentStack();
      this.uppercase := uppercase;
      afterSpace, afterCommaNewline, depth := false, false, 0;
      blockOrigins, currentClause := [], "";
    }

    ghost function View(): State
      reads this, stack
    {
      State(Concat(parts), parts != [], stack.topLevel, stack.blockLevel, uppercase,
        afterSpace, afterCommaNewline, depth, blockOrigins, currentClause)
    }

    method Emit(text: string)
      modifies this
      ensures View() == Rendering.Emit(old(View()), text)
    {
      ConcatPush(parts, text);
      parts := parts + [text];
      afterSpace := false;
    }

    method EmitSpace()
      modifies this
      ensures View() == WithSpace(old(View()))
    {
      afterSpace := true;
    }

    method FlushSpace()
      modifies this
      ensures View() == Rendering.FlushSpace(old(View()))
    {
      if afterSpace {
        ConcatPush(parts, " ");
        parts := parts + [" "];
        afterSpace := false;
      }
    }

    method EmitWord(text: string)
      modifies this
      ensures View() == Rendering.EmitWord(old(View()), text)
    {
      FlushSpace();
      Emit(text);
      EmitSpace();
    }

    // len of the last line of the buffer
    method CurrentLineLength() returns (n: nat)
      ensures n == CurrentColumn(View().text)
    {
      var text := JoinParts(parts);
      var last := |text|;
      assert text[..|text|] == text;
      while last > 0 && text[last - 1] != '\n'
        invariant 0 <= last <= |text|
        invariant CurrentColumn(text) == |text| - last + CurrentColumn(text[..last])
      {
        assert text[..last][..last - 1] == text[..last - 1];
        last := last - 1;
      }
      n := |text| - last;
    }
  }

  // "".join(parts)
  method JoinParts(parts: seq<string>) returns (text: string)
    ensures text == Concat(parts)
  {
    text := "";
    for i := 0 to |parts|
      invariant text == Concat(parts[..i])
    {
      assert parts[..i + 1] == parts[..i] + [parts[i]];
      ConcatPush(parts[..i], parts[i]);
      text := text + parts[i];
    }
    assert parts[..|parts|] == parts;
  }

  // ---------------------------------------------------------------------
  // Keyword emission
  // ---------------------------------------------------------------------

  method FlushCommaNewline(ctx: RenderCtx)
    modifies ctx
    ensures ctx.View() == FlushComma(old(ctx.View()))
  {
    if ctx.afterCommaNewline {
      ctx.Emit("\n" + ctx.stack.IndentStr());
      ctx.afterCommaNewline := false;
    }
  }

  method EmitClauseKeyword(ctx: RenderCtx, keyword: string)
    modifies ctx, ctx.stack
    ensures ctx.View() == EmitClause(old(ctx.View()), keyword)
  {
    ctx.afterSpace := false;
    ctx.afterCommaNewline := false;
    if ctx.stack.topLevel > 0 {
      ctx.stack.DecreaseTop();
    }
    var newline := if ctx.parts != [] then "\n" else "";
    ctx.Emit(newline + ctx.stack.IndentStr() + Pad(keyword) + " ");
    ctx.currentClause := Upper(keyword);
    ctx.stack.IncreaseTop();
  }

  method EmitJoinLikeKeyword(ctx: RenderCtx, keyword: string)
    modifies ctx, ctx.stack
    ensures ctx.View() == EmitJoinLike(old(ctx.View()), keyword)
  {
    ctx.afterSpace := false;
    ctx.afterCommaNewline := false;
    ctx.stack.DecreaseTop();
    var newline := if ctx.parts != [] then "\n" else "";
    ctx.Emit(newline + ctx.stack.IndentStr() + Pad(keyword) + " ");
    ctx.stack.IncreaseTop();
  }

  method EmitSetOperator(ctx: RenderCtx, keyword: string)
    modifies ctx, ctx.stack
    ensures ctx.View() == EmitSetOp(old(ctx.View()), keyword)
  {
    ctx.afterSpace := false;
    ctx.afterCommaNewline := false;
    ctx.stack.topLevel := 0;
    ctx.stack.blockLevel := 0;
    var newline := if ctx.parts != [] then "\n" else "";
    ctx.Emit(newline + Pad(keyword));
  }

  method EmitBlockStart(ctx: RenderCtx, keyword: string)
    modifies ctx, ctx.stack
    ensures ctx.View() == EmitBegin(old(ctx.View()), keyword)
  {
    ctx.afterSpace := false;
    ctx.afterCommaNewline := false;
    ctx.stack.DecreaseTop();
    var newline := if ctx.parts != [] then "\n" else "";
    ctx.Emit(newline + ctx.stack.IndentStr() + Pad(keyword));
    ctx.stack.topLevel := 0;
    ctx.stack.IncreaseBlock();
    ctx.afterCommaNewline := true;
  }

  method EmitEnd(ctx: RenderCtx, keyword: string)
    modifies ctx, ctx.stack
    ensures ctx.View() == EmitBlockEnd(old(ctx.View()), keyword)
  {
    ctx.stack.DecreaseBlock();
    ctx.afterSpace := false;
    ctx.afterCommaNewline := false;
    ctx.stack.DecreaseTop();
    ctx.Emit("\n" + ctx.stack.IndentStr() + Pad(keyword));
    ctx.stack.topLevel := 0;
    ctx.EmitSpace();
  }

  method DispatchKeyword(kind: KeywordKind, kwText: string, ctx: RenderCtx)
    modifies ctx, ctx.stack
    ensures ctx.View() == Dispatch(kind, kwText, old(ctx.View()))
  {
    hide EmitClause, EmitJoinLike, EmitSetOp, EmitBegin, EmitBlockEnd;
    match kind {
      case Clause => EmitClauseKeyword(ctx, kwText);
      case JoinOp => EmitJoinLikeKeyword(ctx, kwText);
      case Logical => EmitJoinLikeKeyword(ctx, kwText);
      case SetOp => EmitSetOperator(ctx, kwText);
      case On => EmitJoinLikeKeyword(ctx, kwText);
      case BlockStart => EmitBlockStart(ctx, kwText);
      case BlockEnd => EmitEnd(ctx, kwText);
      case _ =>
        FlushCommaNewline(ctx);
        ctx.EmitWord(kwText);
    }
  }

  // ---------------------------------------------------------------------
  // Looking around a keyword
  // ---------------------------------------------------------------------

  // One pass with a waiting flag finds exactly the ANDs whose latest earlier
  // deciding keyword is BETWEEN.
  method FindBetweenAnd(toks: Tokens) returns (found: set<nat>)
    ensures found == BetweenAnds(toks)
  {
    hide Normalize, Classify;
    found := {};
    var waiting := false;
    for i := 0 to |toks|
      invariant waiting <==> AwaitsBound(toks, i)
      invariant found == set k: nat | 0 <= k < i && IsBound(toks, k)
    {
      var tok := toks[i];
      AwaitsStep(toks, i);
      if IsKeyword(tok) {
        var norm := Normalize(tok.value);
        if norm == "BETWEEN" {
          waiting := true;
        } else if waiting {
          if norm == "AND" {
            found := found + {i};
            waiting := false;
          } else if Classify(norm) in {Clause, JoinOp, SetOp} {
            waiting := false;
          }
        }
      }
    }
  }

  lemma AwaitsStep(toks: Tokens, i: nat)
    requires i < |toks|
    ensures AwaitsBound(toks, i + 1) <==>
      if IsKeyword(toks[i]) && Normalize(toks[i].value) == "BETWEEN" then true
      else AwaitsBound(toks, i) && !DecidesAnd(toks[i])
  {
    hide Normalize, Classify;
    if AwaitsBound(toks, i + 1) {
      var b :| 0 <= b < i + 1 && IsKeyword(toks[b]) && Normalize(toks[b].value) == "BETWEEN" &&
        forall k :: b < k < i + 1 ==> !DecidesAnd(toks[k]);
    }
    if IsKeyword(toks[i]) && Normalize(toks[i].value) == "BETWEEN" {
      assert 0 <= i < i + 1;
    } else if AwaitsBound(toks, i) && !DecidesAnd(toks[i]) {
      var b :| 0 <= b < i && IsKeyword(toks[b]) && Normalize(toks[b].value) == "BETWEEN" &&
        forall k :: b < k < i ==> !DecidesAnd(toks[k]);
    }
  }

  // The next token, if it is a keyword.
  method PeekNextKeyword(toks: Tokens, idx: nat) returns (next: string)
    requires idx < |toks|
    ensures next == PeekKeyword(toks, idx)
  {
    hide Normalize;
    next := "";
    var j := idx + 1;
    while j < |toks| && IsBlankLeaf(toks[j])
      invariant idx + 1 <= j <= |toks|
      invariant NextVisible(toks, idx + 1) == NextVisible(toks, j)
    {
      j := j + 1;
    }
    if j < |toks| && IsKeyword(toks[j]) {
      next := Normalize(toks[j].value);
    }
  }

  method ResolveDmlCompound(idx: nat, toks: Tokens, uppercase: bool) returns (norm: string, kwText: string, extra: nat)
    requires idx < |toks| && IsKeyword(toks[idx])
    ensures (norm, extra) == ResolveKeyword(toks, idx) && kwText == KeywordText(norm, uppercase)
  {
    hide Normalize, KeywordText;
    norm := Normalize(toks[idx].value);
    extra := 0;
    if norm in COMPOUND_HEADS {
      var next := PeekNextKeyword(toks, idx);
      if norm + " " + next in CLAUSES {
        norm := norm + " " + next;
        while idx + extra + 1 < |toks|
          invariant idx + extra < |toks|
          invariant NextVisible(toks, idx + 1) == NextVisible(toks, idx + extra + 1)
        {
          extra := extra + 1;
          if IsKeyword(toks[idx + extra]) && Normalize(toks[idx + extra].value) == next {
            break;
          }
          if !IsBlankLeaf(toks[idx + extra]) {
            NextOfCompound(toks, idx, extra);
          }
        }
      }
    }
    kwText := KeywordText(norm, uppercase);
  }

  // The token after a compound head is the keyword it was merged with.
  lemma NextOfCompound(toks: Tokens, idx: nat, extra: nat)
    requires idx + extra < |toks| && extra > 0 && IsKeyword(toks[idx])
    requires NextVisible(toks, idx + 1) == NextVisible(toks, idx + extra) && !IsBlankLeaf(toks[idx + extra])
    requires Normalize(toks[idx].value) + " " + PeekKeyword(toks, idx) in CLAUSES
    ensures IsKeyword(toks[idx + extra]) && Normalize(toks[idx + extra].value) == PeekKeyword(toks, idx)
  {
    hide Normalize;
    NoClauseEndsInBlank(Normalize(toks[idx].value));
  }

  method HandleKeywordToken(idx: nat, toks: Tokens, bounds: set<nat>, ctx: RenderCtx) returns (extra: nat)
    requires idx < |toks| && IsKeyword(toks[idx])
    modifies ctx, ctx.stack
    ensures extra == ResolveKeyword(toks, idx).1
    ensures ctx.View() == HandleKeyword(toks, idx, bounds, old(ctx.View()))
  {
    hide ResolveKeyword, Dispatch, Classify, KeywordText;
    var norm, kwText;
    norm, kwText, extra := ResolveDmlCompound(idx, toks, ctx.uppercase);
    var kind := Classify(norm);
    if kind == Logical && idx in bounds {
      kind := Other;
    }
    if kind == BlockStart {
      ctx.blockOrigins := ctx.blockOrigins + [FromBegin];
    } else if kind == CaseStart {
      ctx.blockOrigins := ctx.blockOrigins + [FromCase];
    } else if kind == CaseEnd {
      if ctx.blockOrigins != [] {
        if ctx.blockOrigins[|ctx.blockOrigins| - 1] == FromBegin {
          kind := BlockEnd;
        }
        ctx.blockOrigins := ctx.blockOrigins[..|ctx.blockOrigins| - 1];
      }
    }
    if !KeepsCommaBreak(kind) {
      ctx.afterCommaNewline := false;
    }
    DispatchKeyword(kind, kwText, ctx);
  }

  method HandlePunctuation(tok: Node, ctx: RenderCtx) returns (handled: bool)
    modifies ctx, ctx.stack
    ensures handled <==> IsPunct(tok, ",") || IsPunct(tok, ";")
    ensures ctx.View() == if handled then HandlePunct(tok, old(ctx.View())) else old(ctx.View())
  {
    if IsPunct(tok, ",") {
      ctx.afterSpace := false;
      ctx.Emit(",");
      ctx.afterCommaNewline := true;
      return true;
    }
    if IsPunct(tok, ";") {
      ctx.afterSpace := false;
      ctx.stack.topLevel := 0;
      ctx.Emit(";");
      ctx.afterCommaNewline := true;
      return true;
    }
    return false;
  }

  // ---------------------------------------------------------------------
  // The recursive renderer
  // ---------------------------------------------------------------------

  method RenderTokenList(toks: Tokens, ctx: RenderCtx)
    modifies ctx, ctx.stack
    ensures ctx.View() == RenderList(toks, old(ctx.View()))
    decreases SizeList(toks), 3, 0
  {
    hide BetweenAnds, HandleKeyword, HandlePunct, RenderGroup, ResolveKeyword, FlushComma, Rendering.EmitWord;
    var bounds := FindBetweenAnd(toks);
    var i := 0;
    while i < |toks|
      invariant i <= |toks|
      invariant RenderFrom(toks, i, bounds, ctx.View()) == RenderList(toks, old(ctx.View()))
    {
      var tok := toks[i];
      if IsBlankLeaf(tok) {
        i := i + 1;
        continue;
      }
      var handled := HandlePunctuation(tok, ctx);
      if handled {
        i := i + 1;
        continue;
      }
      if IsKeyword(tok) {
        var extra := HandleKeywordToken(i, toks, bounds, ctx);
        i := i + 1 + extra;
        continue;
      }
      FlushCommaNewline(ctx);
      if tok.Group? {
        SizeMember(toks, i);
        RenderGroupNode(tok, ctx);
      } else {
        ctx.EmitWord(tok.value);
      }
      i := i + 1;
    }
  }

  method RenderGroupNode(node: Node, ctx: RenderCtx)
    requires node.Group?
    modifies ctx, ctx.stack
    ensures ctx.View() == RenderGroup(node, old(ctx.View()))
    decreases Size(node), 1, 0
  {
    hide RenderList, RenderParens, RenderComparison, RenderCaseFrom, CopyText, Rendering.EmitWord;
    match node.group {
      case CaseExpr => RenderCaseNode(node, ctx);
      case Parens => RenderParenthesis(node, ctx);
      case IdList =>
        if ctx.currentClause in {"GROUP BY", "ORDER BY"} && IsSimpleList(node.kids) {
          RenderInlineList(node, ctx);
        } else {
          RenderTokenList(node.kids, ctx);
        }
      case Ident =>
        if IdentNeedsRecursion(node.kids) {
          RenderTokenList(node.kids, ctx);
        } else {
          ctx.EmitWord(CopyText(node, ctx.uppercase));
        }
      case Compare =>
        if ContainsSubquery(node.kids) {
          RenderComparisonSubquery(node, ctx);
        } else {
          ctx.EmitWord(CopyText(node, ctx.uppercase));
        }
      case FuncCall => ctx.EmitWord(CopyText(node, ctx.uppercase));
      case Container => RenderTokenList(node.kids, ctx);
    }
  }

  lemma CopyNext(toks: Tokens, i: nat, items: seq<string>, uppercase: bool)
    requires i < |toks|
    ensures items + CopyAll(toks[i..], uppercase) ==
      items + [CopyText(toks[i], uppercase)] + CopyAll(toks[i + 1..], uppercase)
  {
    hide CopyText;
    assert toks[i..][1..] == toks[i + 1..];
  }

  lemma CopyDone(toks: Tokens, items: seq<string>, uppercase: bool)
    ensures items + CopyAll(toks[|toks|..], uppercase) == items
  {
  }

  method RenderInlineList(node: Node, ctx: RenderCtx)
    requires node.Group?
    modifies ctx
    ensures ctx.View() == Rendering.EmitWord(old(ctx.View()), Join(", ", CopyAll(Items(node.kids), ctx.uppercase)))
  {
    hide Rendering.EmitWord, CopyText, Join, CopyAll;
    var toks, uppercase := Items(node.kids), ctx.uppercase;
    var items: seq<string> := [];
    for i := 0 to |toks|
      invariant items + CopyAll(toks[i..], uppercase) == CopyAll(toks, uppercase)
      invariant ctx.View() == old(ctx.View())
    {
      CopyNext(toks, i, items, uppercase);
      items := items + [CopyText(toks[i], uppercase)];
    }
    CopyDone(toks, items, uppercase);
    ctx.EmitWord(Join(", ", items));
  }

  method RenderParenthesis(node: Node, ctx: RenderCtx)
    requires node.Group?
    modifies ctx, ctx.stack
    ensures ctx.View() == RenderParens(node, old(ctx.View()))
    decreases Size(node), 0, 0
  {
    hide RenderList, HasSelect, ParenText, Inner, Rendering.EmitWord, Spaces, Concat;
    if HasSelect(node.kids, SELECT_DEPTH) {
      if ctx.depth >= MAX_DEPTH {
        ctx.EmitWord(Value(node));
        return;
      }
      ghost var outer := ctx.View();
      ctx.FlushSpace();
      ctx.Emit("(");
      var savedTop, savedBlock := ctx.stack.topLevel, ctx.stack.blockLevel;
      ctx.stack.topLevel := 0;
      ctx.stack.blockLevel := savedBlock + 1;
      ctx.depth := ctx.depth + 1;
      var closeIndent := Spaces(IndentWidth(savedTop, savedBlock));
      assert ctx.View() == EnterSubquery(outer);
      RenderTokenList(Inner(node.kids), ctx);
      ghost var inside := ctx.View();
      ctx.depth := ctx.depth - 1;
      ctx.stack.topLevel := savedTop;
      ctx.stack.blockLevel := savedBlock;
      ctx.Emit("\n" + closeIndent + ")");
      ctx.EmitSpace();
      assert ctx.View() == LeaveSubquery(outer, inside);
    } else {
      ctx.EmitWord(ParenText(node, ctx.uppercase));
    }
  }

  method RenderCaseNode(node: Node, ctx: RenderCtx)
    requires node.Group?
    modifies ctx, ctx.stack
    ensures ctx.View() == RenderCaseFrom(node.kids, 0, old(ctx.View()), Indent(old(ctx.View())), true)
    decreases Size(node), 0, 0
  {
    hide Normalize, RenderComparison, RenderGroup, CopyText, Rendering.EmitWord, Upper, Spaces,
      Rendering.FlushSpace;
    var baseIndent := ctx.stack.IndentStr();
    var whenIndent := baseIndent + Spaces(5);
    var firstWhen := true;
    var i := 0;
    while i < |node.kids|
      invariant i <= |node.kids|
      invariant RenderCaseFrom(node.kids, i, ctx.View(), baseIndent, firstWhen)
             == RenderCaseFrom(node.kids, 0, old(ctx.View()), Indent(old(ctx.View())), true)
    {
      var tok := node.kids[i];
      SizeMember(node.kids, i);
      if IsBlankLeaf(tok) {
      } else if IsKeyword(tok) {
        firstWhen := RenderCaseKeyword(tok, ctx, baseIndent, whenIndent, firstWhen);
      } else if IsSubqueryComparison(tok) {
        RenderComparisonSubquery(tok, ctx);
      } else if tok.Group? && (tok.group.Ident? || tok.group.Compare?) {
        ctx.EmitWord(CopyText(tok, ctx.uppercase));
      } else if tok.Group? {
        ctx.FlushSpace();
        RenderGroupNode(tok, ctx);
      } else {
        ctx.EmitWord(tok.value);
      }
      i := i + 1;
    }
  }

  method RenderCaseKeyword(tok: Node, ctx: RenderCtx, baseIndent: string, whenIndent: string, firstWhen: bool)
      returns (first: bool)
    requires IsKeyword(tok) && whenIndent == baseIndent + Spaces(5)
    modifies ctx
    ensures
      var isWhen := Normalize(tok.value) == "WHEN";
      && first == (firstWhen && !isWhen)
      && ctx.View() == if isWhen then EmitWhen(tok, old(ctx.View()), baseIndent, firstWhen)
        else EmitCaseLeaf(tok, old(ctx.View()), baseIndent)
  {
    hide Normalize, Rendering.EmitWord, Upper, Spaces, Rendering.FlushSpace;
    first := firstWhen;
    var norm := Normalize(tok.value);
    var kwText := if ctx.uppercase then Upper(tok.value) else tok.value;
    if norm == "CASE" {
      ctx.FlushSpace();
      ctx.Emit(kwText + " ");
    } else if norm == "WHEN" {
      ctx.afterSpace := false;
      if firstWhen {
        ctx.Emit(kwText + " ");
        first := false;
      } else {
        assert "\n" + whenIndent + kwText + " " == "\n" + baseIndent + Spaces(5) + kwText + " ";
        ctx.Emit("\n" + whenIndent + kwText + " ");
      }
    } else if norm == "THEN" {
      ctx.afterSpace := false;
      ctx.Emit(" " + kwText + " ");
    } else if norm == "ELSE" {
      ctx.afterSpace := false;
      assert "\n" + whenIndent + kwText + " " == "\n" + baseIndent + Spaces(5) + kwText + " ";
      ctx.Emit("\n" + whenIndent + kwText + " ");
    } else if norm == "END" {
      ctx.afterSpace := false;
      ctx.Emit("\n" + baseIndent + kwText);
      ctx.EmitSpace();
    } else {
      ctx.EmitWord(kwText);
    }
  }

  method EmitLeftOperands(toks: Tokens, ctx: RenderCtx)
    modifies ctx
    ensures ctx.View() == EmitComparisonLeft(toks, old(ctx.View()))
  {
    hide CopyText, Upper, Rendering.EmitWord;
    for i := 0 to |toks|
      invariant EmitComparisonLeft(toks[i..], ctx.View()) == EmitComparisonLeft(toks, old(ctx.View()))
    {
      var child := toks[i];
      assert toks[i..][1..] == toks[i + 1..];
      if IsBlankLeaf(child) {
        continue;
      }
      if child.Group? && (child.group.Ident? || child.group.FuncCall?) {
        ctx.EmitWord(CopyText(child, ctx.uppercase));
      } else if child.Leaf? {
        ctx.EmitWord(if ctx.uppercase && IsKeyword(child) then Upper(child.value) else child.value);
      }
    }
  }

  method RenderComparisonSubquery(node: Node, ctx: RenderCtx)
    requires node.Group? && ContainsSubquery(node.kids)
    modifies ctx
    ensures ctx.View() == RenderComparison(node, old(ctx.View()))
    decreases Size(node), 0, 0
  {
    hide CopyText, Rendering.EmitWord, IsSimpleSubquery, FormatTokens, Lines, TrimLeft, EmitComparisonLeft,
      CurrentColumn, Rendering.FlushSpace, Spaces;
    var p := FirstSubquery(node.kids);
    var paren := node.kids[p];
    if IsSimpleSubquery(paren) {
      ctx.EmitWord(CopyText(node, ctx.uppercase));
      return;
    }
    EmitLeftOperands(node.kids[..p], ctx);
    ctx.FlushSpace();
    var openCol := ctx.CurrentLineLength();
    SizeMember(node.kids, p);
    var formatted := FormatOne(Inner(paren.kids), ctx.uppercase);
    var lines := Lines(formatted);
    ghost var s0 := ctx.View();
    ctx.Emit("(" + TrimLeft(lines[0]));
    ghost var s1 := ctx.View();
    for i := 1 to |lines|
      invariant EmitLines(ctx.View(), lines[i..], openCol) == EmitLines(s1, lines[1..], openCol)
    {
      assert lines[i..][1..] == lines[i + 1..];
      ctx.Emit("\n" + Spaces(openCol) + lines[i]);
    }
    ctx.Emit(")");
    ctx.EmitSpace();
    assert ctx.View() == EmitEmbedded(s0, formatted, openCol);
  }

  // ---------------------------------------------------------------------
  // Statements
  // ---------------------------------------------------------------------

  method CleanUp(sql: string) returns (r: string)
    ensures r == PostProcess.Clean(sql)
  {
    hide PostProcess.CleanLine, Lines, Join, PostProcess.DropTrailingSpaces, PostProcess.DropLeadingNewlines,
      PostProcess.DropTrailingNewlines;
    var lines := Lines(PostProcess.DropTrailingSpaces(sql));
    var cleaned: seq<string> := [];
    for i := 0 to |lines|
      invariant cleaned + PostProcess.CleanLines(lines[i..]) == PostProcess.CleanLines(lines)
    {
      assert lines[i..][1..] == lines[i + 1..];
      cleaned := cleaned + [PostProcess.CleanLine(lines[i])];
    }
    assert cleaned + [] == cleaned;
    r := PostProcess.DropTrailingNewlines(PostProcess.DropLeadingNewlines(Join("\n", cleaned)));
  }

  method FormatOne(toks: Tokens, uppercase: bool) returns (r: string)
    ensures r == FormatTokens(toks, uppercase)
    decreases SizeList(toks), 4, 0
  {
    hide RenderList, PostProcess.Clean;
    var ctx := new RenderCtx(uppercase);
    RenderTokenList(toks, ctx);
    var rendered := JoinParts(ctx.parts);
    r := CleanUp(rendered);
  }

  method FormatSqlTabular(sql: string, stmts: seq<Tokens>, uppercase: bool) returns (r: string)
    ensures r == Format(sql, stmts, uppercase)
  {
    hide FormatTokens, ValueList, Join, Blank;
    if Blank(sql) {
      return sql;
    }
    var results: seq<string> := [];
    for i := 0 to |stmts|
      invariant results + FormatStatements(stmts[i..], uppercase) == FormatStatements(stmts, uppercase)
    {
      assert stmts[i..][1..] == stmts[i + 1..];
      if !Blank(ValueList(stmts[i])) {
        var one := FormatOne(stmts[i], uppercase);
        results := results + [one];
      }
    }
    assert results + [] == results;
    r := if results == [] then sql else Join("\n", results);
  }
}
