// Which END closes which block: the kinds the renderer gives the keywords of a token
// tree, in the order it comes to them through all nested lists, and what is left open
// behind it.
module Blocks {
  import opened Text
  import opened SqlTree
  import opened Rendering
  import opened Layout
  import opened Transcript
  import opened Transcribes

  type Kinds = seq<KeywordKind>

  // ---------------------------------------------------------------------
  // The keywords handled, in order
  // ---------------------------------------------------------------------

  // A keyword handled in a list: what it is, END not attributed yet, what it is rendered
  // as, and whether it stands outside every laid-out parenthesis of the tree.
  datatype Handled = Handled(kind: KeywordKind, written: KeywordKind, outer: bool)

  function Inward(fs: seq<Handled>): seq<Handled> {
    seq(|fs|, i requires 0 <= i < |fs| => fs[i].(outer := false))
  }

  function HandledAt(toks: Tokens, i: nat, bounds: set<nat>, st: State): Handled
    requires i < |toks| && IsKeyword(toks[i])
  {
    var kind := KindAt(toks, i, bounds);
    Handled(kind, Nest(kind, st.origins).0, true)
  }

  // The keywords of a list and of the lists rendered with it.
  function Flat(toks: Tokens, st: State): seq<Handled>
    decreases SizeList(toks), 3, 0
  {
    FlatFrom(toks, 0, BetweenAnds(toks), st)
  }

  function FlatFrom(toks: Tokens, i: nat, bounds: set<nat>, st: State): seq<Handled>
    requires i <= |toks|
    decreases SizeList(toks), 2, |toks| - i
  {
    if i == |toks| then []
    else
      var own :=
        if IsKeyword(toks[i]) then [HandledAt(toks, i, bounds, st)]
        else if toks[i].Group? then SizeMember(toks, i); FlatGroup(toks[i], FlushComma(st))
        else [];
      own + FlatFrom(toks, StepTo(toks, i), bounds, StepState(toks, i, bounds, st))
  }

  function FlatGroup(node: Node, st: State): seq<Handled>
    requires node.Group?
    decreases Size(node), 1, 0
  {
    match node.group
    case CaseExpr => FlatCase(node.kids, 0, st, Indent(st), true)
    case Parens => FlatParens(node, st)
    case IdList =>
      if st.clause in {"GROUP BY", "ORDER BY"} && IsSimpleList(node.kids) then [] else Flat(node.kids, st)
    case Ident => if IdentNeedsRecursion(node.kids) then Flat(node.kids, st) else []
    case Compare => []
    case FuncCall => []
    case Container => Flat(node.kids, st)
  }

  function FlatParens(node: Node, st: State): seq<Handled>
    requires node.Group?
    decreases Size(node), 0, 0
  {
    if !HasSelect(node.kids, SELECT_DEPTH) || st.depth >= MAX_DEPTH then []
    else Inward(Flat(Inner(node.kids), EnterSubquery(st)))
  }

  // CASE, WHEN, THEN, ELSE and END of a CASE expression do not touch the open blocks.
  function FlatCase(kids: Tokens, i: nat, st: State, base: string, firstWhen: bool): seq<Handled>
    requires i <= |kids|
    decreases SizeList(kids), 2, |kids| - i
  {
    if i == |kids| then []
    else
      var tok := kids[i];
      if IsKeyword(tok) && Normalize(tok.value) == "WHEN"
      then FlatCase(kids, i + 1, EmitWhen(tok, st, base, firstWhen), base, false)
      else if tok.Leaf? then FlatCase(kids, i + 1, EmitCaseLeaf(tok, st, base), base, firstWhen)
      else
        SizeMember(kids, i);
        FlatCaseGroup(tok, st) + FlatCase(kids, i + 1, RenderCaseGroup(tok, st), base, firstWhen)
  }

  function FlatCaseGroup(tok: Node, st: State): seq<Handled>
    requires tok.Group?
    decreases Size(tok), 2, 0
  {
    if tok.group.Ident? || tok.group.Compare? then [] else FlatGroup(tok, FlushSpace(st))
  }

  // ---------------------------------------------------------------------
  // What they do
  // ---------------------------------------------------------------------

  function KindsOf(fs: seq<Handled>): Kinds {
    seq(|fs|, i requires 0 <= i < |fs| => fs[i].kind)
  }

  function WrittenAs(fs: seq<Handled>): Kinds {
    seq(|fs|, i requires 0 <= i < |fs| => fs[i].written)
  }

  // The blocks open behind them.
  function OriginsAfter(fs: seq<Handled>, origins: seq<Origin>): seq<Origin> {
    if fs == [] then origins else Nest(fs[|fs| - 1].kind, OriginsAfter(fs[..|fs| - 1], origins)).1
  }

  function BlockStep(kind: KeywordKind, block: int): int {
    match kind
    case SetOp => 0
    case BlockStart => block + 1
    case BlockEnd => NonNegative(block - 1)
    case _ => block
  }

  // The block level behind them: a laid-out parenthesis restores it.
  function BlockAfter(fs: seq<Handled>, block: int): int {
    if fs == [] then block
    else
      var before, last := BlockAfter(fs[..|fs| - 1], block), fs[|fs| - 1];
      if last.outer then BlockStep(last.written, before) else before
  }

  // Each is rendered as the stack of open blocks says.
  predicate ByStack(fs: seq<Handled>, origins: seq<Origin>) {
    fs == [] ||
    var before, last := fs[..|fs| - 1], fs[|fs| - 1];
    ByStack(before, origins) && !last.kind.BlockEnd? &&
    last.written == Nest(last.kind, OriginsAfter(before, origins)).0
  }

  // The kinds of the keywords written in lists.
  function KeyKinds(ps: seq<Piece>): Kinds {
    if ps == [] then [] else (if ps[0].Key? then [ps[0].kind] else []) + KeyKinds(ps[1..])
  }

  // The keywords account for the blocks open after rendering, for the block level, and
  // for the keywords written in lists.
  predicate Tells(fs: seq<Handled>, ps: seq<Piece>, st: State, st': State) {
    && st'.origins == OriginsAfter(fs, st.origins)
    && st'.block == BlockAfter(fs, st.block)
    && ByStack(fs, st.origins)
    && KeyKinds(ps) == WrittenAs(fs)
  }

  lemma {:induction false} AfterAppend(a: seq<Handled>, b: seq<Handled>, origins: seq<Origin>, block: int)
    ensures OriginsAfter(a + b, origins) == OriginsAfter(b, OriginsAfter(a, origins))
    ensures BlockAfter(a + b, block) == BlockAfter(b, BlockAfter(a, block))
    ensures ByStack(a + b, origins) <==> ByStack(a, origins) && ByStack(b, OriginsAfter(a, origins))
  {
    hide Nest, BlockStep;
    if b == [] {
      assert a + b == a;
    } else {
      var n := |b| - 1;
      assert (a + b)[..|a + b| - 1] == a + b[..n] && (a + b)[|a + b| - 1] == b[n];
      AfterAppend(a, b[..n], origins, block);
    }
  }

  lemma {:induction false} KeyKindsAppend(a: seq<Piece>, b: seq<Piece>)
    ensures KeyKinds(a + b) == KeyKinds(a) + KeyKinds(b)
  {
    hide KeyKinds;
    if a == [] {
      assert a + b == b;
      NoKeys(a);
    } else {
      KeyKindsAppend(a[1..], b);
      KeyKindsFirst(a);
      KeyKindsFirst(a + b);
      var own := if a[0].Key? then [a[0].kind] else [];
      assert own + (KeyKinds(a[1..]) + KeyKinds(b)) == own + KeyKinds(a[1..]) + KeyKinds(b);
      assert (a + b)[1..] == a[1..] + b && (a + b)[0] == a[0];
    }
  }

  lemma KeyKindsFirst(ps: seq<Piece>)
    requires ps != []
    ensures KeyKinds(ps) == (if ps[0].Key? then [ps[0].kind] else []) + KeyKinds(ps[1..])
  {
  }

  lemma TellsThen(f1: seq<Handled>, p1: seq<Piece>, st: State, st1: State, f2: seq<Handled>, p2: seq<Piece>, st2: State)
    requires Tells(f1, p1, st, st1) && Tells(f2, p2, st1, st2)
    ensures Tells(f1 + f2, p1 + p2, st, st2)
  {
    hide OriginsAfter, BlockAfter, ByStack, KeyKinds;
    AfterAppend(f1, f2, st.origins, st.block);
    KeyKindsAppend(p1, p2);
    assert WrittenAs(f1 + f2) == WrittenAs(f1) + WrittenAs(f2);
  }

  // Neither the open blocks nor the block level changed.
  predicate Keeps(st: State, st': State) {
    st'.origins == st.origins && st'.block == st.block
  }

  lemma TellsNothing(ps: seq<Piece>, st: State, st': State)
    requires Keeps(st, st') && KeyKinds(ps) == []
    ensures Tells([], ps, st, st')
  {
  }

  // Pieces without a keyword of a list in front.
  lemma TellsBehind(lead: seq<Piece>, st: State, st1: State, fs: seq<Handled>, ps: seq<Piece>, st2: State)
    requires Keeps(st, st1) && KeyKinds(lead) == [] && Tells(fs, ps, st1, st2)
    ensures Tells(fs, lead + ps, st, st2)
  {
    hide Tells, Keeps;
    TellsNothing(lead, st, st1);
    TellsThen([], lead, st, st1, fs, ps, st2);
    assert [] + fs == fs;
  }

  lemma {:induction false} NoKeys(ps: seq<Piece>)
    requires forall k :: 0 <= k < |ps| ==> !ps[k].Key?
    ensures KeyKinds(ps) == []
  {
    if ps != [] {
      NoKeys(ps[1..]);
    }
  }

  // ---------------------------------------------------------------------
  // The renderer
  // ---------------------------------------------------------------------

  lemma LaysKeep(st: State)
    ensures Keeps(st, FlushComma(st)) && Keeps(st, FlushSpace(st))
    ensures KeyKinds(LayComma(st)) == [] && KeyKinds(LaySpace(st)) == []
  {
    hide Indent;
    NoKeys(LayComma(st));
    NoKeys(LaySpace(st));
  }

  // A word, a copy or a parenthesis copied as it stands.
  lemma WordTells(st: State, t: string, p: Piece)
    requires !p.Key?
    ensures Tells([], LaySpace(st) + [p], st, EmitWord(st, t))
  {
    var ps := LaySpace(st) + [p];
    NoKeys(ps);
    TellsNothing(ps, st, EmitWord(st, t));
  }

  lemma KeywordTells(toks: Tokens, i: nat, bounds: set<nat>, st: State)
    requires i < |toks| && IsKeyword(toks[i])
    ensures Tells([HandledAt(toks, i, bounds, st)], KeywordPieces(toks, i, bounds, st), st,
                  HandleKeyword(toks, i, bounds, st))
  {
    hide KindAt, ResolveKeyword, Dispatch, KeywordText, KeyPieces, KeyKinds, OriginsAfter, BlockAfter, ByStack, Nest;
    NeverBlockEnd(toks, i, bounds);
    var f := HandledAt(toks, i, bounds, st);
    var (kind, origins) := Nest(KindAt(toks, i, bounds), st.origins);
    var (norm, extra) := ResolveKeyword(toks, i);
    var s0 := st.(origins := origins, comma := if KeepsCommaBreak(kind) then st.comma else false);
    DispatchOrigins(kind, KeywordText(norm, st.uppercase), s0);
    OneKey(kind, toks[i..i + 1 + extra], KeywordText(norm, st.uppercase), s0);
    assert WrittenAs([f]) == [kind];
    OneHandled(f, st.origins, st.block);
  }

  lemma OneHandled(f: Handled, origins: seq<Origin>, block: int)
    ensures OriginsAfter([f], origins) == Nest(f.kind, origins).1
    ensures BlockAfter([f], block) == if f.outer then BlockStep(f.written, block) else block
    ensures ByStack([f], origins) <==> !f.kind.BlockEnd? && f.written == Nest(f.kind, origins).0
  {
    hide Nest, BlockStep;
    assert [f][..0] == [];
  }

  lemma NeverBlockEnd(toks: Tokens, i: nat, bounds: set<nat>)
    requires i < |toks| && IsKeyword(toks[i])
    ensures !KindAt(toks, i, bounds).BlockEnd?
  {
    hide ResolveKeyword;
  }

  lemma OneKey(kind: KeywordKind, own: Tokens, kw: string, st: State)
    ensures KeyKinds(KeyPieces(kind, own, kw, st)) == [kind]
  {
    hide KeyIndent, Padding, LineStart, LayComma, LaySpace, FlushComma, KeyKinds;
    var key := Key(kind, st.block, own, kw);
    KeyAlone(key);
    match kind
    case Clause => KeyFramed(Lay(LineStart(st) + KeyIndent(st.block) + Padding(kw)), key);
    case JoinOp => KeyFramed(Lay(LineStart(st) + KeyIndent(st.block) + Padding(kw)), key);
    case Logical => KeyFramed(Lay(LineStart(st) + KeyIndent(st.block) + Padding(kw)), key);
    case On => KeyFramed(Lay(LineStart(st) + KeyIndent(st.block) + Padding(kw)), key);
    case SetOp => KeyFramed(Lay(LineStart(st) + Padding(kw)), key);
    case BlockStart => KeyFramed(Lay(LineStart(st) + KeyIndent(st.block) + Padding(kw)), key);
    case BlockEnd => KeyFramed(Lay("\n" + KeyIndent(NonNegative(st.block - 1)) + Padding(kw)), key);
    case _ =>
      LaysKeep(st);
      LaysKeep(FlushComma(st));
      KeyKindsAppend(LayComma(st), LaySpace(FlushComma(st)));
      KeyKindsAppend(LayComma(st) + LaySpace(FlushComma(st)), [key]);
  }

  lemma KeyAlone(key: Piece)
    requires key.Key?
    ensures KeyKinds([key]) == [key.kind]
  {
    assert [key][1..] == [];
  }

  lemma KeyFramed(lead: Piece, key: Piece)
    requires lead.Lay? && key.Key?
    ensures KeyKinds([lead, key]) == [key.kind] && KeyKinds([lead, key, Lay(" ")]) == [key.kind]
  {
    KeyAlone(key);
    assert [lead, key][1..] == [key] && [lead, key, Lay(" ")][1..] == [key, Lay(" ")];
    assert [key, Lay(" ")][1..] == [Lay(" ")];
    NoKeys([Lay(" ")]);
  }

  lemma {:induction false} ListTells(toks: Tokens, st: State)
    ensures Tells(Flat(toks, st), Pieces(toks, st), st, RenderList(toks, st))
    decreases SizeList(toks), 3, 0
  {
    hide Tells, FlatFrom, PiecesFrom, RenderFrom;
    FromTells(toks, 0, BetweenAnds(toks), st);
  }

  lemma {:induction false} FromTells(toks: Tokens, i: nat, bounds: set<nat>, st: State)
    requires i <= |toks|
    ensures Tells(FlatFrom(toks, i, bounds, st), PiecesFrom(toks, i, bounds, st), st, RenderFrom(toks, i, bounds, st))
    decreases SizeList(toks), 2, |toks| - i
  {
    hide Tells, RenderFrom, PiecesFrom, FlatGroup, HandledAt, StepState, StepPieces, StepTo;
    if i == |toks| {
      NoMore(toks, bounds, st);
      TellsNone(st);
    } else {
      OneStep(toks, i, bounds, st);
      var next, st1, ps := StepTo(toks, i), StepState(toks, i, bounds, st), StepPieces(toks, i, bounds, st);
      FromTells(toks, next, bounds, st1);
      var rest, behind := FlatFrom(toks, next, bounds, st1), RenderFrom(toks, next, bounds, st1);
      var own := FlatStep(toks, i, bounds, st);
      StepTells(toks, i, bounds, st);
      TellsThen(own, ps, st, st1, rest, PiecesFrom(toks, next, bounds, st1), behind);
    }
  }

  lemma TellsNone(st: State)
    ensures Tells([], [], st, st)
  {
  }

  function FlatStep(toks: Tokens, i: nat, bounds: set<nat>, st: State): seq<Handled>
    requires i < |toks|
  {
    if IsKeyword(toks[i]) then [HandledAt(toks, i, bounds, st)]
    else if toks[i].Group? then FlatGroup(toks[i], FlushComma(st))
    else []
  }

  lemma {:induction false} StepTells(toks: Tokens, i: nat, bounds: set<nat>, st: State)
    requires i < |toks|
    ensures Tells(FlatStep(toks, i, bounds, st), StepPieces(toks, i, bounds, st), st, StepState(toks, i, bounds, st))
    decreases SizeList(toks), 1, 1
  {
    hide Tells, FlatGroup, GroupPieces, RenderGroup, HandledAt, KeywordPieces, HandleKeyword, FlushComma, LayComma,
      LaySpace, EmitWord, HandlePunct, KeyKinds, Keeps;
    var tok := toks[i];
    LaysKeep(st);
    if IsKeyword(tok) {
      KeywordTells(toks, i, bounds, st);
    } else if tok.Group? {
      SizeMember(toks, i);
      var s1 := FlushComma(st);
      GroupTells(tok, s1);
      TellsBehind(LayComma(st), st, s1, FlatGroup(tok, s1), GroupPieces(tok, s1), RenderGroup(tok, s1));
    } else if IsBlankLeaf(tok) {
      SkipTells(st, [tok]);
    } else if IsPunct(tok, ",") || IsPunct(tok, ";") {
      PunctTells(tok, st);
    } else {
      var s1 := FlushComma(st);
      WordTells(s1, tok.value, Word(tok));
      TellsBehind(LayComma(st), st, s1, [], LaySpace(s1) + [Word(tok)], EmitWord(s1, tok.value));
    }
  }

  lemma SkipTells(st: State, toks: Tokens)
    ensures Tells([], [Skip(toks)], st, st)
  {
    NoKeys([Skip(toks)]);
  }

  lemma PunctTells(tok: Node, st: State)
    requires IsPunct(tok, ",") || IsPunct(tok, ";")
    ensures Tells([], [Word(tok)], st, HandlePunct(tok, st))
  {
    NoKeys([Word(tok)]);
  }

  lemma {:induction false} GroupTells(node: Node, st: State)
    requires node.Group?
    ensures Tells(FlatGroup(node, st), GroupPieces(node, st), st, RenderGroup(node, st))
    decreases Size(node), 1, 0
  {
    hide Tells, Flat, FlatParens, FlatCase, RenderList, RenderParens, RenderComparison, RenderCaseFrom, CopyText,
      EmitWord, Indent, Join, CopyAll, IsSimpleList, HasSelect, Pieces, ParensPieces, CasePieces, ComparisonPieces,
      InlinePieces, LaySpace, IdentNeedsRecursion;
    var t := CopyText(node, st.uppercase);
    WordTells(st, t, Copy(node, t));
    match node.group
    case CaseExpr => CaseTells(node.kids, 0, st, Indent(st), true);
    case Parens => ParensTell(node, st);
    case IdList =>
      InlineTells(node.kids, st);
      ListTells(node.kids, st);
    case Ident =>
      ListTells(node.kids, st);
    case Compare => if ContainsSubquery(node.kids) { ComparisonTells(node, st); }
    case FuncCall =>
    case Container => ListTells(node.kids, st);
  }

  lemma InlineTells(kids: Tokens, st: State)
    ensures Tells([], LaySpace(st) + InlinePieces(kids, st.uppercase), st,
                  EmitWord(st, Join(", ", CopyAll(Items(kids), st.uppercase))))
  {
    hide Join, CopyAll, KeyKinds;
    var t := Join(", ", CopyAll(Items(kids), st.uppercase));
    LaysKeep(st);
    InlineNoKeys(kids, st.uppercase);
    KeyKindsAppend(LaySpace(st), InlinePieces(kids, st.uppercase));
    TellsNothing(LaySpace(st) + InlinePieces(kids, st.uppercase), st, EmitWord(st, t));
  }

  lemma {:induction false} InlineNoKeys(kids: Tokens, uppercase: bool)
    ensures KeyKinds(InlinePieces(kids, uppercase)) == []
  {
    hide KeyKinds, CopyText;
    if kids == [] {
      NoKeys([]);
    } else {
      var rest := InlinePieces(kids[1..], uppercase);
      InlineNoKeys(kids[1..], uppercase);
      var own := if IsBlankLeaf(kids[0]) then [Skip([kids[0]])]
      else if IsPunct(kids[0], ",") then [Word(kids[0]), Lay(" ")]
      else [Copy(kids[0], CopyText(kids[0], uppercase))];
      NoKeys(own);
      KeyKindsAppend(own, rest);
    }
  }

  lemma {:induction false} ParensTell(node: Node, st: State)
    requires node.Group?
    ensures Tells(FlatParens(node, st), ParensPieces(node, st), st, RenderParens(node, st))
    decreases Size(node), 0, 0
  {
    hide Tells, Flat, RenderList, EmitWord, ParenText, Indent, HasSelect, LaySpace, Pieces, EnterSubquery,
      LeaveSubquery, Inward;
    if !HasSelect(node.kids, SELECT_DEPTH) {
      WordTells(st, ParenText(node, st.uppercase), Piece.Parens(node, ParenText(node, st.uppercase)));
    } else if st.depth >= MAX_DEPTH {
      WordTells(st, Value(node), Piece.Parens(node, Value(node)));
    } else {
      var inner, s1 := Inner(node.kids), EnterSubquery(st);
      ListTells(inner, s1);
      SubqueryTells(st, Flat(inner, s1), Pieces(inner, s1), RenderList(inner, s1));
    }
  }

  // Inside a laid-out parenthesis the same blocks are open; the level is restored.
  lemma SubqueryTells(st: State, fs: seq<Handled>, ps: seq<Piece>, behind: State)
    requires Tells(fs, ps, EnterSubquery(st), behind)
    ensures Tells(Inward(fs), (LaySpace(st) + [Word(OPEN)]) + ps + [Lay("\n" + Indent(st)), Word(CLOSE)], st,
                  LeaveSubquery(st, behind))
  {
    hide Indent, KeyKinds, LaySpace, OriginsAfter, ByStack, BlockAfter;
    var head, tail := LaySpace(st) + [Word(OPEN)], [Lay("\n" + Indent(st)), Word(CLOSE)];
    InwardSame(fs, st.origins, st.block);
    LaysKeep(st);
    NoKeys([Word(OPEN)]);
    NoKeys(tail);
    KeyKindsAppend(LaySpace(st), [Word(OPEN)]);
    KeyKindsAppend(head, ps);
    KeyKindsAppend(head + ps, tail);
    assert WrittenAs(Inward(fs)) == WrittenAs(fs);
  }

  lemma {:induction false} InwardSame(fs: seq<Handled>, origins: seq<Origin>, block: int)
    ensures OriginsAfter(Inward(fs), origins) == OriginsAfter(fs, origins)
    ensures ByStack(Inward(fs), origins) == ByStack(fs, origins)
    ensures BlockAfter(Inward(fs), block) == block
  {
    hide Nest, BlockStep;
    if fs != [] {
      var n := |fs| - 1;
      assert Inward(fs)[..n] == Inward(fs[..n]);
      InwardSame(fs[..n], origins, block);
    }
  }

  lemma {:induction false} CaseTells(kids: Tokens, i: nat, st: State, base: string, firstWhen: bool)
    requires i <= |kids|
    ensures Tells(FlatCase(kids, i, st, base, firstWhen), CasePieces(kids, i, st, base, firstWhen), st,
                  RenderCaseFrom(kids, i, st, base, firstWhen))
    decreases SizeList(kids), 2, |kids| - i
  {
    hide Tells, Normalize, EmitWhen, EmitCaseLeaf, RenderCaseGroup, FlatCaseGroup, WhenPieces, CaseLeafPieces,
      CaseGroupPieces;
    if i == |kids| {
      TellsNone(st);
    } else {
      var tok := kids[i];
      if IsKeyword(tok) && Normalize(tok.value) == "WHEN" {
        var s1 := EmitWhen(tok, st, base, firstWhen);
        WhenTells(tok, st, base, firstWhen);
        CaseTells(kids, i + 1, s1, base, false);
        TellsThen([], WhenPieces(tok, st, base, firstWhen), st, s1, FlatCase(kids, i + 1, s1, base, false),
                  CasePieces(kids, i + 1, s1, base, false), RenderCaseFrom(kids, i + 1, s1, base, false));
        assert [] + FlatCase(kids, i + 1, s1, base, false) == FlatCase(kids, i + 1, s1, base, false);
      } else {
        var own, ps, s1 :=
          if tok.Leaf? then [] else FlatCaseGroup(tok, st),
          if tok.Leaf? then CaseLeafPieces(tok, st, base) else CaseGroupPieces(tok, st),
          if tok.Leaf? then EmitCaseLeaf(tok, st, base) else RenderCaseGroup(tok, st);
        if tok.Leaf? {
          CaseLeafTells(tok, st, base);
        } else {
          SizeMember(kids, i);
          CaseGroupTells(tok, st);
        }
        var rest := FlatCase(kids, i + 1, s1, base, firstWhen);
        CaseTells(kids, i + 1, s1, base, firstWhen);
        TellsThen(own, ps, st, s1, rest, CasePieces(kids, i + 1, s1, base, firstWhen),
                  RenderCaseFrom(kids, i + 1, s1, base, firstWhen));
        assert [] + rest == rest;
      }
    }
  }

  lemma WhenTells(tok: Node, st: State, base: string, firstWhen: bool)
    requires tok.Leaf?
    ensures Tells([], WhenPieces(tok, st, base, firstWhen), st, EmitWhen(tok, st, base, firstWhen))
  {
    hide CaseKeyword;
    NoKeys(WhenPieces(tok, st, base, firstWhen));
  }

  lemma CaseLeafTells(tok: Node, st: State, base: string)
    requires tok.Leaf?
    ensures Tells([], CaseLeafPieces(tok, st, base), st, EmitCaseLeaf(tok, st, base))
  {
    hide Normalize, CaseKeyword, KeyKinds;
    NoKeys(CaseLeafPieces(tok, st, base));
  }

  lemma {:induction false} CaseGroupTells(tok: Node, st: State)
    requires tok.Group?
    ensures Tells(FlatCaseGroup(tok, st), CaseGroupPieces(tok, st), st, RenderCaseGroup(tok, st))
    decreases Size(tok), 2, 0
  {
    hide Tells, FlatGroup, GroupPieces, RenderGroup, CopyText, RenderComparison, ComparisonPieces, EmitWord, LaySpace,
      FlushSpace, Keeps, KeyKinds;
    var t := CopyText(tok, st.uppercase);
    if IsSubqueryComparison(tok) {
      ComparisonTells(tok, st);
    } else if tok.group.Ident? || tok.group.Compare? {
      WordTells(st, t, Copy(tok, t));
    } else {
      var s1 := FlushSpace(st);
      GroupTells(tok, s1);
      LaysKeep(st);
      TellsBehind(LaySpace(st), st, s1, FlatGroup(tok, s1), GroupPieces(tok, s1), RenderGroup(tok, s1));
    }
  }

  // A comparison is copied, or its subquery is a statement of its own.
  lemma ComparisonTells(node: Node, st: State)
    requires node.Group? && ContainsSubquery(node.kids)
    ensures Tells([], ComparisonPieces(node, st), st, RenderComparison(node, st))
  {
    hide CopyText, FormatTokens, CurrentColumn, IsSimpleSubquery, IsSubquery, EmitEmbedded, EmitComparisonLeft,
      FlushSpace, RenderComparison, EmitWord, ComparisonPieces, LeftPieces, LaySpace, EmbedText, KeyKinds;
    var p := FirstSubquery(node.kids);
    if IsSimpleSubquery(node.kids[p]) {
      SimpleComparison(node, st);
      WordTells(st, CopyText(node, st.uppercase), Copy(node, CopyText(node, st.uppercase)));
    } else {
      LaidOut(node, st);
      var left, paren := node.kids[..p], node.kids[p];
      var s1 := EmitComparisonLeft(left, st);
      var s0 := FlushSpace(s1);
      OperandsKeep(left, st);
      LaysKeep(s1);
      Separation.EmbeddedText(s0, FormatTokens(Inner(paren.kids), st.uppercase), CurrentColumn(s0.text));
      var column := CurrentColumn(s0.text);
      var embed := [Embed(paren, column, EmbedText(paren, st.uppercase, column))];
      var tail := [Skip(node.kids[p + 1..])];
      NoKeys(embed);
      NoKeys(tail);
      KeyKindsAppend(LaySpace(s1), embed);
      KeyKindsAppend(LaySpace(s1) + embed, tail);
      KeyKindsAppend(LeftPieces(left, st), LaySpace(s1) + embed + tail);
      TellsNothing(ComparisonPieces(node, st), st, RenderComparison(node, st));
    }
  }

  lemma {:induction false} OperandsKeep(toks: Tokens, st: State)
    ensures Keeps(st, EmitComparisonLeft(toks, st)) && KeyKinds(LeftPieces(toks, st)) == []
  {
    hide CopyText, Upper, KeyKinds, OperandPieces, EmitOperand;
    if toks == [] {
      NoKeys([]);
    } else {
      OperandKeeps(toks[0], st);
      OperandsKeep(toks[1..], EmitOperand(toks[0], st));
      KeyKindsAppend(OperandPieces(toks[0], st), LeftPieces(toks[1..], EmitOperand(toks[0], st)));
    }
  }

  lemma OperandKeeps(tok: Node, st: State)
    ensures Keeps(st, EmitOperand(tok, st)) && KeyKinds(OperandPieces(tok, st)) == []
  {
    hide CopyText, Upper, KeyKinds, CaseKeyword;
    NoKeys(OperandPieces(tok, st));
  }

  // ---------------------------------------------------------------------
  // Matching, by nesting levels
  // ---------------------------------------------------------------------

  predicate Opens(kind: KeywordKind) {
    kind.BlockStart? || kind.CaseStart?
  }

  // BEGINs and CASEs less ENDs among the first n keywords.
  function Level(ks: Kinds, n: nat): int
    requires n <= |ks|
  {
    if n == 0 then 0
    else Level(ks, n - 1) + (if Opens(ks[n - 1]) then 1 else if ks[n - 1].CaseEnd? then -1 else 0)
  }

  // Every END has an opener before it, and every opener an END.
  predicate Balanced(ks: Kinds) {
    (forall n :: 0 <= n <= |ks| ==> Level(ks, n) >= 0) && Level(ks, |ks|) == 0
  }

  // The keyword at j opens the block that the END at i closes: the level never returns to
  // what it was before j until then.
  predicate Matches(ks: Kinds, j: nat, i: nat)
    requires j < i < |ks|
  {
    && Opens(ks[j]) && ks[i].CaseEnd?
    && Level(ks, i) == Level(ks, j) + 1
    && forall m :: j < m <= i ==> Level(ks, m) > Level(ks, j)
  }

  // The openers that no END has closed yet, by position.
  function Pending(ks: Kinds): (ps: seq<nat>)
    ensures forall i :: 0 <= i < |ps| ==> ps[i] < |ks|
  {
    if ks == [] then []
    else
      var n := |ks| - 1;
      var before := Pending(ks[..n]);
      if Opens(ks[n]) then before + [n]
      else if ks[n].CaseEnd? && before != [] then before[..|before| - 1]
      else before
  }

  function OriginOf(kind: KeywordKind): Origin {
    if kind.BlockStart? then FromBegin else FromCase
  }

  function Stack(ks: Kinds): seq<Origin> {
    var ps := Pending(ks);
    seq(|ps|, i requires 0 <= i < |ps| => OriginOf(ks[ps[i]]))
  }

  // Each pending opener stands one level above the one below it, the level has stayed
  // above it since, and it was never lower than under the lowest.
  predicate Piled(ks: Kinds, ps: seq<nat>, n: nat)
    requires n <= |ks| && forall d :: 0 <= d < |ps| ==> ps[d] < n
  {
    && (forall d :: 0 <= d < |ps| ==> Opens(ks[ps[d]]))
    && (forall d, m :: 0 <= d < |ps| && ps[d] < m <= n ==> Level(ks, m) > Level(ks, ps[d]))
    && (forall d :: 0 <= d < |ps| - 1 ==> Level(ks, ps[d + 1]) == Level(ks, ps[d]) + 1)
    && (if ps == [] then forall m :: 0 <= m <= n ==> Level(ks, m) >= Level(ks, n)
        else
          && Level(ks, n) == Level(ks, ps[|ps| - 1]) + 1
          && forall m :: 0 <= m <= n ==> Level(ks, m) >= Level(ks, ps[0]))
  }

  lemma {:induction false} PendingPiled(ks: Kinds, n: nat)
    requires n <= |ks|
    ensures Piled(ks, Pending(ks[..n]), n)
  {
    if n == 0 {
      assert ks[..0] == [];
    } else {
      PendingPiled(ks, n - 1);
      assert ks[..n][..n - 1] == ks[..n - 1] && ks[..n][n - 1] == ks[n - 1];
      PiledStep(ks, Pending(ks[..n - 1]), n - 1);
    }
  }

  lemma LevelNext(ks: Kinds, n: nat)
    requires n < |ks|
    ensures Level(ks, n + 1) == Level(ks, n) + (if Opens(ks[n]) then 1 else if ks[n].CaseEnd? then -1 else 0)
  {
  }

  lemma PiledStep(ks: Kinds, ps: seq<nat>, n: nat)
    requires n < |ks| && (forall d :: 0 <= d < |ps| ==> ps[d] < n) && Piled(ks, ps, n)
    ensures Opens(ks[n]) ==> Piled(ks, ps + [n], n + 1)
    ensures ks[n].CaseEnd? && ps != [] ==> Piled(ks, ps[..|ps| - 1], n + 1)
    ensures !Opens(ks[n]) && !(ks[n].CaseEnd? && ps != []) ==> Piled(ks, ps, n + 1)
  {
    hide Piled, Level;
    if Opens(ks[n]) {
      PiledPush(ks, ps, n);
    } else if ks[n].CaseEnd? && ps != [] {
      PiledPop(ks, ps, n);
    } else {
      PiledStays(ks, ps, n);
    }
  }

  lemma PiledPush(ks: Kinds, ps: seq<nat>, n: nat)
    requires n < |ks| && (forall d :: 0 <= d < |ps| ==> ps[d] < n) && Piled(ks, ps, n) && Opens(ks[n])
    ensures Piled(ks, ps + [n], n + 1)
  {
    hide Level;
    LevelNext(ks, n);
    var qs := ps + [n];
    forall d, m | 0 <= d < |qs| && qs[d] < m <= n + 1 ensures Level(ks, m) > Level(ks, qs[d]) {
      if d < |ps| {
        assert qs[d] == ps[d] && Level(ks, n) > Level(ks, ps[d]);
      }
    }
    forall d | 0 <= d < |qs| - 1 ensures Level(ks, qs[d + 1]) == Level(ks, qs[d]) + 1 {
      if d < |ps| - 1 {
        assert qs[d] == ps[d] && qs[d + 1] == ps[d + 1];
      }
    }
  }

  lemma PiledStays(ks: Kinds, ps: seq<nat>, n: nat)
    requires n < |ks| && (forall d :: 0 <= d < |ps| ==> ps[d] < n) && Piled(ks, ps, n)
    requires !Opens(ks[n]) && !(ks[n].CaseEnd? && ps != [])
    ensures Piled(ks, ps, n + 1)
  {
    hide Level;
    LevelNext(ks, n);
  }

  lemma PoppedAbove(ks: Kinds, ps: seq<nat>, n: nat, d: nat, m: nat)
    requires n < |ks| && (forall d :: 0 <= d < |ps| ==> ps[d] < n) && Piled(ks, ps, n) && ks[n].CaseEnd?
    requires d < |ps| - 1 && ps[d] < m <= n + 1
    ensures Level(ks, m) > Level(ks, ps[d])
  {
    hide Level;
    if m == n + 1 {
      LevelNext(ks, n);
      PiledAscends(ks, ps, n, d, |ps| - 1);
    }
  }

  lemma PiledPop(ks: Kinds, ps: seq<nat>, n: nat)
    requires n < |ks| && (forall d :: 0 <= d < |ps| ==> ps[d] < n) && Piled(ks, ps, n) && ps != [] && ks[n].CaseEnd?
    ensures Piled(ks, ps[..|ps| - 1], n + 1)
  {
    hide Level;
    LevelNext(ks, n);
    var top, rest := ps[|ps| - 1], ps[..|ps| - 1];
    forall d, m | 0 <= d < |rest| && rest[d] < m <= n + 1 ensures Level(ks, m) > Level(ks, rest[d]) {
      assert rest[d] == ps[d];
      PoppedAbove(ks, ps, n, d, m);
    }
    forall d | 0 <= d < |rest| - 1 ensures Level(ks, rest[d + 1]) == Level(ks, rest[d]) + 1 {
      assert rest[d] == ps[d] && rest[d + 1] == ps[d + 1];
    }
    if rest != [] {
      var d := |rest| - 1;
      assert rest[d] == ps[d] && rest[0] == ps[0] && Level(ks, ps[d + 1]) == Level(ks, ps[d]) + 1;
    }
  }

  lemma {:induction false} PiledAscends(ks: Kinds, ps: seq<nat>, n: nat, a: nat, b: nat)
    requires n <= |ks| && (forall d :: 0 <= d < |ps| ==> ps[d] < n) && Piled(ks, ps, n) && a < b < |ps|
    ensures ps[a] < ps[b] && Level(ks, ps[a]) < Level(ks, ps[b])
  {
    hide Level;
    assert Level(ks, ps[b - 1 + 1]) == Level(ks, ps[b - 1]) + 1;
    if a < b - 1 {
      PiledAscends(ks, ps, n, a, b - 1);
    }
  }

  // If an opener is pending the END at i matches the latest one, otherwise none.
  lemma TopMatches(ks: Kinds, i: nat)
    requires i < |ks| && ks[i].CaseEnd?
    ensures
      var ps := Pending(ks[..i]);
      if ps == [] then forall j :: 0 <= j < i ==> !Matches(ks, j, i)
      else ps[|ps| - 1] < i && Matches(ks, ps[|ps| - 1], i)
  {
    hide Pending, Level;
    PendingPiled(ks, i);
  }

  lemma MatchUnique(ks: Kinds, i: nat, a: nat, b: nat)
    requires a < i < |ks| && b < i && Matches(ks, a, i) && Matches(ks, b, i)
    ensures a == b
  {
    assert Level(ks, a + 1) == Level(ks, a) + 1 && Level(ks, b + 1) == Level(ks, b) + 1;
  }

  lemma StackPush(ks: Kinds, kind: KeywordKind)
    ensures
      var before := Stack(ks);
      Stack(ks + [kind]) ==
        if Opens(kind) then before + [OriginOf(kind)]
        else if kind.CaseEnd? && before != [] then before[..|before| - 1]
        else before
  {
    hide OriginOf;
    var all := ks + [kind];
    assert all[..|ks|] == ks && all[|ks|] == kind;
    var ps, qs := Pending(ks), Pending(all);
    forall i | 0 <= i < |qs| && i < |ps| ensures all[ps[i]] == ks[ps[i]] {
    }
  }

  // Openers for the blocks that are open.
  function Openers(origins: seq<Origin>): Kinds {
    seq(|origins|, i requires 0 <= i < |origins| => if origins[i] == FromBegin then BlockStart else CaseStart)
  }

  lemma {:induction false} OpenersOpen(origins: seq<Origin>)
    ensures Stack(Openers(origins)) == origins
  {
    if origins != [] {
      var n := |origins| - 1;
      OpenersOpen(origins[..n]);
      var last := if origins[n] == FromBegin then BlockStart else CaseStart;
      assert Openers(origins) == Openers(origins[..n]) + [last];
      StackPush(Openers(origins[..n]), last);
    }
  }

  // The stack of the renderer holds the pending openers, those open before included.
  lemma {:induction false} StackIs(fs: seq<Handled>, origins: seq<Origin>)
    requires ByStack(fs, origins)
    ensures OriginsAfter(fs, origins) == Stack(Openers(origins) + KindsOf(fs))
  {
    hide Stack;
    if fs == [] {
      OpenersOpen(origins);
      assert Openers(origins) + KindsOf(fs) == Openers(origins);
    } else {
      var n := |fs| - 1;
      StackIs(fs[..n], origins);
      var ks := Openers(origins) + KindsOf(fs[..n]);
      assert Openers(origins) + KindsOf(fs) == ks + [fs[n].kind];
      StackPush(ks, fs[n].kind);
    }
  }

  // What the keyword at i is rendered as: END as the end of a block if the opener it
  // matches is BEGIN, and every other keyword as what it is.
  predicate ClosesBlock(ks: Kinds, i: nat)
    requires i < |ks|
  {
    exists j :: 0 <= j < i && Matches(ks, j, i) && ks[j].BlockStart?
  }

  lemma WrittenIs(fs: seq<Handled>, origins: seq<Origin>, i: nat)
    requires ByStack(fs, origins) && i < |fs|
    ensures
      var open := Openers(origins);
      var ks := open + KindsOf(fs);
      fs[i].written ==
        if fs[i].kind.CaseEnd? && ClosesBlock(ks, |open| + i) then BlockEnd else fs[i].kind
  {
    hide Stack, Pending, Level, Matches, ByStack, OriginsAfter;
    var open := Openers(origins);
    var ks, n := open + KindsOf(fs), |open| + i;
    ByStackAt(fs, origins, i);
    StackIs(fs[..i], origins);
    assert ks[..n] == open + KindsOf(fs[..i]) && ks[n] == fs[i].kind;
    if fs[i].kind.CaseEnd? {
      TopMatches(ks, n);
      EndByStack(ks, n);
    }
  }

  lemma {:induction false} ByStackAt(fs: seq<Handled>, origins: seq<Origin>, i: nat)
    requires ByStack(fs, origins) && i < |fs|
    ensures ByStack(fs[..i], origins) && !fs[i].kind.BlockEnd?
    ensures fs[i].written == Nest(fs[i].kind, OriginsAfter(fs[..i], origins)).0
  {
    hide Nest, OriginsAfter;
    var n := |fs| - 1;
    if i < n {
      assert fs[..n][..i] == fs[..i];
      ByStackAt(fs[..n], origins, i);
    }
  }

  lemma EndByStack(ks: Kinds, n: nat)
    requires n < |ks| && ks[n].CaseEnd?
    ensures ClosesBlock(ks, n) <==> Stack(ks[..n]) != [] && Stack(ks[..n])[|Stack(ks[..n])| - 1] == FromBegin
  {
    hide Pending, Level, Matches;
    TopMatches(ks, n);
    var ps := Pending(ks[..n]);
    if ps != [] {
      var top := ps[|ps| - 1];
      assert Stack(ks[..n])[|ps| - 1] == OriginOf(ks[..n][top]) && ks[..n][top] == ks[top];
      forall j | 0 <= j < n && Matches(ks, j, n) ensures j == top {
        MatchUnique(ks, n, j, top);
      }
    }
  }

  // ---------------------------------------------------------------------
  // Balanced streams
  // ---------------------------------------------------------------------

  lemma {:induction false} OpenersLevel(open: Kinds, ks: Kinds, n: nat)
    requires (forall k :: 0 <= k < |open| ==> Opens(open[k])) && n <= |ks|
    ensures Level(open + ks, |open| + n) == |open| + Level(ks, n)
    decreases n
  {
    if n > 0 {
      assert (open + ks)[|open| + n - 1] == ks[n - 1];
      OpenersLevel(open, ks, n - 1);
    } else {
      OpenersCount(open, ks, |open|);
    }
  }

  lemma {:induction false} OpenersCount(open: Kinds, ks: Kinds, n: nat)
    requires (forall k :: 0 <= k < |open| ==> Opens(open[k])) && n <= |open|
    ensures Level(open + ks, n) == n
  {
    if n > 0 {
      OpenersCount(open, ks, n - 1);
      assert (open + ks)[n - 1] == open[n - 1];
    }
  }

  // While every END has an opener before it, the keywords leave what was open alone.
  lemma {:induction false} BaseStays(ks: Kinds, n: nat, origins: seq<Origin>)
    requires n <= |ks| && forall m :: 0 <= m <= n ==> Level(ks, m) >= 0
    ensures |Pending(ks[..n])| == Level(ks, n)
    ensures Stack(Openers(origins) + ks[..n]) == origins + Stack(ks[..n])
  {
    hide Pending, Level, Stack, OriginOf;
    if n == 0 {
      NothingOpen(ks, origins);
      assert ks[..0] == [];
    } else {
      BaseStays(ks, n - 1, origins);
      LevelNext(ks, n - 1);
      var before, last := ks[..n - 1], ks[n - 1];
      assert ks[..n] == before + [last];
      PendingPush(before, last);
      BasePush(origins, before, last);
    }
  }

  lemma NothingOpen(ks: Kinds, origins: seq<Origin>)
    ensures Pending([]) == [] && Level(ks, 0) == 0 && Stack(Openers(origins) + []) == origins + Stack([])
  {
    hide Openers;
    OpenersOpen(origins);
    assert Openers(origins) + [] == Openers(origins) && Stack([]) == [] && origins + [] == origins;
  }

  lemma BasePush(origins: seq<Origin>, before: Kinds, last: KeywordKind)
    requires Stack(Openers(origins) + before) == origins + Stack(before) && (last.CaseEnd? ==> Stack(before) != [])
    ensures Stack(Openers(origins) + (before + [last])) == origins + Stack(before + [last])
  {
    hide Stack, OriginOf, Openers;
    var open := Openers(origins);
    assert open + (before + [last]) == (open + before) + [last];
    StackPush(before, last);
    StackPush(open + before, last);
    TopOfBoth(origins, Stack(before), last);
  }

  lemma PendingPush(before: Kinds, last: KeywordKind)
    ensures |Pending(before + [last])| ==
      |Pending(before)| + (if Opens(last) then 1 else if last.CaseEnd? && Pending(before) != [] then -1 else 0)
    ensures |Stack(before)| == |Pending(before)|
  {
    assert (before + [last])[..|before|] == before;
  }

  lemma TopOfBoth(origins: seq<Origin>, stack: seq<Origin>, last: KeywordKind)
    ensures origins + stack + [OriginOf(last)] == origins + (stack + [OriginOf(last)])
    ensures stack != [] ==> (origins + stack)[..|origins + stack| - 1] == origins + stack[..|stack| - 1]
  {
  }

  // How many BEGINs outside the laid-out parentheses are pending.
  function OuterBegins(fs: seq<Handled>, ps: seq<nat>): nat
    requires forall d :: 0 <= d < |ps| ==> ps[d] < |fs|
  {
    if ps == [] then 0
    else
      var f := fs[ps[|ps| - 1]];
      OuterBegins(fs, ps[..|ps| - 1]) + (if f.kind.BlockStart? && f.outer then 1 else 0)
  }

  // No block crosses the border of a laid-out parenthesis.
  predicate Enclosed(fs: seq<Handled>) {
    var ks := KindsOf(fs);
    forall j, i :: 0 <= j < i < |fs| && Matches(ks, j, i) && ks[j].BlockStart? ==> fs[j].outer == fs[i].outer
  }

  lemma {:induction false} BlockGrows(fs: seq<Handled>, n: nat, origins: seq<Origin>, block: int)
    requires n <= |fs| && ByStack(fs, origins) && block >= 0 && Enclosed(fs)
    requires forall m :: 0 <= m <= |fs| ==> Level(KindsOf(fs), m) >= 0
    requires forall k :: 0 <= k < |fs| && fs[k].outer ==> !fs[k].kind.SetOp?
    ensures BlockAfter(fs[..n], block) == block + OuterBegins(fs, Pending(KindsOf(fs)[..n]))
  {
    hide ByStack, Enclosed, Level, Pending, OuterBegins, BlockAfter, OriginsAfter;
    var ks := KindsOf(fs);
    if n == 0 {
      NothingYet(fs, block);
      assert ks[..0] == [] && fs[..0] == [];
    } else {
      BlockGrows(fs, n - 1, origins, block);
      BlockNext(fs, n - 1, block);
      PendingNext(ks, n - 1);
      ByStackAt(fs, origins, n - 1);
      if ks[n - 1].CaseEnd? {
        TopCloses(fs, n - 1, origins);
      }
      BeginsNext(fs, Pending(ks[..n - 1]), n - 1);
    }
  }

  lemma BlockNext(fs: seq<Handled>, n: nat, block: int)
    requires n < |fs|
    ensures
      var before := BlockAfter(fs[..n], block);
      BlockAfter(fs[..n + 1], block) == if fs[n].outer then BlockStep(fs[n].written, before) else before
  {
    hide BlockStep;
    assert fs[..n + 1][..n] == fs[..n] && fs[..n + 1][n] == fs[n];
  }

  lemma BeginsNext(fs: seq<Handled>, ps: seq<nat>, n: nat)
    requires n < |fs| && forall d :: 0 <= d < |ps| ==> ps[d] < |fs|
    ensures OuterBegins(fs, ps + [n]) == OuterBegins(fs, ps) + (if fs[n].kind.BlockStart? && fs[n].outer then 1 else 0)
    ensures ps != [] ==>
      var f := fs[ps[|ps| - 1]];
      OuterBegins(fs, ps) == OuterBegins(fs, ps[..|ps| - 1]) + (if f.kind.BlockStart? && f.outer then 1 else 0)
  {
    assert (ps + [n])[..|ps|] == ps;
  }

  lemma NothingYet(fs: seq<Handled>, block: int)
    ensures Pending([]) == [] && BlockAfter([], block) == block && OuterBegins(fs, []) == 0
  {
  }

  lemma PendingNext(ks: Kinds, n: nat)
    requires n < |ks|
    ensures
      var before := Pending(ks[..n]);
      Pending(ks[..n + 1]) ==
        if Opens(ks[n]) then before + [n]
        else if ks[n].CaseEnd? && before != [] then before[..|before| - 1]
        else before
  {
    assert ks[..n + 1][..n] == ks[..n] && ks[..n + 1][n] == ks[n];
  }

  // The END at n closes the latest pending opener, on its side of every parenthesis.
  lemma TopCloses(fs: seq<Handled>, n: nat, origins: seq<Origin>)
    requires n < |fs| && fs[n].kind.CaseEnd? && ByStack(fs, origins) && Enclosed(fs)
    requires forall m :: 0 <= m <= |fs| ==> Level(KindsOf(fs), m) >= 0
    ensures
      var ps := Pending(KindsOf(fs)[..n]);
      && ps != []
      && (fs[n].written.BlockEnd? <==> fs[ps[|ps| - 1]].kind.BlockStart?)
      && (fs[n].written.BlockEnd? || fs[n].written.CaseEnd?)
      && (fs[n].written.BlockEnd? ==> fs[ps[|ps| - 1]].outer == fs[n].outer)
  {
    hide ByStack, Pending, Stack, Matches, OriginsAfter, Level;
    var ks := KindsOf(fs);
    var ps := Pending(ks[..n]);
    LevelDown(ks, n);
    BaseStays(ks, n, origins);
    StackIs(fs[..n], origins) by { ByStackAt(fs, origins, n); }
    ByStackAt(fs, origins, n);
    assert KindsOf(fs[..n]) == ks[..n];
    TopMatches(ks, n);
    TopOrigin(ks, n);
    var stack := Stack(ks[..n]);
    assert (origins + stack)[|origins + stack| - 1] == stack[|stack| - 1];
  }

  lemma LevelDown(ks: Kinds, n: nat)
    requires n < |ks| && ks[n].CaseEnd?
    ensures Level(ks, n + 1) == Level(ks, n) - 1
  {
  }

  lemma TopOrigin(ks: Kinds, n: nat)
    requires n <= |ks|
    ensures
      var ps, stack := Pending(ks[..n]), Stack(ks[..n]);
      |stack| == |ps| && (ps != [] ==> stack[|ps| - 1] == OriginOf(ks[ps[|ps| - 1]]))
  {
    hide OriginOf;
  }

  lemma BalancedLeavesNothing(ks: Kinds, origins: seq<Origin>)
    requires Balanced(ks)
    ensures Pending(ks) == [] && Stack(Openers(origins) + ks) == origins
  {
    hide Level, Pending, Openers;
    BaseStays(ks, |ks|, origins);
    assert ks[..|ks|] == ks && |Stack(ks)| == |Pending(ks)|;
    assert origins + [] == origins;
  }

  // ---------------------------------------------------------------------
  // The main result
  // ---------------------------------------------------------------------

  // On every token list, whatever blocks are open around it and in whatever nested lists
  // BEGIN, CASE and END stand: the keywords written in lists are rendered as what they
  // are, except that END closes a block exactly if the opener it matches - in rendering
  // order, those open before included - is BEGIN. The openers without an END are open
  // afterwards.
  lemma EndsClose(toks: Tokens, st: State)
    ensures
      var fs, open := Flat(toks, st), Openers(st.origins);
      var ks := open + KindsOf(fs);
      && KeyKinds(Pieces(toks, st)) == WrittenAs(fs)
      && (forall i :: 0 <= i < |fs| ==>
            fs[i].written == if fs[i].kind.CaseEnd? && ClosesBlock(ks, |open| + i) then BlockEnd else fs[i].kind)
      && RenderList(toks, st).origins == Stack(ks)
  {
    hide Flat, Pieces, RenderList, Stack, ByStack, KeyKinds, ClosesBlock, OriginsAfter, Openers;
    var fs := Flat(toks, st);
    ListTells(toks, st);
    StackIs(fs, st.origins);
    forall i | 0 <= i < |fs|
      ensures fs[i].written ==
        if fs[i].kind.CaseEnd? && ClosesBlock(Openers(st.origins) + KindsOf(fs), |Openers(st.origins)| + i)
        then BlockEnd else fs[i].kind
    {
      WrittenIs(fs, st.origins, i);
    }
  }

  // If BEGIN, CASE and END balance the same blocks are open as before; without a set
  // operator outside the laid-out parentheses, and if no block crosses the border of one,
  // the block level is the same as well.
  lemma BalancedRestores(toks: Tokens, st: State)
    requires Balanced(KindsOf(Flat(toks, st)))
    ensures RenderList(toks, st).origins == st.origins
    ensures
      var fs := Flat(toks, st);
      st.block >= 0 && Enclosed(fs) && (forall k :: 0 <= k < |fs| && fs[k].outer ==> !fs[k].kind.SetOp?) ==>
        RenderList(toks, st).block == st.block
  {
    hide Flat, Pieces, RenderList, Stack, ByStack, KeyKinds, OriginsAfter, Openers, Enclosed, Pending, BlockAfter;
    var fs := Flat(toks, st);
    ListTells(toks, st);
    StackIs(fs, st.origins);
    BalancedLeavesNothing(KindsOf(fs), st.origins);
    if st.block >= 0 && Enclosed(fs) && forall k :: 0 <= k < |fs| && fs[k].outer ==> !fs[k].kind.SetOp? {
      BlockGrows(fs, |fs|, st.origins, st.block);
      assert fs[..|fs|] == fs && KindsOf(fs)[..|fs|] == KindsOf(fs);
    }
  }
}
