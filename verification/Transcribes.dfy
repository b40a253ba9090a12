// Every function of the renderer writes the pieces of its transcript.
module Transcribes {
  import opened Text
  import opened SqlTree
  import opened Rendering
  import opened Preservation
  import opened Lossless
  import opened Probe
  import opened Separation
  import opened Layout
  import opened Transcript
  import opened Written

  // ---------------------------------------------------------------------
  // Single emissions
  // ---------------------------------------------------------------------

  lemma SpaceWrites(st: State, e: Ending)
    requires Ends(st, e)
    ensures Writes(st, e, FlushSpace(st), LaySpace(st), [])
    ensures forall p :: Fits(EndOf(e, LaySpace(st)), p)
    ensures SkipsBlank(LaySpace(st))
  {
    hide ClosesTight, OpensTight;
    OneBlank();
    if st.space {
      LayWrites(st, e, FlushSpace(st), " ");
      assert [Lay(" ")][1..] == [];
    } else {
      WritesNothing(st, e);
    }
  }

  lemma CommaWrites(st: State, e: Ending)
    requires Ends(st, e)
    ensures Writes(st, e, FlushComma(st), LayComma(st), [])
    ensures Ends(FlushComma(st), EndOf(e, LayComma(st)))
    ensures SkipsBlank(LayComma(st))
  {
    hide ClosesTight, Indent, Blank;
    IndentIsBlank(st);
    if st.comma {
      LayWrites(st, e, FlushComma(st), "\n" + Indent(st));
    } else {
      WritesNothing(st, e);
    }
  }

  lemma WordWrites(st: State, e: Ending, p: Piece)
    requires Ends(st, e) && IsInk(p) && PieceOk(p, st.uppercase) && TextOf(p) != "" && !(p.Key? && OpensColumn(p.kind))
    requires !p.Embed?
    ensures Writes(st, e, EmitWord(st, TextOf(p)), LaySpace(st) + [p], SourceOf(p))
    ensures SkipsBlank(LaySpace(st) + [p])
  {
    hide Writes, PieceOk, Ends, Fits, FlushSpace, LaySpace, OpensColumn, SizeList, SkipsBlank;
    SpaceWrites(st, e);
    var s1 := FlushSpace(st);
    var e1 := EndOf(e, LaySpace(st));
    InkWrites(s1, e1, EmitWord(st, TextOf(p)), p) by { SameCase(st); }
    WritesThen(st, e, s1, LaySpace(st), [], EmitWord(st, TextOf(p)), [p], SourceOf(p));
    assert [] + SourceOf(p) == SourceOf(p);
  }

  lemma SameCase(st: State)
    ensures FlushSpace(st).uppercase == st.uppercase && FlushComma(st).uppercase == st.uppercase
  {
  }

  // A word after a pending line break.
  lemma BrokenWordWrites(st: State, e: Ending, p: Piece)
    requires Ends(st, e) && IsInk(p) && PieceOk(p, st.uppercase) && TextOf(p) != "" && !(p.Key? && OpensColumn(p.kind))
    requires !p.Embed?
    ensures
      var s1 := FlushComma(st);
      && Writes(st, e, EmitWord(s1, TextOf(p)), LayComma(st) + (LaySpace(s1) + [p]), SourceOf(p))
      && SkipsBlank(LayComma(st) + (LaySpace(s1) + [p]))
  {
    hide Writes, PieceOk, Ends, FlushComma, EmitWord, LaySpace, LayComma, OpensColumn, SkipsBlank;
    CommaWrites(st, e);
    SameCase(st);
    var s1 := FlushComma(st);
    WordWrites(s1, EndOf(e, LayComma(st)), p);
    WritesThen(st, e, s1, LayComma(st), [], EmitWord(s1, TextOf(p)), LaySpace(s1) + [p], SourceOf(p));
    assert [] + SourceOf(p) == SourceOf(p);
  }

  // A piece behind whitespace of its own.
  lemma LeadWrites(st: State, e: Ending, lead: string, p: Piece, st': State)
    requires Blank(lead) && (lead == "" ==> e.Loose?)
    requires IsInk(p) && !p.Embed? && PieceOk(p, st.uppercase) && TextOf(p) != ""
    requires Placed(st.text, [Lay(lead), p], 1)
    requires st'.text == st.text + (lead + TextOf(p)) && st'.uppercase == st.uppercase
    requires st'.space || ClosesTight(p)
    ensures Writes(st, e, st', [Lay(lead), p], SourceOf(p))
    ensures SkipsBlank([Lay(lead), p])
  {
    hide PieceOk, ClosesTight, Placed, OpensTight, Blank, LeavesOf;
    var ps := [Lay(lead), p];
    assert ps[1..] == [p] && [p][1..] == [] && ps[0] == Lay(lead) && ps[1] == p;
    assert Out([p]) == TextOf(p) + "" && TextOf(p) + "" == TextOf(p);
    assert Out(ps) == lead + TextOf(p);
    assert Sources([p]) == SourceOf(p) + [] && SourceOf(p) + [] == SourceOf(p);
    assert Sources(ps) == [] + SourceOf(p) && [] + SourceOf(p) == SourceOf(p);
    assert EndAfter(e, ps[0]) == Loose;
    assert EndOf(After(p), []) == After(p) && EndOf(Loose, [p]) == After(p) && EndOf(e, ps) == After(p);
    assert AllFit(After(p), []) && AllFit(Loose, [p]) && AllFit(e, ps);
    assert PieceOk(ps[0], st.uppercase) by { LayOk(lead, st.uppercase); }
    assert AllOk(ps, st.uppercase);
    assert AllPlaced(st.text, ps) by { LayPlaced(st.text, ps); }
  }

  lemma LayOk(lead: string, uppercase: bool)
    requires Blank(lead)
    ensures PieceOk(Lay(lead), uppercase)
  {
  }

  lemma LayPlaced(before: string, ps: seq<Piece>)
    requires |ps| == 2 && ps[0].Lay? && Placed(before, ps, 1)
    ensures AllPlaced(before, ps)
  {
    hide Out, KeyIndent, Padding;
    forall k | 0 <= k < |ps| ensures Placed(before, ps, k) {
    }
  }

  // ... and followed by a blank.
  lemma LeadWordWrites(st: State, e: Ending, lead: string, p: Piece, mid: State, st': State)
    requires Blank(lead) && (lead == "" ==> e.Loose?)
    requires IsInk(p) && !p.Embed? && PieceOk(p, st.uppercase) && TextOf(p) != ""
    requires Placed(st.text, [Lay(lead), p], 1)
    requires mid.text == st.text + (lead + TextOf(p)) && mid.uppercase == st.uppercase && mid.space
    requires st'.text == mid.text + " " && st'.uppercase == st.uppercase
    ensures Writes(st, e, st', [Lay(lead), p, Lay(" ")], SourceOf(p))
    ensures SkipsBlank([Lay(lead), p, Lay(" ")])
  {
    hide Writes, PieceOk, Placed, SkipsBlank;
    OneBlank();
    var ps := [Lay(lead), p];
    LeadWrites(st, e, lead, p, mid);
    LayWrites(mid, EndOf(e, ps), st', " ");
    WritesThen(st, e, mid, ps, SourceOf(p), st', [Lay(" ")], []);
    assert SourceOf(p) + [] == SourceOf(p);
    assert ps + [Lay(" ")] == [Lay(lead), p, Lay(" ")];
  }

  lemma PunctWrites(tok: Node, st: State, e: Ending)
    requires Ends(st, e) && (IsPunct(tok, ",") || IsPunct(tok, ";"))
    ensures Writes(st, e, HandlePunct(tok, st), [Word(tok)], [tok])
    ensures SkipsBlank([Word(tok)])
  {
    hide Ends;
    InkWrites(st, e, HandlePunct(tok, st), Word(tok));
  }

  // ---------------------------------------------------------------------
  // Keywords of a list
  // ---------------------------------------------------------------------

  // The padded keyword is the keyword behind its padding.
  lemma PadIs(kw: string)
    ensures Pad(kw) == Padding(kw) + kw
  {
    var i := IndexOf(kw, ' ');
    var pad := Spaces(NonNegative(PAD_WIDTH - i));
    if i < |kw| {
      assert kw == kw[..i] + " " + kw[i + 1..];
      assert pad + kw[..i] + " " + kw[i + 1..] == pad + kw;
    } else {
      assert kw[..i] == kw;
    }
  }

  lemma KeyPieceOk(toks: Tokens, i: nat, uppercase: bool, kind: KeywordKind, block: int)
    requires i < |toks| && IsKeyword(toks[i]) && AllWellFormed(toks) && KindFits(kind, ResolveKeyword(toks, i).0)
    ensures
      var (norm, extra) := ResolveKeyword(toks, i);
      var key := Key(kind, block, toks[i..i + 1 + extra], KeywordText(norm, uppercase));
      && PieceOk(key, uppercase) && Solid(TextOf(key)) && TextOf(key) != ""
  {
    hide ResolveKeyword, Normalize, KeywordText, Solid, Reads, Renders, MarksList, ValueList, Cells, WellFormed,
      KindFits;
    var (norm, extra) := ResolveKeyword(toks, i);
    var own := toks[i..i + 1 + extra];
    ResolvedText(toks, i);
    assert own[0] == toks[i] && own[|own| - 1] == toks[i + extra];
    assert forall k :: 0 < k < |own| - 1 ==> own[k] == toks[i + k];
    assert IsKeyRun(own) && Merged(own) == norm;
    KeywordMarks(toks, i, true);
    KeywordTextSolid(norm, uppercase);
    SolidEnds(KeywordText(norm, uppercase));
  }

  lemma KindOfKeyword(toks: Tokens, i: nat, bounds: set<nat>, origins: seq<Origin>)
    requires i < |toks| && IsKeyword(toks[i])
    ensures KindFits(Nest(KindAt(toks, i, bounds), origins).0, ResolveKeyword(toks, i).0)
  {
    hide ResolveKeyword;
  }

  // The whitespace in front of a keyword that opens a line.
  lemma LeadBlank(st: State, block: int, kw: string)
    ensures Blank(LineStart(st) + KeyIndent(block) + Padding(kw)) && Blank(LineStart(st) + Padding(kw))
    ensures Blank("\n" + KeyIndent(block) + Padding(kw))
  {
  }

  lemma ColumnPlaced(st: State, key: Piece)
    requires Laid(st) && key.Key? && key.block == st.block
    ensures Placed(st.text, [Lay(LineStart(st) + KeyIndent(st.block) + Padding(key.text)), key], 1)
  {
    hide KeyIndent, Padding;
    var lead := KeyIndent(st.block) + Padding(key.text);
    var ps := [Lay(LineStart(st) + KeyIndent(st.block) + Padding(key.text)), key];
    assert ps[1] == key && ps[0] == Lay(LineStart(st) + KeyIndent(st.block) + Padding(key.text));
    assert ps[..0] == [] && st.text + Out([]) == st.text;
    if st.hasContent {
      assert LineStart(st) + KeyIndent(st.block) + Padding(key.text) == "\n" + lead;
    } else {
      assert "" + KeyIndent(st.block) + Padding(key.text) == lead;
    }
  }

  lemma OpensWrites(st: State, e: Ending, key: Piece, st': State)
    requires Laid(st) && Ends(st, e) && key.Key? && key.block == st.block && PieceOk(key, st.uppercase) &&
      key.text != ""
    requires OpensColumn(key.kind)
    requires st' == EmitClause(st, key.text) || st' == EmitJoinLike(st, key.text)
    ensures
      var lead := LineStart(st) + KeyIndent(st.block) + Padding(key.text);
      Writes(st, e, st', [Lay(lead), key, Lay(" ")], key.toks) && SkipsBlank([Lay(lead), key, Lay(" ")])
  {
    hide Writes, PieceOk, Placed, Padding, KeyIndent, Indent, SkipsBlank, Pad, Upper, OpensColumn;
    var lead := LineStart(st) + KeyIndent(st.block) + Padding(key.text);
    LeadBlank(st, st.block, key.text);
    ColumnPlaced(st, key);
    PadIs(key.text);
    LevelIndent(st);
    var mid := st.(text := st.text + (lead + key.text), space := true);
    assert lead + key.text + " " == LineStart(st) + KeyIndent(st.block) + Pad(key.text) + " ";
    assert st'.text == mid.text + " ";
    LeadWordWrites(st, e, lead, key, mid, st');
  }

  // Under a keyword that opens a line the top level counts for nothing.
  lemma LevelIndent(st: State)
    requires Laid(st)
    ensures
      && Indent(st.(space := false, comma := false, top := if st.top > 0 then st.top - 1 else st.top)) ==
        KeyIndent(st.block)
      && Indent(st.(space := false, comma := false, top := NonNegative(st.top - 1))) == KeyIndent(st.block)
      && Indent(st.(block := NonNegative(st.block - 1), space := false, comma := false, top := NonNegative(st.top - 1)))
           == KeyIndent(NonNegative(st.block - 1))
  {
  }

  lemma NotColumn(before: string, ps: seq<Piece>, k: nat)
    requires k < |ps| && !(ps[k].Key? && OpensColumn(ps[k].kind))
    ensures Placed(before, ps, k)
  {
    hide OpensColumn;
  }

  lemma SetOpWrites(st: State, e: Ending, key: Piece)
    requires Laid(st) && Ends(st, e) && key.Key? && key.kind.SetOp? && PieceOk(key, st.uppercase) && key.text != ""
    ensures
      var ps := [Lay(LineStart(st) + Padding(key.text)), key];
      Writes(st, e, EmitSetOp(st, key.text), ps, key.toks) && SkipsBlank(ps)
  {
    hide Writes, PieceOk, Placed, Padding, Indent, SkipsBlank, Pad;
    var lead := LineStart(st) + Padding(key.text);
    LeadBlank(st, 0, key.text);
    NotColumn(st.text, [Lay(lead), key], 1);
    PadIs(key.text);
    assert lead + key.text == LineStart(st) + (Padding(key.text) + key.text);
    LeadWrites(st, e, lead, key, EmitSetOp(st, key.text));
  }

  lemma BlockWrites(st: State, e: Ending, key: Piece)
    requires Laid(st) && Ends(st, e) && key.Key? && PieceOk(key, st.uppercase) && key.text != ""
    ensures
      var ps := [Lay(LineStart(st) + KeyIndent(st.block) + Padding(key.text)), key];
      key.kind.BlockStart? ==> Writes(st, e, EmitBegin(st, key.text), ps, key.toks) && SkipsBlank(ps)
    ensures
      var ps := [Lay("\n" + KeyIndent(NonNegative(st.block - 1)) + Padding(key.text)), key];
      key.kind.BlockEnd? ==> Writes(st, e, EmitBlockEnd(st, key.text), ps, key.toks) && SkipsBlank(ps)
  {
    hide Writes, PieceOk, Placed, Padding, KeyIndent, Indent, SkipsBlank, Pad;
    LevelIndent(st);
    PadIs(key.text);
    var pad := Padding(key.text);
    if key.kind.BlockStart? {
      var lead := LineStart(st) + KeyIndent(st.block) + pad;
      LeadBlank(st, st.block, key.text);
      NotColumn(st.text, [Lay(lead), key], 1);
      assert lead + key.text == LineStart(st) + KeyIndent(st.block) + (pad + key.text);
      LeadWrites(st, e, lead, key, EmitBegin(st, key.text));
    } else if key.kind.BlockEnd? {
      var n := NonNegative(st.block - 1);
      var lead := "\n" + KeyIndent(n) + pad;
      LeadBlank(st, n, key.text);
      NotColumn(st.text, [Lay(lead), key], 1);
      assert lead + key.text == "\n" + KeyIndent(n) + (pad + key.text);
      LeadWrites(st, e, lead, key, EmitBlockEnd(st, key.text));
    }
  }

  lemma InlineKeyWrites(st: State, e: Ending, key: Piece)
    requires Ends(st, e) && key.Key? && PieceOk(key, st.uppercase) && key.text != "" && !OpensColumn(key.kind)
    ensures
      var ps := LayComma(st) + LaySpace(FlushComma(st)) + [key];
      Writes(st, e, EmitInline(st, key.text), ps, key.toks) && SkipsBlank(ps)
  {
    hide Writes, PieceOk, SkipsBlank, LaySpace, LayComma, FlushComma, EmitWord, Ends;
    BrokenWordWrites(st, e, key);
    var a, b := LayComma(st), LaySpace(FlushComma(st));
    assert a + (b + [key]) == a + b + [key];
  }

  lemma KeyWrites(kind: KeywordKind, own: Tokens, kw: string, st: State, e: Ending)
    requires Laid(st) && Ends(st, e)
    requires PieceOk(Key(kind, st.block, own, kw), st.uppercase) && kw != ""
    ensures Writes(st, e, Dispatch(kind, kw, st), KeyPieces(kind, own, kw, st), own)
    ensures SkipsBlank(KeyPieces(kind, own, kw, st))
  {
    hide Writes, PieceOk, SkipsBlank, LaySpace, LayComma, FlushComma, EmitWord, Ends, Laid, EmitClause,
      EmitJoinLike, EmitSetOp, EmitBegin, EmitBlockEnd, EmitInline, LineStart, KeyIndent, Padding;
    var key := Key(kind, st.block, own, kw);
    match kind
    case Clause => OpensWrites(st, e, key, EmitClause(st, kw));
    case JoinOp => OpensWrites(st, e, key, EmitJoinLike(st, kw));
    case Logical => OpensWrites(st, e, key, EmitJoinLike(st, kw));
    case On => OpensWrites(st, e, key, EmitJoinLike(st, kw));
    case SetOp => SetOpWrites(st, e, key);
    case BlockStart => BlockWrites(st, e, key);
    case BlockEnd => BlockWrites(st, e, key);
    case _ => InlineKeyWrites(st, e, key);
  }

  lemma KeywordWrites(toks: Tokens, i: nat, bounds: set<nat>, st: State, e: Ending)
    requires i < |toks| && IsKeyword(toks[i]) && AllWellFormed(toks) && Laid(st) && Ends(st, e)
    ensures
      var own := toks[i..i + 1 + ResolveKeyword(toks, i).1];
      && Writes(st, e, HandleKeyword(toks, i, bounds, st), KeywordPieces(toks, i, bounds, st), own)
      && SkipsBlank(KeywordPieces(toks, i, bounds, st))
  {
    hide Writes, PieceOk, SkipsBlank, Dispatch, KeyPieces, ResolveKeyword, KindAt, Nest, KeywordText, Solid,
      SizeList, AllPlaced, AllFit;
    var (norm, extra) := ResolveKeyword(toks, i);
    var own, kw := toks[i..i + 1 + extra], KeywordText(norm, st.uppercase);
    var (kind, origins) := Nest(KindAt(toks, i, bounds), st.origins);
    var s0 := st.(origins := origins, comma := if KeepsCommaBreak(kind) then st.comma else false);
    KindOfKeyword(toks, i, bounds, st.origins);
    KeyPieceOk(toks, i, st.uppercase, kind, s0.block);
    KeyWrites(kind, own, kw, s0, e);
    SameBuffer(st, s0, e, Dispatch(kind, kw, s0), KeyPieces(kind, own, kw, s0), own);
  }

  // Flags and levels at the start do not matter.
  lemma SameBuffer(st: State, s0: State, e: Ending, st': State, ps: seq<Piece>, toks: Tokens)
    requires s0.text == st.text && s0.uppercase == st.uppercase && Writes(s0, e, st', ps, toks)
    ensures Writes(st, e, st', ps, toks)
  {
    hide AllFit, AllPlaced, AllOk, Ends, Smaller, SizeList;
  }

  // ---------------------------------------------------------------------
  // CASE expressions
  // ---------------------------------------------------------------------

  lemma CaseKeyOk(tok: Node, st: State)
    requires IsKeyword(tok) && WellFormed(tok)
    ensures
      var kw := CaseKeyword(tok, st);
      && kw != "" && PieceOk(CaseKey(tok, kw), st.uppercase) && PieceOk(FirstWhen(tok, kw), st.uppercase)
  {
  }

  // A piece that is no keyword of a list, at the end of the buffer or behind a blank,
  // followed by a blank.
  lemma SpacedWrites(st: State, e: Ending, p: Piece, st': State)
    requires IsInk(p) && !p.Key? && !p.Embed? && PieceOk(p, st.uppercase) && TextOf(p) != "" && Fits(e, p)
    requires st'.text == st.text + (TextOf(p) + " ") && st'.uppercase == st.uppercase
    ensures Writes(st, e, st', [p, Lay(" ")], SourceOf(p))
    ensures SkipsBlank([p, Lay(" ")])
  {
    hide Writes, PieceOk, Fits, SkipsBlank;
    OneBlank();
    var mid := st.(text := st.text + TextOf(p), space := true);
    InkWrites(st, e, mid, p);
    assert st'.text == mid.text + " ";
    LayWrites(mid, EndOf(e, [p]), st', " ");
    WritesThen(st, e, mid, [p], SourceOf(p), st', [Lay(" ")], []);
    assert SourceOf(p) + [] == SourceOf(p);
    assert [p] + [Lay(" ")] == [p, Lay(" ")];
  }

  lemma WhenWrites(tok: Node, st: State, e: Ending, base: string, firstWhen: bool)
    requires IsKeyword(tok) && WellFormed(tok) && Blank(base) && Ends(st, e)
    ensures Writes(st, e, EmitWhen(tok, st, base, firstWhen), WhenPieces(tok, st, base, firstWhen), [tok])
    ensures SkipsBlank(WhenPieces(tok, st, base, firstWhen))
  {
    hide Writes, PieceOk, SkipsBlank, CaseKeyword, Blank;
    var kw := CaseKeyword(tok, st);
    CaseKeyOk(tok, st);
    if firstWhen {
      SpacedWrites(st, e, FirstWhen(tok, kw), EmitWhen(tok, st, base, true));
    } else {
      WideLead(base);
      OwnLineWrites(st, e, "\n" + base + Spaces(5), CaseKey(tok, kw), EmitWhen(tok, st, base, false));
    }
  }

  lemma WideLead(base: string)
    requires Blank(base)
    ensures Blank("\n" + base + Spaces(5)) && Blank("\n" + base) && Blank(" ")
  {
  }

  // A keyword of a CASE expression behind whitespace of its own, followed by a blank.
  lemma OwnLineWrites(st: State, e: Ending, lead: string, p: Piece, st': State)
    requires Blank(lead) && lead != "" && p.CaseKey? && PieceOk(p, st.uppercase) && p.text != ""
    requires st'.text == st.text + (lead + p.text + " ") && st'.uppercase == st.uppercase
    ensures Writes(st, e, st', [Lay(lead), p, Lay(" ")], [p.leaf])
    ensures SkipsBlank([Lay(lead), p, Lay(" ")])
  {
    hide Writes, PieceOk, SkipsBlank, Placed;
    NotColumn(st.text, [Lay(lead), p], 1);
    var mid := st.(text := st.text + (lead + p.text), space := true);
    assert st'.text == mid.text + " ";
    LeadWordWrites(st, e, lead, p, mid, st');
  }

  lemma CaseLeafWrites(tok: Node, st: State, e: Ending, base: string)
    requires tok.Leaf? && WellFormed(tok) && Blank(base) && Ends(st, e)
    ensures Writes(st, e, EmitCaseLeaf(tok, st, base), CaseLeafPieces(tok, st, base), [tok])
    ensures SkipsBlank(CaseLeafPieces(tok, st, base))
  {
    hide Writes, PieceOk, SkipsBlank, CaseKeyword, Blank, LaySpace, FlushSpace, Normalize, Ends, EmitWord;
    if IsBlankLeaf(tok) {
      BlankSkips(tok, st, e);
    } else if !IsKeyword(tok) {
      LeafWordWrites(tok, st, e);
    } else {
      var kw := CaseKeyword(tok, st);
      var key := CaseKey(tok, kw);
      CaseKeyOk(tok, st);
      WideLead(base);
      match Normalize(tok.value) {
        case "CASE" => CaseOpensWrites(tok, st, e, key);
        case "THEN" => OwnLineWrites(st, e, " ", key, Emit(st.(space := false), " " + kw + " "));
        case "ELSE" =>
          OwnLineWrites(st, e, "\n" + base + Spaces(5), key,
            Emit(st.(space := false), "\n" + base + Spaces(5) + kw + " "));
        case "END" =>
          NotColumn(st.text, [Lay("\n" + base), key], 1);
          assert "\n" + base + kw == "\n" + base + TextOf(key);
          LeadWrites(st, e, "\n" + base, key, WithSpace(Emit(st.(space := false), "\n" + base + kw)));
        case _ => WordWrites(st, e, key);
      }
    }
  }

  lemma CaseOpensWrites(tok: Node, st: State, e: Ending, key: Piece)
    requires Ends(st, e) && key.CaseKey? && key.leaf == tok && PieceOk(key, st.uppercase) && key.text != ""
    ensures
      var ps := LaySpace(st) + [key, Lay(" ")];
      Writes(st, e, Emit(FlushSpace(st), key.text + " "), ps, [tok]) && SkipsBlank(ps)
  {
    hide Writes, PieceOk, SkipsBlank, LaySpace, FlushSpace, Ends, Fits;
    SpaceWrites(st, e);
    SameCase(st);
    var s1, e1 := FlushSpace(st), EndOf(e, LaySpace(st));
    SpacedWrites(s1, e1, key, Emit(s1, key.text + " "));
    WritesThen(st, e, s1, LaySpace(st), [], Emit(s1, key.text + " "), [key, Lay(" ")], [tok]);
    assert [] + [tok] == [tok];
  }

  lemma BlankSkips(tok: Node, st: State, e: Ending)
    requires IsBlankLeaf(tok) && WellFormed(tok) && Ends(st, e)
    ensures Writes(st, e, st, [Skip([tok])], [tok])
    ensures SkipsBlank([Skip([tok])])
  {
    hide Writes, Ends, SkipsBlank;
    SkipWrites(st, e, [tok]);
    SingleMarks(tok, true);
  }

  lemma LeafWordWrites(tok: Node, st: State, e: Ending)
    requires tok.Leaf? && WellFormed(tok) && !IsBlankLeaf(tok) && !IsKeyword(tok) && Ends(st, e)
    ensures Writes(st, e, EmitWord(st, tok.value), LaySpace(st) + [Word(tok)], [tok])
    ensures SkipsBlank(LaySpace(st) + [Word(tok)])
  {
    hide Writes, Ends, SkipsBlank, LaySpace, EmitWord;
    WordWrites(st, e, Word(tok));
  }

  lemma CopyWrites(node: Node, st: State, e: Ending)
    requires WellFormed(node) && !IsBlankLeaf(node) && Ends(st, e)
    ensures
      var ps := LaySpace(st) + [Copy(node, CopyText(node, st.uppercase))];
      Writes(st, e, EmitWord(st, CopyText(node, st.uppercase)), ps, [node]) && SkipsBlank(ps)
  {
    hide Writes, Ends, SkipsBlank, LaySpace, EmitWord, CopyText, Solid, WellFormed;
    NodeVisible(node);
    CopySolid(node, st.uppercase);
    SolidEnds(CopyText(node, st.uppercase));
    WordWrites(st, e, Copy(node, CopyText(node, st.uppercase)));
  }

  // ---------------------------------------------------------------------
  // Lists on one line
  // ---------------------------------------------------------------------

  // The text of the list: items joined by a comma and a blank.
  function InlineText(kids: Tokens, uppercase: bool): string {
    Join(", ", CopyAll(Items(kids), uppercase))
  }

  lemma {:induction false} InlineOut(kids: Tokens, uppercase: bool)
    requires Alternating(kids, true)
    ensures Out(InlinePieces(kids, uppercase)) == InlineText(kids, uppercase)
    decreases |kids|
  {
    hide CopyText, Join;
    var rest := InlinePieces(kids[1..], uppercase);
    if IsBlankLeaf(kids[0]) {
      InlineOut(kids[1..], uppercase);
      assert ([Skip([kids[0]])] + rest)[1..] == rest;
      assert "" + Out(rest) == Out(rest);
    } else {
      var text := CopyText(kids[0], uppercase);
      var p := Copy(kids[0], text);
      assert ([p] + rest)[1..] == rest;
      InlineTail(kids[1..], text, uppercase);
      assert Items(kids) == [kids[0]] + Items(kids[1..]) && Items(kids)[1..] == Items(kids[1..]);
    }
  }

  lemma {:induction false} InlineTail(kids: Tokens, first: string, uppercase: bool)
    requires Alternating(kids, false)
    ensures first + Out(InlinePieces(kids, uppercase)) == Join(", ", [first] + CopyAll(Items(kids), uppercase))
    decreases |kids|
  {
    hide CopyText, Join, Out, CopyAll;
    if kids == [] {
      JoinOne(first);
      assert CopyAll([], uppercase) == [] && Out([]) == "" by { NoneCopied(uppercase); }
      assert [first] + [] == [first] && first + "" == first;
    } else {
      var rest := InlinePieces(kids[1..], uppercase);
      if IsBlankLeaf(kids[0]) {
        InlineTail(kids[1..], first, uppercase);
        OutOf([Skip([kids[0]])], rest);
      } else {
        InlineOut(kids[1..], uppercase);
        CommaOut(kids[0], rest);
        var items := CopyAll(Items(kids[1..]), uppercase);
        ItemsThere(kids[1..], uppercase);
        CommaLine(first, items);
        assert first + ("," + " " + Join(", ", items)) == first + "," + " " + Join(", ", items);
      }
    }
  }

  lemma NoneCopied(uppercase: bool)
    ensures CopyAll([], uppercase) == [] && Out([]) == ""
  {
  }

  lemma CommaOut(tok: Node, rest: seq<Piece>)
    requires IsPunct(tok, ",")
    ensures Out([Word(tok), Lay(" ")] + rest) == "," + " " + Out(rest)
  {
    var ps := [Word(tok), Lay(" ")];
    OutAppend(ps, rest);
    assert ps == [Word(tok)] + [Lay(" ")];
    OutOf([Word(tok)], [Lay(" ")]);
    OutOf([Lay(" ")], []);
    assert [Lay(" ")] + [] == [Lay(" ")];
  }

  lemma {:induction false} ItemsThere(kids: Tokens, uppercase: bool)
    requires Alternating(kids, true)
    ensures Items(kids) != [] && CopyAll(Items(kids), uppercase) != []
  {
    hide CopyText;
    if IsBlankLeaf(kids[0]) {
      ItemsThere(kids[1..], uppercase);
    }
  }

  // The pieces of the list, as the buffer grows; a blank is pending behind it.
  lemma {:induction false} InlineWrites(kids: Tokens, needItem: bool, st: State, e: Ending)
    requires AllWellFormed(kids) && Alternating(kids, needItem) && st.space && Ends(st, e)
    requires needItem ==> forall p :: Fits(e, p)
    ensures
      var ps := InlinePieces(kids, st.uppercase);
      Writes(st, e, st.(text := st.text + Out(ps)), ps, kids) && SkipsBlank(ps)
    decreases |kids|
  {
    hide CopyText, PieceOk, Fits, Writes, SkipsBlank, Out, WellFormed, Ends;
    if kids == [] {
      assert Out([]) == "" by { OutNone(); }
      assert st.text + "" == st.text;
      WritesNothing(st, e);
    } else {
      var tok, rest := kids[0], InlinePieces(kids[1..], st.uppercase);
      var head := if IsBlankLeaf(tok) then [Skip([tok])]
                  else if IsPunct(tok, ",") then [Word(tok), Lay(" ")]
                  else [Copy(tok, CopyText(tok, st.uppercase))];
      var st1 := st.(text := st.text + Out(head));
      var need1 := if IsBlankLeaf(tok) then needItem else IsPunct(tok, ",");
      InlineHead(tok, st, e, head);
      InlineWrites(kids[1..], need1, st1, EndOf(e, head));
      var st' := st1.(text := st1.text + Out(rest));
      WritesThen(st, e, st1, head, [tok], st', rest, kids[1..]);
      OutAppend(head, rest);
      assert st.text + Out(head) + Out(rest) == st.text + (Out(head) + Out(rest));
      assert kids == [tok] + kids[1..];
    }
  }

  lemma InlineHead(tok: Node, st: State, e: Ending, head: seq<Piece>)
    requires WellFormed(tok) && st.space && Ends(st, e)
    requires head == if IsBlankLeaf(tok) then [Skip([tok])]
                     else if IsPunct(tok, ",") then [Word(tok), Lay(" ")]
                     else [Copy(tok, CopyText(tok, st.uppercase))]
    requires !IsBlankLeaf(tok) && !IsPunct(tok, ",") ==> forall p :: Fits(e, p)
    ensures Writes(st, e, st.(text := st.text + Out(head)), head, [tok]) && SkipsBlank(head)
    ensures IsBlankLeaf(tok) ==> EndOf(e, head) == e
    ensures IsPunct(tok, ",") ==> forall p :: Fits(EndOf(e, head), p)
    ensures Ends(st.(text := st.text + Out(head)), EndOf(e, head))
  {
    hide CopyText, PieceOk, Fits, SkipsBlank, WellFormed, Solid;
    OutOf(head, []);
    assert head + [] == head;
    var st1 := st.(text := st.text + Out(head));
    if IsBlankLeaf(tok) {
      BlankSkips(tok, st, e);
      assert st.text + "" == st.text;
      assert EndOf(e, [Skip([tok])]) == EndOf(e, []) == e;
    } else if IsPunct(tok, ",") {
      CommaHead(tok, st, e);
    } else {
      NodeVisible(tok);
      CopySolid(tok, st.uppercase);
      SolidEnds(CopyText(tok, st.uppercase));
      var p := Copy(tok, CopyText(tok, st.uppercase));
      assert PieceOk(p, st.uppercase) by { CopyOk(tok, st.uppercase); }
      InkWrites(st, e, st1, p);
    }
  }

  lemma CopyOk(node: Node, uppercase: bool)
    requires WellFormed(node) && !IsBlankLeaf(node)
    ensures PieceOk(Copy(node, CopyText(node, uppercase)), uppercase)
  {
  }

  lemma CommaHead(tok: Node, st: State, e: Ending)
    requires IsPunct(tok, ",") && Ends(st, e)
    ensures
      var head := [Word(tok), Lay(" ")];
      && Writes(st, e, st.(text := st.text + Out(head)), head, [tok]) && SkipsBlank(head)
      && EndOf(e, head) == Loose && forall q :: Fits(EndOf(e, head), q)
  {
    hide SkipsBlank, Writes;
    var head, p := [Word(tok), Lay(" ")], Word(tok);
    assert head == [p] + [Lay(" ")];
    OutOf([p], [Lay(" ")]);
    OutOf([Lay(" ")], []);
    assert [Lay(" ")] + [] == [Lay(" ")];
    assert Out(head) == TextOf(p) + " ";
    SpacedWrites(st, e, p, st.(text := st.text + Out(head)));
    assert head[1..] == [Lay(" ")] && [Lay(" ")][1..] == [];
    assert EndAfter(After(p), Lay(" ")) == Loose && EndOf(Loose, []) == Loose;
    assert EndOf(After(p), [Lay(" ")]) == Loose;
  }

  lemma OutNone()
    ensures Out([]) == ""
  {
  }

  lemma OutOf(head: seq<Piece>, rest: seq<Piece>)
    ensures Out(head + rest) == Out(head) + Out(rest)
    ensures |head| == 1 ==> Out(head) == TextOf(head[0])
    ensures |head| == 1 && TextOf(head[0]) == "" ==> Out(head + rest) == Out(rest)
  {
    OutAppend(head, rest);
    if |head| == 1 {
      assert head[1..] == [] && TextOf(head[0]) + "" == TextOf(head[0]);
      assert "" + Out(rest) == Out(rest);
    }
  }

  lemma InlineListWrites(node: Node, st: State, e: Ending)
    requires node.Group? && node.group.IdList? && WellFormed(node) && Ends(st, e)
    ensures
      var ps := LaySpace(st) + InlinePieces(node.kids, st.uppercase);
      Writes(st, e, EmitWord(st, InlineText(node.kids, st.uppercase)), ps, [node]) && SkipsBlank(ps)
  {
    hide Writes, SkipsBlank, Out, Fits, CopyText, Ends, Alternating, InlinePieces, LaySpace;
    var kids, u := node.kids, st.uppercase;
    var ps := InlinePieces(kids, u);
    SpaceWrites(st, e);
    SameCase(st);
    var e1 := EndOf(e, LaySpace(st));
    var s1 := FlushSpace(st).(space := true);
    WritesEnds(st, e, FlushSpace(st), LaySpace(st), []);
    MoreEnds(FlushSpace(st), e1);
    Relabel(st, e, FlushSpace(st), s1, LaySpace(st), []);
    InlineWrites(kids, true, s1, e1);
    InlineOut(kids, u);
    var st' := EmitWord(st, InlineText(kids, u));
    WritesThen(st, e, s1, LaySpace(st), [], s1.(text := s1.text + Out(ps)), ps, kids);
    WritesEnds(st, e, s1.(text := s1.text + Out(ps)), LaySpace(st) + ps, [] + kids);
    SpaceEnds(s1.(text := s1.text + Out(ps)), st', EndOf(e, LaySpace(st) + ps));
    Relabel(st, e, s1.(text := s1.text + Out(ps)), st', LaySpace(st) + ps, [] + kids);
    assert [] + kids == kids;
    WholeWrites(st, e, st', LaySpace(st) + ps, node);
  }

  lemma WritesEnds(st: State, e: Ending, st': State, ps: seq<Piece>, toks: Tokens)
    requires Writes(st, e, st', ps, toks)
    ensures Ends(st', EndOf(e, ps)) && st'.uppercase == st.uppercase && st'.text == st.text + Out(ps)
  {
    hide AllFit, AllPlaced, AllOk, Ends, Smaller, SizeList;
  }

  lemma MoreEnds(st: State, e: Ending)
    requires Ends(st, e)
    ensures Ends(st.(space := true), e)
  {
  }

  lemma SpaceEnds(a: State, b: State, e: Ending)
    requires Ends(a, e) && a.text == b.text && b.space
    ensures Ends(b, e)
  {
  }

  // Only the text, the letter case and a pending blank of the state reached matter.
  lemma Relabel(st: State, e: Ending, a: State, b: State, ps: seq<Piece>, toks: Tokens)
    requires Writes(st, e, a, ps, toks) && a.text == b.text && a.uppercase == b.uppercase && Ends(b, EndOf(e, ps))
    ensures Writes(st, e, b, ps, toks)
  {
    hide AllFit, AllPlaced, AllOk, Ends, Smaller, SizeList;
  }

  // ---------------------------------------------------------------------
  // Comparisons
  // ---------------------------------------------------------------------

  lemma OperandWrites(tok: Node, st: State, e: Ending)
    requires WellFormed(tok) && Ends(st, e)
    ensures Writes(st, e, EmitOperand(tok, st), OperandPieces(tok, st), [tok])
    ensures IsOperand(tok) || Blank(Value(tok)) ==> SkipsBlank(OperandPieces(tok, st))
  {
    hide Writes, Ends, SkipsBlank, LaySpace, EmitWord, CopyText, CaseKeyword, PieceOk, WellFormed, Value;
    if IsBlankLeaf(tok) {
      BlankSkips(tok, st, e);
    } else if tok.Leaf? {
      if IsKeyword(tok) {
        CaseKeyOk(tok, st);
        WordWrites(st, e, CaseKey(tok, CaseKeyword(tok, st)));
        OperandKeyword(tok, st);
      } else {
        LeafWordWrites(tok, st, e);
      }
    } else if tok.group.Ident? || tok.group.FuncCall? {
      CopyWrites(tok, st, e);
    } else {
      AloneWellFormed(tok);
      SkipWrites(st, e, [tok]);
      SingleMarks(tok, true);
    }
  }

  lemma AloneWellFormed(tok: Node)
    requires WellFormed(tok)
    ensures AllWellFormed([tok])
  {
  }

  lemma OperandKeyword(tok: Node, st: State)
    requires IsKeyword(tok) && !IsBlankLeaf(tok)
    ensures EmitOperand(tok, st) == EmitWord(st, CaseKeyword(tok, st))
  {
    hide EmitWord;
  }

  lemma {:induction false} LeftWrites(toks: Tokens, st: State, e: Ending)
    requires AllWellFormed(toks) && Ends(st, e)
    ensures Writes(st, e, EmitComparisonLeft(toks, st), LeftPieces(toks, st), toks)
    ensures OperandsOnly(toks) ==> SkipsBlank(LeftPieces(toks, st))
  {
    hide Writes, Ends, SkipsBlank, OperandPieces, EmitOperand, Value, WellFormed;
    if toks == [] {
      WritesNothing(st, e);
    } else {
      var st1, ps := EmitOperand(toks[0], st), OperandPieces(toks[0], st);
      OperandWrites(toks[0], st, e);
      WritesEnds(st, e, st1, ps, [toks[0]]);
      LeftWrites(toks[1..], st1, EndOf(e, ps));
      WritesThen(st, e, st1, ps, [toks[0]], EmitComparisonLeft(toks[1..], st1), LeftPieces(toks[1..], st1), toks[1..]);
      assert toks == [toks[0]] + toks[1..];
      assert OperandsOnly(toks) ==> OperandsOnly(toks[1..]) && (IsOperand(toks[0]) || Blank(Value(toks[0])));
    }
  }

  lemma EmbedWrites(paren: Node, st: State, e: Ending)
    requires paren.Group? && paren.group.Parens? && WellFormed(paren) && Ends(st, e)
    ensures
      var s0 := FlushSpace(st);
      var column := CurrentColumn(s0.text);
      var ps := LaySpace(st) + [Embed(paren, column, EmbedText(paren, st.uppercase, column))];
      && Writes(st, e, EmitEmbedded(s0, FormatTokens(Inner(paren.kids), st.uppercase), column), ps, [paren])
      && (DroplessList(Inner(paren.kids), 0) ==> SkipsBlank(ps))
  {
    hide Writes, Ends, SkipsBlank, Body, FormatTokens, CurrentColumn, WellFormed, LaySpace, FlushSpace, Fits, Inner,
      EmitEmbedded;
    SpaceWrites(st, e);
    SameCase(st);
    var s0, e1 := FlushSpace(st), EndOf(e, LaySpace(st));
    var column := CurrentColumn(s0.text);
    var formatted := FormatTokens(Inner(paren.kids), st.uppercase);
    EmbeddedText(s0, formatted, column);
    var p := Embed(paren, column, EmbedText(paren, st.uppercase, column));
    assert Fits(e1, p);
    SmallerInside(paren);
    InkWrites(s0, e1, EmitEmbedded(s0, formatted, column), p);
    WritesThen(st, e, s0, LaySpace(st), [], EmitEmbedded(s0, formatted, column), [p], [paren]);
    assert [] + [paren] == [paren];
  }

  lemma SmallerInside(paren: Node)
    requires paren.Group?
    ensures SizeList(Inner(paren.kids)) < SizeList([paren])
  {
    assert [paren][1..] == [];
  }

  // The parts of a comparison that is laid out.
  lemma LaidOut(node: Node, st: State)
    requires node.Group? && ContainsSubquery(node.kids) && !IsSimpleSubquery(node.kids[FirstSubquery(node.kids)])
    ensures
      var p := FirstSubquery(node.kids);
      var paren, s1 := node.kids[p], EmitComparisonLeft(node.kids[..p], st);
      var s0 := FlushSpace(s1);
      var column := CurrentColumn(s0.text);
      && paren.Group? && paren.group.Parens?
      && RenderComparison(node, st) == EmitEmbedded(s0, FormatTokens(Inner(paren.kids), st.uppercase), column)
      && ComparisonPieces(node, st) ==
           LeftPieces(node.kids[..p], st) +
           (LaySpace(s1) + [Embed(paren, column, EmbedText(paren, st.uppercase, column))] + [Skip(node.kids[p + 1..])])
  {
    hide IsSimpleSubquery, LaySpace, FlushSpace, EmitEmbedded, EmbedText, FormatTokens, CurrentColumn,
      EmitComparisonLeft, LeftPieces, IsSubquery;
    var p := FirstSubquery(node.kids);
    SubqueryIsParens(node.kids[p]);
    var s1 := EmitComparisonLeft(node.kids[..p], st);
    var a, b, c := LeftPieces(node.kids[..p], st), LaySpace(s1), Skip(node.kids[p + 1..]);
    var column := CurrentColumn(FlushSpace(s1).text);
    var x := Embed(node.kids[p], column, EmbedText(node.kids[p], st.uppercase, column));
    assert a + b + [x, c] == a + (b + [x] + [c]);
  }

  lemma ComparisonWrites(node: Node, st: State, e: Ending)
    requires node.Group? && ContainsSubquery(node.kids) && WellFormed(node) && Ends(st, e)
    ensures Writes(st, e, RenderComparison(node, st), ComparisonPieces(node, st), [node])
    ensures DroplessComparison(node) ==> SkipsBlank(ComparisonPieces(node, st))
  {
    hide IsSimpleSubquery, Writes, SkipsBlank, ComparisonPieces, RenderComparison, Ends, CopyText, EmitWord,
      LaySpace;
    if IsSimpleSubquery(node.kids[FirstSubquery(node.kids)]) {
      SimpleComparison(node, st);
      CopyWrites(node, st, e);
    } else {
      LaidOutWrites(node, st, e);
    }
  }

  lemma SimpleComparison(node: Node, st: State)
    requires node.Group? && ContainsSubquery(node.kids) && IsSimpleSubquery(node.kids[FirstSubquery(node.kids)])
    ensures RenderComparison(node, st) == EmitWord(st, CopyText(node, st.uppercase))
    ensures ComparisonPieces(node, st) == LaySpace(st) + [Copy(node, CopyText(node, st.uppercase))]
    ensures !IsBlankLeaf(node)
  {
    hide IsSimpleSubquery, EmitWord, CopyText, LaySpace;
  }

  lemma NothingDropped(node: Node)
    requires node.Group? && ContainsSubquery(node.kids) && !IsSimpleSubquery(node.kids[FirstSubquery(node.kids)])
    ensures
      var p := FirstSubquery(node.kids);
      DroplessComparison(node) ==>
        && OperandsOnly(node.kids[..p]) && Blank(ValueList(node.kids[p + 1..]))
        && node.kids[p].Group? && DroplessList(Inner(node.kids[p].kids), 0)
  {
    SubqueryIsParens(node.kids[FirstSubquery(node.kids)]);
    hide IsSimpleSubquery, IsSubquery, DroplessList, ValueList, Blank, OperandsOnly, Value, IsOperand, Inner;
    OperandsOnlyLeft(node.kids, FirstSubquery(node.kids));
  }

  // Left operands, subquery, and whatever is skipped behind it.
  lemma OverRight(st: State, e: Ending, s1: State, p1: seq<Piece>, left: Tokens, s2: State, p2: seq<Piece>, mid: Node,
      right: Tokens)
    requires Writes(st, e, s1, p1, left) && Writes(s1, EndOf(e, p1), s2, p2, [mid]) && AllWellFormed(right)
    ensures Writes(st, e, s2, p1 + (p2 + [Skip(right)]), left + ([mid] + right))
    ensures SkipsBlank(p1) && SkipsBlank(p2) && Blank(ValueList(right)) ==> SkipsBlank(p1 + (p2 + [Skip(right)]))
  {
    hide Writes, Ends, SkipsBlank, EndOf, ValueList, Blank, WellFormed;
    var e1 := EndOf(e, p1);
    WritesEnds(s1, e1, s2, p2, [mid]);
    SkipWrites(s2, EndOf(e1, p2), right);
    WritesThen(s1, e1, s2, p2, [mid], s2, [Skip(right)], right);
    WritesThen(st, e, s1, p1, left, s2, p2 + [Skip(right)], [mid] + right);
  }

  lemma LaidOutWrites(node: Node, st: State, e: Ending)
    requires node.Group? && ContainsSubquery(node.kids) && WellFormed(node) && Ends(st, e)
    requires !IsSimpleSubquery(node.kids[FirstSubquery(node.kids)])
    ensures Writes(st, e, RenderComparison(node, st), ComparisonPieces(node, st), [node])
    ensures DroplessComparison(node) ==> SkipsBlank(ComparisonPieces(node, st))
  {
    hide Writes, Ends, SkipsBlank, IsSimpleSubquery, LaySpace, FlushSpace, EmitEmbedded, EmbedText, FormatTokens,
      CurrentColumn, EmitComparisonLeft, LeftPieces, OperandsOnly, ValueList, IsSubquery, ComparisonPieces,
      RenderComparison, Inner, EndOf, DroplessComparison, Blank, DroplessList;
    LaidOut(node, st);
    var kids, p := node.kids, FirstSubquery(node.kids);
    var paren, left, right := kids[p], kids[..p], kids[p + 1..];
    NothingDropped(node);
    LeftWrites(left, st, e);
    var s1, p1 := EmitComparisonLeft(left, st), LeftPieces(left, st);
    WritesEnds(st, e, s1, p1, left);
    var e1 := EndOf(e, p1);
    EmbedWrites(paren, s1, e1);
    var column := CurrentColumn(FlushSpace(s1).text);
    var p2 := LaySpace(s1) + [Embed(paren, column, EmbedText(paren, s1.uppercase, column))];
    var s2 := RenderComparison(node, st);
    OverRight(st, e, s1, p1, left, s2, p2, paren, right);
    assert kids == left + ([paren] + right);
    WholeWrites(st, e, s2, ComparisonPieces(node, st), node);
  }

  // ---------------------------------------------------------------------
  // The recursion
  // ---------------------------------------------------------------------

  lemma {:induction false} ListWrites(toks: Tokens, st: State, e: Ending)
    requires AllWellFormed(toks) && Laid(st) && Ends(st, e)
    ensures Writes(st, e, RenderList(toks, st), Pieces(toks, st), toks)
    ensures DroplessList(toks, st.depth) ==> SkipsBlank(Pieces(toks, st))
    decreases SizeList(toks), 3, 0
  {
    hide Writes, SkipsBlank;
    assert toks[0..] == toks;
    FromWrites(toks, 0, BetweenAnds(toks), st, e);
  }

  // The tokens from index i to the next one the loop looks at.
  function StepTo(toks: Tokens, i: nat): nat
    requires i < |toks|
  {
    if IsKeyword(toks[i]) then i + 1 + ResolveKeyword(toks, i).1 else i + 1
  }

  function StepState(toks: Tokens, i: nat, bounds: set<nat>, st: State): State
    requires i < |toks|
  {
    var tok := toks[i];
    if IsBlankLeaf(tok) then st
    else if IsPunct(tok, ",") || IsPunct(tok, ";") then HandlePunct(tok, st)
    else if IsKeyword(tok) then HandleKeyword(toks, i, bounds, st)
    else if tok.Group? then RenderGroup(tok, FlushComma(st))
    else EmitWord(FlushComma(st), tok.value)
  }

  function StepPieces(toks: Tokens, i: nat, bounds: set<nat>, st: State): seq<Piece>
    requires i < |toks|
  {
    var tok := toks[i];
    if IsBlankLeaf(tok) then [Skip([tok])]
    else if IsPunct(tok, ",") || IsPunct(tok, ";") then [Word(tok)]
    else if IsKeyword(tok) then KeywordPieces(toks, i, bounds, st)
    else if tok.Group? then LayComma(st) + GroupPieces(tok, FlushComma(st))
    else LayComma(st) + (LaySpace(FlushComma(st)) + [Word(tok)])
  }

  lemma OneStep(toks: Tokens, i: nat, bounds: set<nat>, st: State)
    requires i < |toks|
    ensures i < StepTo(toks, i) <= |toks|
    ensures RenderFrom(toks, i, bounds, st) == RenderFrom(toks, StepTo(toks, i), bounds, StepState(toks, i, bounds, st))
    ensures PiecesFrom(toks, i, bounds, st) ==
      StepPieces(toks, i, bounds, st) + PiecesFrom(toks, StepTo(toks, i), bounds, StepState(toks, i, bounds, st))
  {
    hide HandleKeyword, HandlePunct, RenderGroup, ResolveKeyword, KeywordPieces, GroupPieces, LayComma, LaySpace,
      FlushComma, EmitWord;
  }

  lemma {:induction false} FromWrites(toks: Tokens, i: nat, bounds: set<nat>, st: State, e: Ending)
    requires i <= |toks| && AllWellFormed(toks) && Laid(st) && Ends(st, e)
    ensures Writes(st, e, RenderFrom(toks, i, bounds, st), PiecesFrom(toks, i, bounds, st), toks[i..])
    ensures DroplessList(toks[i..], st.depth) ==> SkipsBlank(PiecesFrom(toks, i, bounds, st))
    decreases SizeList(toks), 2, |toks| - i
  {
    hide Writes, SkipsBlank, Ends, Laid, StepState, StepPieces, RenderFrom, PiecesFrom, ResolveKeyword, Dropless,
      WellFormed;
    if i == |toks| {
      NoMore(toks, bounds, st);
      WritesNothing(st, e);
    } else {
      var next, st1, ps := StepTo(toks, i), StepState(toks, i, bounds, st), StepPieces(toks, i, bounds, st);
      OneStep(toks, i, bounds, st);
      StepWrites(toks, i, bounds, st, e);
      WritesEnds(st, e, st1, ps, toks[i..next]);
      FromWrites(toks, next, bounds, st1, EndOf(e, ps));
      WritesThen(st, e, st1, ps, toks[i..next], RenderFrom(toks, next, bounds, st1),
        PiecesFrom(toks, next, bounds, st1),
        toks[next..]);
      assert toks[i..] == toks[i..next] + toks[next..];
      if DroplessList(toks[i..], st.depth) {
        DroplessSuffix(toks, i, next, st.depth);
        FirstDropless(toks, i, st.depth);
      }
    }
  }

  lemma NoMore(toks: Tokens, bounds: set<nat>, st: State)
    ensures RenderFrom(toks, |toks|, bounds, st) == st && PiecesFrom(toks, |toks|, bounds, st) == []
    ensures toks[|toks|..] == []
  {
  }

  lemma FirstDropless(toks: Tokens, i: nat, depth: int)
    requires i < |toks| && DroplessList(toks[i..], depth)
    ensures Dropless(toks[i], depth)
  {
    hide Dropless;
    assert toks[i..][0] == toks[i];
  }

  lemma {:induction false} StepWrites(toks: Tokens, i: nat, bounds: set<nat>, st: State, e: Ending)
    requires i < |toks| && AllWellFormed(toks) && Laid(st) && Ends(st, e)
    ensures i < StepTo(toks, i) <= |toks|
    ensures Writes(st, e, StepState(toks, i, bounds, st), StepPieces(toks, i, bounds, st), toks[i..StepTo(toks, i)])
    ensures Dropless(toks[i], st.depth) ==> SkipsBlank(StepPieces(toks, i, bounds, st))
    ensures Laid(StepState(toks, i, bounds, st)) && StepState(toks, i, bounds, st).depth == st.depth
    decreases SizeList(toks), 1, 1
  {
    hide Writes, SkipsBlank, Ends, Laid, HandleKeyword, HandlePunct, RenderGroup, ResolveKeyword, KeywordPieces,
      GroupPieces, LayComma, LaySpace, FlushComma, EmitWord, Dropless, WellFormed;
    var tok := toks[i];
    assert tok.Leaf? && !IsKeyword(tok) ==> toks[i..StepTo(toks, i)] == [tok];
    assert tok.Group? ==> toks[i..StepTo(toks, i)] == [tok];
    if IsBlankLeaf(tok) {
      BlankSkips(tok, st, e);
    } else if IsPunct(tok, ",") || IsPunct(tok, ";") {
      PunctWrites(tok, st, e);
      PunctLaid(tok, st);
    } else if IsKeyword(tok) {
      KeywordWrites(toks, i, bounds, st, e);
      KeywordLaid(toks, i, bounds, st);
    } else if tok.Group? {
      SizeMember(toks, i);
      CommaWrites(st, e);
      CommaLaid(st);
      var s1 := FlushComma(st);
      GroupWrites(tok, s1, EndOf(e, LayComma(st)));
      GroupLaid(tok, s1);
      WritesThen(st, e, s1, LayComma(st), [], RenderGroup(tok, s1), GroupPieces(tok, s1), [tok]);
      assert [] + [tok] == [tok];
    } else {
      VisibleLeaf(tok, st.uppercase);
      BrokenWordWrites(st, e, Word(tok));
      SmallStepsLaid(st, tok.value);
      BrokenDepth(st, tok.value);
    }
  }

  lemma BrokenDepth(st: State, t: string)
    ensures EmitWord(FlushComma(st), t).depth == st.depth
  {
    hide Indent;
  }

  lemma CommaLaid(st: State)
    requires Laid(st)
    ensures Laid(FlushComma(st)) && FlushComma(st).depth == st.depth
  {
    hide Indent;
  }

  lemma PunctLaid(tok: Node, st: State)
    requires Laid(st) && (IsPunct(tok, ",") || IsPunct(tok, ";"))
    ensures Laid(HandlePunct(tok, st)) && HandlePunct(tok, st).depth == st.depth
  {
  }

  lemma VisibleLeaf(tok: Node, uppercase: bool)
    requires tok.Leaf? && WellFormed(tok) && !IsBlankLeaf(tok) && !IsKeyword(tok)
    ensures PieceOk(Word(tok), uppercase) && TextOf(Word(tok)) == tok.value && tok.value != ""
  {
  }

  lemma {:induction false} GroupWrites(node: Node, st: State, e: Ending)
    requires node.Group? && WellFormed(node) && Laid(st) && Ends(st, e)
    ensures Writes(st, e, RenderGroup(node, st), GroupPieces(node, st), [node])
    ensures Dropless(node, st.depth) ==> SkipsBlank(GroupPieces(node, st))
    decreases Size(node), 1, 0
  {
    hide Writes, SkipsBlank, Ends, Laid, CopyText, EmitWord, LaySpace, RenderList, Pieces, RenderParens,
      ParensPieces, RenderComparison, ComparisonPieces, RenderCaseFrom, CasePieces, Indent, Blank, InlinePieces, Join,
      CopyAll, IsSimpleList;
    CopyWrites(node, st, e);
    match node.group
    case CaseExpr =>
      CaseIndentBlank(st);
      assert node.kids[0..] == node.kids;
      CaseWrites(node.kids, 0, st, e, Indent(st), true);
      WholeWrites(st, e, RenderCaseFrom(node.kids, 0, st, Indent(st), true),
        CasePieces(node.kids, 0, st, Indent(st), true), node);
    case Parens => ParensWrites(node, st, e);
    case IdList =>
      InlineListWrites(node, st, e);
      GroupListWrites(node, st, e);
    case Ident =>
      if IdentNeedsRecursion(node.kids) { GroupListWrites(node, st, e); }
    case Compare =>
      if ContainsSubquery(node.kids) { ComparisonWrites(node, st, e); }
    case FuncCall =>
    case Container => GroupListWrites(node, st, e);
  }

  lemma {:induction false} GroupListWrites(node: Node, st: State, e: Ending)
    requires node.Group? && WellFormed(node) && Laid(st) && Ends(st, e)
    ensures Writes(st, e, RenderList(node.kids, st), Pieces(node.kids, st), [node])
    ensures DroplessList(node.kids, st.depth) ==> SkipsBlank(Pieces(node.kids, st))
    decreases Size(node), 0, 0
  {
    hide Writes, SkipsBlank, Ends, Laid, RenderList, Pieces, DroplessList;
    ListWrites(node.kids, st, e);
    WholeWrites(st, e, RenderList(node.kids, st), Pieces(node.kids, st), node);
  }

  lemma EnterWrites(st: State, e: Ending)
    requires Laid(st) && Ends(st, e) && st.depth < MAX_DEPTH
    ensures Writes(st, e, EnterSubquery(st), LaySpace(st) + [Word(OPEN)], [OPEN])
    ensures SkipsBlank(LaySpace(st) + [Word(OPEN)])
    ensures Laid(EnterSubquery(st)) && EnterSubquery(st).depth == st.depth + 1
  {
    hide Writes, SkipsBlank, Ends, LaySpace, Fits;
    SpaceWrites(st, e);
    var e1 := EndOf(e, LaySpace(st));
    InkWrites(FlushSpace(st), e1, EnterSubquery(st), Word(OPEN));
    WritesThen(st, e, FlushSpace(st), LaySpace(st), [], EnterSubquery(st), [Word(OPEN)], [OPEN]);
    assert [] + [OPEN] == [OPEN];
  }

  lemma LeaveWrites(outer: State, st: State, e: Ending)
    requires st.uppercase == outer.uppercase
    ensures Writes(st, e, LeaveSubquery(outer, st), [Lay("\n" + Indent(outer)), Word(CLOSE)], [CLOSE])
    ensures SkipsBlank([Lay("\n" + Indent(outer)), Word(CLOSE)])
  {
    hide Writes, SkipsBlank, Indent, Blank;
    IndentIsBlank(outer);
    var lead := "\n" + Indent(outer);
    NotColumn(st.text, [Lay(lead), Word(CLOSE)], 1);
    LeadWrites(st, e, lead, Word(CLOSE), LeaveSubquery(outer, st));
  }

  lemma {:induction false} ParensWrites(node: Node, st: State, e: Ending)
    requires node.Group? && node.group.Parens? && WellFormed(node) && Laid(st) && Ends(st, e)
    ensures Writes(st, e, RenderParens(node, st), ParensPieces(node, st), [node])
    ensures Dropless(node, st.depth) ==> SkipsBlank(ParensPieces(node, st))
    decreases Size(node), 0, 0
  {
    hide Writes, SkipsBlank, Ends, Laid, EmitWord, ParenText, HasSelect, RenderList, Pieces, Inner, EnterSubquery,
      LeaveSubquery, Indent, LaySpace, DroplessList, Solid, PieceOk;
    ParenSolid(node, st.uppercase);
    SolidEnds(Value(node));
    SolidEnds(ParenText(node, st.uppercase));
    if !HasSelect(node.kids, SELECT_DEPTH) {
      CopiedParens(node, ParenText(node, st.uppercase), st.uppercase);
      WordWrites(st, e, Piece.Parens(node, ParenText(node, st.uppercase)));
    } else if st.depth >= MAX_DEPTH {
      CopiedParens(node, Value(node), st.uppercase);
      WordWrites(st, e, Piece.Parens(node, Value(node)));
    } else {
      var inner := Inner(node.kids);
      var s0, p0 := EnterSubquery(st), LaySpace(st) + [Word(OPEN)];
      EnterWrites(st, e);
      WritesEnds(st, e, s0, p0, [OPEN]);
      InnerWellFormed(node);
      ListWrites(inner, s0, EndOf(e, p0));
      var s1, p1 := RenderList(inner, s0), Pieces(inner, s0);
      WritesEnds(s0, EndOf(e, p0), s1, p1, inner);
      WritesThen(st, e, s0, p0, [OPEN], s1, p1, inner);
      EndAppend(e, p0, p1);
      var p2 := [Lay("\n" + Indent(st)), Word(CLOSE)];
      LeaveWrites(st, s1, EndOf(e, p0 + p1));
      WritesThen(st, e, s1, p0 + p1, [OPEN] + inner, LeaveSubquery(st, s1), p2, [CLOSE]);
      WholeWrites(st, e, LeaveSubquery(st, s1), p0 + p1 + p2, node) by { PairedParts(node); }
    }
  }

  lemma CopiedParens(node: Node, text: string, uppercase: bool)
    requires node.Group? && node.group.Parens? && WellFormed(node)
    requires text == if HasSelect(node.kids, SELECT_DEPTH) then Value(node) else ParenText(node, uppercase)
    ensures PieceOk(Piece.Parens(node, text), uppercase)
  {
    hide HasSelect, ParenText;
  }

  lemma InnerWellFormed(node: Node)
    requires node.Group? && node.group.Parens? && WellFormed(node)
    ensures AllWellFormed(Inner(node.kids))
  {
    InnerOfPaired(node.kids);
  }

  lemma PairedParts(node: Node)
    requires node.Group? && node.group.Parens? && WellFormed(node)
    ensures node.kids == [OPEN] + Inner(node.kids) + [CLOSE]
  {
    InnerOfPaired(node.kids);
  }

  lemma {:induction false} CaseWrites(kids: Tokens, i: nat, st: State, e: Ending, base: string, firstWhen: bool)
    requires i <= |kids| && AllWellFormed(kids) && Blank(base) && Laid(st) && Ends(st, e)
    ensures Writes(st, e, RenderCaseFrom(kids, i, st, base, firstWhen), CasePieces(kids, i, st, base, firstWhen),
      kids[i..])
    ensures DroplessCase(kids[i..], st.depth) ==> SkipsBlank(CasePieces(kids, i, st, base, firstWhen))
    decreases SizeList(kids), 2, |kids| - i
  {
    hide Writes, SkipsBlank, Ends, Laid, EmitWhen, EmitCaseLeaf, RenderCaseGroup, WhenPieces, CaseLeafPieces,
      CaseGroupPieces, Normalize, Blank, DroplessInCase, WellFormed;
    if i == |kids| {
      WritesNothing(st, e);
      assert kids[i..] == [];
    } else {
      var tok := kids[i];
      var isWhen := IsKeyword(tok) && Normalize(tok.value) == "WHEN";
      var st1 := if isWhen then EmitWhen(tok, st, base, firstWhen)
                 else if tok.Leaf? then EmitCaseLeaf(tok, st, base)
                 else RenderCaseGroup(tok, st);
      var ps := if isWhen then WhenPieces(tok, st, base, firstWhen)
                else if tok.Leaf? then CaseLeafPieces(tok, st, base)
                else CaseGroupPieces(tok, st);
      var first1 := if isWhen then false else firstWhen;
      if tok.Leaf? {
        CaseLeafLaid(tok, st, base, firstWhen);
        if isWhen {
          WhenWrites(tok, st, e, base, firstWhen);
        } else {
          CaseLeafWrites(tok, st, e, base);
        }
      } else {
        SizeMember(kids, i);
        CaseGroupLaid(tok, st);
        CaseGroupWrites(tok, st, e);
      }
      WritesEnds(st, e, st1, ps, [tok]);
      CaseWrites(kids, i + 1, st1, EndOf(e, ps), base, first1);
      var rest := CasePieces(kids, i + 1, st1, base, first1);
      WritesThen(st, e, st1, ps, [tok], RenderCaseFrom(kids, i + 1, st1, base, first1), rest, kids[i + 1..]);
      assert kids[i..] == [tok] + kids[i + 1..];
      assert kids[i..][1..] == kids[i + 1..] && kids[i..][0] == tok;
      assert CasePieces(kids, i, st, base, firstWhen) == ps + rest;
    }
  }

  lemma {:induction false} CaseGroupWrites(tok: Node, st: State, e: Ending)
    requires tok.Group? && WellFormed(tok) && Laid(st) && Ends(st, e)
    ensures Writes(st, e, RenderCaseGroup(tok, st), CaseGroupPieces(tok, st), [tok])
    ensures DroplessInCase(tok, st.depth) ==> SkipsBlank(CaseGroupPieces(tok, st))
    decreases Size(tok), 2, 0
  {
    hide Writes, SkipsBlank, Ends, Laid, EmitWord, CopyText, LaySpace, FlushSpace, RenderGroup, GroupPieces,
      RenderComparison, ComparisonPieces, Dropless, DroplessComparison, WellFormed;
    if IsSubqueryComparison(tok) {
      ComparisonWrites(tok, st, e);
    } else if tok.group.Ident? || tok.group.Compare? {
      CopyWrites(tok, st, e);
    } else {
      SpaceWrites(st, e);
      SpaceLaid(st);
      var s1, e1 := FlushSpace(st), EndOf(e, LaySpace(st));
      WritesEnds(st, e, s1, LaySpace(st), []);
      GroupWrites(tok, s1, e1);
      WritesThen(st, e, s1, LaySpace(st), [], RenderGroup(tok, s1), GroupPieces(tok, s1), [tok]);
      assert [] + [tok] == [tok];
    }
  }

  lemma SpaceLaid(st: State)
    requires Laid(st)
    ensures Laid(FlushSpace(st)) && FlushSpace(st).depth == st.depth
  {
  }

  // The transcript of a statement: its text is what the clean-up gets, its sources have
  // the leaves of the tree, and every piece stands where it may.
  lemma StatementWrites(toks: Tokens, uppercase: bool)
    requires AllWellFormed(toks)
    ensures
      var st := Start(uppercase);
      var ps := Pieces(toks, st);
      && RenderList(toks, st).text == Out(ps)
      && LeavesOf(Sources(ps)) == LeavesOf(toks)
      && AllOk(ps, uppercase) && Smaller(ps, SizeList(toks)) && AllPlaced("", ps) && AllFit(Loose, ps)
      && (DroplessList(toks, 0) ==> SkipsBlank(ps))
  {
    hide AllOk, Smaller, AllPlaced, AllFit, SkipsBlank, RenderList, Pieces, DroplessList;
    StartLaid(uppercase);
    ListWrites(toks, Start(uppercase), Loose);
    assert "" + Out(Pieces(toks, Start(uppercase))) == Out(Pieces(toks, Start(uppercase)));
  }
}
