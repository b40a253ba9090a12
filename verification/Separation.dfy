// Formatting keeps the tokens apart exactly when the dry run says so: the dry
// run is a simulation of the renderer.
module Separation {
  import opened Text
  import opened SqlTree
  import opened Rendering
  import opened Preservation
  import opened Lossless
  import opened Probe
  import PostProcess

  // ---------------------------------------------------------------------
  // Marks of a tree
  // ---------------------------------------------------------------------

  // ms are marks of the text v; g says whether whitespace precedes it.
  predicate Reads(ms: seq<Mark>, v: string, g: bool) {
    && |ms| == |Cells(v, g)|
    && (forall k :: 0 <= k < |ms| ==> ms[k].ch == Cells(v, g)[k].ch && ms[k].gap == Cells(v, g)[k].gap)
    && (ms != [] ==> ms[0].start)
  }

  lemma ReadsAppend(m1: seq<Mark>, v1: string, m2: seq<Mark>, v2: string, g: bool)
    requires Reads(m1, v1, g) && Reads(m2, v2, Trail(v1, g))
    ensures Reads(m1 + m2, v1 + v2, g)
  {
    hide Cells, Trail;
    CellsAppend(v1, v2, g);
  }

  lemma {:induction false} MarksRead(node: Node, g: bool)
    ensures Reads(Marks(node, g), Value(node), g)
  {
    hide Cells;
    match node
    case Leaf(_, _) =>
    case Group(_, kids) => MarksListRead(kids, g);
  }

  lemma {:induction false} MarksListRead(toks: Tokens, g: bool)
    ensures Reads(MarksList(toks, g), ValueList(toks), g)
  {
    hide Reads, Trail;
    if toks == [] {
      NothingReads(g);
    } else {
      var h := Trail(Value(toks[0]), g);
      MarksRead(toks[0], g);
      MarksListRead(toks[1..], h);
      ReadsAppend(Marks(toks[0], g), Value(toks[0]), MarksList(toks[1..], h), ValueList(toks[1..]), g);
    }
  }

  lemma NothingReads(g: bool)
    ensures Reads([], "", g)
  {
  }

  lemma {:induction false} MarksListAppend(a: Tokens, b: Tokens, g: bool)
    ensures MarksList(a + b, g) == MarksList(a, g) + MarksList(b, Trail(ValueList(a), g))
  {
    hide Trail, Marks, Value;
    if a == [] {
      assert a + b == b;
      assert Trail(ValueList(a), g) == g by { EmptyTrail(g); }
    } else {
      assert (a + b)[1..] == a[1..] + b;
      MarksListAppend(a[1..], b, Trail(Value(a[0]), g));
      TrailAppend(Value(a[0]), ValueList(a[1..]), g);
    }
  }

  lemma EmptyTrail(g: bool)
    ensures Trail("", g) == g
  {
  }

  function LastMark(prev: char, ms: seq<Mark>): char {
    if ms == [] then prev else ms[|ms| - 1].ch
  }

  lemma ReadsLast(ms: seq<Mark>, v: string, g: bool, prev: char)
    requires Reads(ms, v, g)
    ensures LastMark(prev, ms) == LastOf(prev, v)
  {
    hide Cells, Canon;
    CellsCanon(v, g);
  }

  lemma GapsAppend(prev: char, m1: seq<Mark>, c1: seq<Cell>, m2: seq<Mark>, c2: seq<Cell>)
    requires |m1| == |c1| && |m2| == |c2|
    ensures GapsFrom(prev, m1 + m2, c1 + c2) <==> GapsFrom(prev, m1, c1) && GapsFrom(LastMark(prev, m1), m2, c2)
  {
    hide GapOk;
    var ms, cs := m1 + m2, c1 + c2;
    var last := LastMark(prev, m1);
    forall k | 0 <= k < |m1|
      ensures ms[k] == m1[k] && cs[k] == c1[k] && Before(prev, ms, k) == Before(prev, m1, k)
    {
    }
    forall k | 0 <= k < |m2|
      ensures ms[|m1| + k] == m2[k] && cs[|m1| + k] == c2[k] && Before(prev, ms, |m1| + k) == Before(last, m2, k)
    {
    }
    if GapsFrom(prev, ms, cs) {
      assert GapsFrom(prev, m1, c1);
      forall k | 0 <= k < |m2| ensures GapOk(Before(last, m2, k), m2[k], c2[k]) {
        assert GapOk(Before(prev, ms, |m1| + k), ms[|m1| + k], cs[|m1| + k]);
      }
    }
    if GapsFrom(prev, m1, c1) && GapsFrom(last, m2, c2) {
      forall k | 0 <= k < |ms| ensures GapOk(Before(prev, ms, k), ms[k], cs[k]) {
        if k >= |m1| {
          assert GapOk(Before(last, m2, k - |m1|), m2[k - |m1|], c2[k - |m1|]);
        }
      }
    }
  }

  // ---------------------------------------------------------------------
  // Text written for a group of marks
  // ---------------------------------------------------------------------

  // Within itself, u shows the marks properly; its first gap is left open.
  predicate Renders(ms: seq<Mark>, u: string) {
    var cs := Cells(u, true);
    && ms != [] && ms[0].start
    && SameText(ms, cs)
    && forall k :: 1 <= k < |ms| ==> GapOk(ms[k - 1].ch, ms[k], cs[k])
  }

  lemma CopyRenders(ms: seq<Mark>, v: string, g: bool, u: string)
    requires Reads(ms, v, g) && Cells(u, true) == Cells(v, true) && !Blank(v)
    ensures Renders(ms, u)
  {
    hide Cells, Canon, Blank;
    CellsGap(v, g);
    CellsCanon(v, g);
    BlankIsInvisible(v);
    forall k | 1 <= k < |ms| ensures GapOk(ms[k - 1].ch, ms[k], Cells(u, true)[k]) {
      assert Cells(v, g)[1..][k - 1] == Cells(v, true)[1..][k - 1];
    }
  }

  // Two pieces with whitespace between them.
  lemma SpacedRenders(m1: seq<Mark>, u1: string, m2: seq<Mark>, u2: string, sep: string)
    requires Renders(m1, u1) && Renders(m2, u2) && Blank(sep) && sep != ""
    ensures Renders(m1 + m2, u1 + sep + u2)
  {
    hide Cells, Blank;
    CellsAppend(u1 + sep, u2, true);
    CellsAppend(u1, sep, true);
    BlankCells(sep, Trail(u1, true));
    BlankEnds(u1, sep);
    var cs := Cells(u1, true) + Cells(u2, true);
    LoosePiece(u2);
    forall k | 1 <= k < |m1 + m2| ensures GapOk((m1 + m2)[k - 1].ch, (m1 + m2)[k], cs[k]) {
      if k > |m1| {
        assert (m1 + m2)[k] == m2[k - |m1|] && (m1 + m2)[k - 1] == m2[k - 1 - |m1|];
      }
    }
  }

  lemma BlankEnds(u: string, sep: string)
    requires Blank(sep) && sep != ""
    ensures Trail(u + sep, true)
  {
  }

  lemma LoosePiece(u: string)
    ensures Cells(u, true) != [] ==> Cells(u, true)[0].gap
  {
    LeadingGap(u);
  }

  // A piece followed by a delimiter.
  lemma DelimitedRenders(m1: seq<Mark>, u1: string, m2: seq<Mark>)
    requires Renders(m1, u1) && u1 != "" && !IsSpace(u1[|u1| - 1])
    requires |m2| == 1 && m2[0].ch == ',' && m2[0].start
    ensures Renders(m1 + m2, u1 + ",")
  {
    hide Cells;
    CellsAppend(u1, ",", true);
    CommaCells();
    var cs := Cells(u1, true) + [Cell(',', false)];
    forall k | 1 <= k < |m1 + m2| ensures GapOk((m1 + m2)[k - 1].ch, (m1 + m2)[k], cs[k]) {
      if k < |m1| {
        assert (m1 + m2)[k] == m1[k] && (m1 + m2)[k - 1] == m1[k - 1];
      }
    }
  }

  lemma CommaCells()
    ensures Cells(",", false) == [Cell(',', false)]
  {
    assert ","[1..] == "";
  }

  // ---------------------------------------------------------------------
  // The simulation
  // ---------------------------------------------------------------------

  // The probe p describes the state st after the marks ms were written.
  predicate Sim(st: State, p: Probe, ms: seq<Mark>) {
    && SameText(ms, Cells(st.text, true))
    && (GapsFrom(OUTSIDE, ms, Cells(st.text, true)) <==> p.ok)
    && p.prev == LastMark(OUTSIDE, ms)
    && p.loose == Trail(st.text, true)
    && (!st.hasContent ==> st.text == "")
    && SameFlags(st, p)
  }

  predicate SameFlags(st: State, p: Probe) {
    && p.space == st.space
    && p.comma == st.comma
    && p.origins == st.origins
    && p.clause == st.clause
    && p.depth == st.depth
  }

  // Whitespace at the end of the output only makes it loose.
  lemma BlankSim(st: State, p: Probe, ms: seq<Mark>, b: string)
    requires Sim(st, p, ms) && Blank(b) && b != ""
    ensures Sim(st.(text := st.text + b, hasContent := true), p.(loose := true), ms)
  {
    hide Cells, GapsFrom, SameText, Blank;
    CellsAppend(st.text, b, true);
    BlankCells(b, Trail(st.text, true));
    assert Cells(st.text + b, true) == Cells(st.text, true);
    BlankEnds(st.text, b);
  }

  lemma EmitSim(st: State, p: Probe, ms: seq<Mark>, m2: seq<Mark>, v: string, u: string)
    requires Sim(st, p, ms) && Reads(m2, v, p.gap) && Renders(m2, u)
    requires u != "" && !IsSpace(u[|u| - 1]) && (p.loose || !IsSpace(u[0]))
    ensures Sim(Emit(st, u), Write(p, v), ms + m2)
  {
    hide Cells, Canon, GapsFrom, GapOk, Reads;
    var cs, c2 := Cells(st.text, true), Cells(u, p.loose);
    CellsAppend(st.text, u, true);
    CellsGap(u, p.loose);
    assert SameText(ms + m2, cs + c2) by {
      forall k | 0 <= k < |m2| ensures m2[k].ch == c2[k].ch {
        if k > 0 { assert c2[1..][k - 1] == Cells(u, true)[1..][k - 1]; }
      }
    }
    GapsAppend(OUTSIDE, ms, cs, m2, c2);
    FirstGap(p, m2, v, u, c2);
    ReadsLast(m2, v, p.gap, p.prev);
    assert LastMark(OUTSIDE, ms + m2) == LastMark(LastMark(OUTSIDE, ms), m2);
  }

  // Only the first gap of the written text can go wrong.
  lemma FirstGap(p: Probe, m2: seq<Mark>, v: string, u: string, c2: seq<Cell>)
    requires Reads(m2, v, p.gap) && Renders(m2, u)
    requires |c2| == |Cells(u, true)| && c2[1..] == Cells(u, true)[1..] && c2[0].gap == p.loose
    ensures GapsFrom(p.prev, m2, c2) <==> p.loose || !Fuses(p, v)
  {
    hide Cells;
    forall k | 1 <= k < |m2| ensures GapOk(Before(p.prev, m2, k), m2[k], c2[k]) {
      assert c2[1..][k - 1] == Cells(u, true)[1..][k - 1];
      assert GapOk(m2[k - 1].ch, m2[k], Cells(u, true)[k]);
    }
    assert GapsFrom(p.prev, m2, c2) <==> GapOk(Before(p.prev, m2, 0), m2[0], c2[0]);
  }

  // A text written behind whitespace: a line break, or the start of the output.
  lemma LineSim(st: State, p: Probe, ms: seq<Mark>, m2: seq<Mark>, v: string, lead: string, u: string, post: string)
    requires Sim(st, p, ms) && Reads(m2, v, p.gap) && Renders(m2, u)
    requires Blank(lead) && Blank(post) && (lead == "" ==> p.loose)
    requires u != "" && !IsSpace(u[|u| - 1])
    ensures Sim(Emit(st, lead + u + post), Write(p.(loose := true), v).(loose := post != ""), ms + m2)
  {
    hide Sim, Reads, Renders, Blank;
    var p1 := p.(loose := true);
    var st1 := if lead == "" then st else st.(text := st.text + lead, hasContent := true);
    if lead == "" {
      assert p1 == p;
    } else {
      BlankSim(st, p, ms, lead);
    }
    EmitSim(st1, p1, ms, m2, v, u);
    var st2, p2 := Emit(st1, u), Write(p1, v);
    if post == "" {
      assert st.text + (lead + u + post) == st1.text + u;
      assert Emit(st, lead + u + post) == st2 && p2.(loose := post != "") == p2;
    } else {
      BlankSim(st2, p2, ms + m2, post);
      assert st.text + (lead + u + post) == st1.text + u + post;
      assert Emit(st, lead + u + post) == st2.(text := st2.text + post, hasContent := true);
    }
  }

  lemma FlushSim(st: State, p: Probe, ms: seq<Mark>)
    requires Sim(st, p, ms)
    ensures Sim(FlushSpace(st), Flushed(p), ms)
    ensures Sim(FlushComma(st), Broken(p), ms)
  {
    hide Cells, SameText, GapsFrom, Indent, Blank;
    OneBlank();
    BlankSim(st, p, ms, " ");
    IndentIsBlank(st);
    BlankSim(st, p, ms, "\n" + Indent(st));
  }

  lemma WordSim(st: State, p: Probe, ms: seq<Mark>, m2: seq<Mark>, v: string, u: string)
    requires Sim(st, p, ms) && Reads(m2, v, p.gap) && Renders(m2, u)
    requires u != "" && !IsSpace(u[|u| - 1]) && !IsSpace(u[0])
    ensures Sim(EmitWord(st, u), WriteWord(p, v), ms + m2)
  {
    hide Reads, Renders, Cells, SameText, GapsFrom;
    FlushSim(st, p, ms);
    EmitSim(FlushSpace(st), Flushed(p), ms, m2, v, u);
  }

  // ---------------------------------------------------------------------
  // Ends of the texts the renderer writes
  // ---------------------------------------------------------------------

  // Visible at both ends.
  predicate Solid(u: string) {
    u != "" && !IsSpace(u[0]) && !IsSpace(u[|u| - 1])
  }

  lemma {:induction false} WordsSolid(s: string)
    requires !Blank(s)
    ensures Words(s) != [] && Solid(Join(" ", Words(s)))
    decreases |s|
  {
    TrimLeftBlank(s);
    var t := TrimLeft(s);
    var n := WordLength(t);
    var rest := t[n..];
    assert Words(s) == [t[..n]] + Words(rest);
    assert Words(s)[1..] == Words(rest);
    if Blank(rest) {
      BlankWords(rest);
    } else {
      WordsSolid(rest);
    }
  }

  lemma {:induction false} TrimLeftBlank(s: string)
    ensures TrimLeft(s) == "" <==> Blank(s)
  {
    if s != "" && IsSpace(s[0]) {
      TrimLeftBlank(s[1..]);
      assert Blank(s[1..]) ==> Blank(s) by { assert s == [s[0]] + s[1..]; }
    }
  }

  lemma BlankWords(s: string)
    requires Blank(s)
    ensures Words(s) == []
  {
    TrimLeftBlank(s);
  }

  lemma {:induction false} TrimRightKeepsStart(s: string)
    requires s != "" && !IsSpace(s[0])
    ensures Solid(TrimRight(s)) && TrimRight(s)[0] == s[0]
  {
    if IsSpace(s[|s| - 1]) {
      TrimRightKeepsStart(s[..|s| - 1]);
    }
  }

  lemma UpperBlank(s: string)
    ensures Blank(Upper(s)) <==> Blank(s)
    ensures Solid(Upper(s)) <==> Solid(s)
  {
    var u := Upper(s);
    assert forall i :: 0 <= i < |s| ==> (IsSpace(u[i]) <==> IsSpace(s[i]));
  }

  // Upper-casing keywords moves no whitespace.
  predicate SameSpaces(a: string, b: string) {
    |a| == |b| && forall i :: 0 <= i < |a| ==> (IsSpace(a[i]) <==> IsSpace(b[i]))
  }

  lemma {:induction false} KeywordsUpperSpaces(node: Node)
    ensures SameSpaces(KeywordsUpper(node), Value(node))
  {
    match node
    case Leaf(_, _) =>
    case Group(_, kids) => KeywordsUpperListSpaces(kids);
  }

  lemma {:induction false} KeywordsUpperListSpaces(toks: Tokens)
    ensures SameSpaces(KeywordsUpperList(toks), ValueList(toks))
  {
    if toks != [] {
      KeywordsUpperSpaces(toks[0]);
      KeywordsUpperListSpaces(toks[1..]);
    }
  }

  lemma CopySolid(node: Node, uppercase: bool)
    requires !Blank(Value(node))
    ensures Solid(CopyText(node, uppercase))
  {
    hide Cells, Canon, KeywordsUpper, SquashSpaces, Solid, Words, Value, TrimRight, TrimLeft;
    if uppercase {
      var t := SquashSpaces(KeywordsUpper(node));
      KeywordsUpperCells(node, true);
      SquashCells(KeywordsUpper(node), true);
      SameCellsSameCanon(t, Value(node));
      BlankIsInvisible(t);
      BlankIsInvisible(Value(node));
      TrimLeftBlank(t);
      TrimRightKeepsStart(TrimLeft(t));
    } else {
      WordsSolid(Value(node));
    }
  }

  lemma ParenSolid(node: Node, uppercase: bool)
    requires node.Group? && node.group.Parens? && WellFormed(node)
    ensures Solid(Value(node)) && Solid(ParenText(node, uppercase)) && !Blank(Value(node))
  {
    hide KeywordsUpper;
    InnerOfPaired(node.kids);
    var v := Value(node);
    assert v[0] == '(' && v[|v| - 1] == ')';
    KeywordsUpperSpaces(node);
  }

  lemma NormalizeSolid(value: string)
    requires Solid(value)
    ensures Solid(Normalize(value)) && !Blank(value)
  {
    hide Words;
    UpperBlank(value);
    WordsSolid(Upper(value));
  }

  lemma PadSolid(kw: string)
    requires Solid(kw)
    ensures Pad(kw) != "" && !IsSpace(Pad(kw)[|Pad(kw)| - 1])
  {
    var i := IndexOf(kw, ' ');
    if i < |kw| {
      var rest := kw[i + 1..];
      assert rest != "" && rest[|rest| - 1] == kw[|kw| - 1];
      assert Pad(kw) == RightAlign(kw[..i]) + " " + rest;
    } else {
      assert kw[..i] == kw;
    }
  }

  lemma KeywordTextSolid(norm: string, uppercase: bool)
    requires Solid(norm)
    ensures Solid(KeywordText(norm, uppercase))
    ensures Upper(KeywordText(norm, uppercase)) == Upper(norm)
  {
    assert Upper(Lower(norm)) == Upper(norm) by {
      assert forall k :: 0 <= k < |norm| ==> Upper(Lower(norm))[k] == Upper(norm)[k];
    }
  }

  // ---------------------------------------------------------------------
  // Keywords
  // ---------------------------------------------------------------------

  lemma RendersCells(ms: seq<Mark>, u: string, u': string)
    requires Renders(ms, u) && Cells(u, true) == Cells(u', true)
    ensures Renders(ms, u')
  {
  }

  lemma {:induction false} BlankMarks(toks: Tokens, g: bool)
    requires AllWellFormed(toks) && forall k :: 0 <= k < |toks| ==> IsBlankLeaf(toks[k])
    ensures MarksList(toks, g) == []
  {
    hide Blank;
    if toks != [] {
      BlankCells(toks[0].value, g);
      BlankMarks(toks[1..], Trail(Value(toks[0]), g));
    }
  }

  lemma SingleMarks(tok: Node, g: bool)
    ensures MarksList([tok], g) == Marks(tok, g) && ValueList([tok]) == Value(tok)
  {
    assert [tok][1..] == [];
  }

  lemma KeywordMarks(toks: Tokens, i: nat, g: bool)
    requires i < |toks| && IsKeyword(toks[i]) && AllWellFormed(toks)
    ensures
      var (norm, extra) := ResolveKeyword(toks, i);
      var own := toks[i..i + 1 + extra];
      && Reads(MarksList(own, g), ValueList(own), g)
      && Renders(MarksList(own, g), norm)
      && Solid(norm)
  {
    hide ResolveKeyword, Normalize, Reads, Renders, Marks, Cells, MarksList, ValueList, Trail, Words;
    var (norm, extra) := ResolveKeyword(toks, i);
    var own := toks[i..i + 1 + extra];
    var head := toks[i];
    ResolvedText(toks, i);
    MarksListRead(own, g);
    LeafRenders(head, g);
    if extra == 0 {
      assert own == [head];
      SingleMarks(head, g);
    } else {
      var next := toks[i + extra];
      var blanks := toks[i + 1..i + extra];
      assert own == [head] + (blanks + [next]);
      var g1 := Trail(ValueList([head]), g);
      var g2 := Trail(ValueList(blanks), g1);
      MarksListAppend([head], blanks + [next], g);
      MarksListAppend(blanks, [next], g1);
      BlankMarks(blanks, g1);
      SingleMarks(head, g);
      SingleMarks(next, g2);
      LeafRenders(next, g2);
      OneBlank();
      SpacedRenders(Marks(head, g), Normalize(head.value), Marks(next, g2), Normalize(next.value), " ");
      assert MarksList(own, g) == Marks(head, g) + Marks(next, g2);
    }
  }

  lemma LeafRenders(tok: Node, g: bool)
    requires tok.Leaf? && WellFormed(tok) && !IsBlankLeaf(tok)
    ensures Renders(Marks(tok, g), Normalize(tok.value)) && Renders(Marks(tok, g), tok.value)
    ensures Solid(Normalize(tok.value)) && Solid(tok.value) && Reads(Marks(tok, g), tok.value, g)
  {
    hide Normalize, Reads, Renders, Marks, Cells;
    MarksRead(tok, g);
    NormalizeSolid(tok.value);
    NormalizeCells(tok.value);
    CopyRenders(Marks(tok, g), tok.value, g, Normalize(tok.value));
    CopyRenders(Marks(tok, g), tok.value, g, tok.value);
  }

  // A keyword written at the start of a line, with or without a trailing blank.
  lemma KeywordLineSim(st: State, p: Probe, ms: seq<Mark>, m2: seq<Mark>, v: string, kw: string, post: string)
    requires Sim(st, p, ms) && Reads(m2, v, p.gap) && Renders(m2, Pad(kw)) && Solid(kw)
    requires post == "" || post == " "
    ensures Sim(Emit(st, LineStart(st) + Indent(st) + Pad(kw) + post),
      Write(p.(loose := true), v).(loose := post != ""), ms + m2)
    ensures Sim(Emit(st, LineStart(st) + Pad(kw) + post), Write(p.(loose := true), v).(loose := post != ""), ms + m2)
    ensures Sim(Emit(st, "\n" + Indent(st) + Pad(kw) + post), Write(p.(loose := true), v).(loose := post != ""),
      ms + m2)
  {
    hide Reads, Renders, Pad, Indent, Blank, Cells, GapsFrom, SameText;
    PadSolid(kw);
    OneBlank();
    IndentIsBlank(st);
    LineSim(st, p, ms, m2, v, LineStart(st) + Indent(st), Pad(kw), post);
    LineSim(st, p, ms, m2, v, LineStart(st), Pad(kw), post);
    LineSim(st, p, ms, m2, v, "\n" + Indent(st), Pad(kw), post);
  }

  lemma JoinLikeSim(st: State, p: Probe, ms: seq<Mark>, m2: seq<Mark>, v: string, kw: string)
    requires Sim(st, p, ms) && Reads(m2, v, p.gap) && Renders(m2, Pad(kw)) && Solid(kw)
    ensures Sim(EmitJoinLike(st, kw), WriteLine(p, v).(loose := true), ms + m2)
  {
    hide Reads, Renders, Pad, Indent, Cells, GapsFrom, SameText, LineStart, Upper;
    var q := p.(space := false, comma := false);
    var s0 := st.(space := false, comma := false, top := NonNegative(st.top - 1));
    KeywordLineSim(s0, q, ms, m2, v, kw, " ");
  }

  lemma ClauseSim(st: State, p: Probe, ms: seq<Mark>, m2: seq<Mark>, v: string, kw: string)
    requires Sim(st, p, ms) && Reads(m2, v, p.gap) && Renders(m2, Pad(kw)) && Solid(kw)
    ensures Sim(EmitClause(st, kw), WriteLine(p, v).(loose := true, clause := Upper(kw)), ms + m2)
  {
    hide Reads, Renders, Pad, Indent, Cells, GapsFrom, SameText, LineStart, Upper;
    var q := p.(space := false, comma := false);
    var s1 := st.(space := false, comma := false, top := if st.top > 0 then st.top - 1 else st.top);
    KeywordLineSim(s1, q, ms, m2, v, kw, " ");
  }

  lemma SetOpSim(st: State, p: Probe, ms: seq<Mark>, m2: seq<Mark>, v: string, kw: string)
    requires Sim(st, p, ms) && Reads(m2, v, p.gap) && Renders(m2, Pad(kw)) && Solid(kw)
    ensures Sim(EmitSetOp(st, kw), WriteLine(p, v), ms + m2)
  {
    hide Reads, Renders, Pad, Indent, Cells, GapsFrom, SameText, LineStart;
    var s0 := st.(space := false, comma := false, top := 0, block := 0);
    KeywordLineSim(s0, p.(space := false, comma := false), ms, m2, v, kw, "");
    assert LineStart(s0) + Pad(kw) + "" == LineStart(s0) + Pad(kw);
  }

  lemma BeginSim(st: State, p: Probe, ms: seq<Mark>, m2: seq<Mark>, v: string, kw: string)
    requires Sim(st, p, ms) && Reads(m2, v, p.gap) && Renders(m2, Pad(kw)) && Solid(kw)
    ensures Sim(EmitBegin(st, kw), WriteLine(p, v).(comma := true), ms + m2)
  {
    hide Reads, Renders, Pad, Indent, Cells, GapsFrom, SameText, LineStart;
    var s0 := st.(space := false, comma := false, top := NonNegative(st.top - 1));
    KeywordLineSim(s0, p.(space := false, comma := false), ms, m2, v, kw, "");
    assert LineStart(s0) + Indent(s0) + Pad(kw) + "" == LineStart(s0) + Indent(s0) + Pad(kw);
  }

  lemma BlockEndSim(st: State, p: Probe, ms: seq<Mark>, m2: seq<Mark>, v: string, kw: string)
    requires Sim(st, p, ms) && Reads(m2, v, p.gap) && Renders(m2, Pad(kw)) && Solid(kw)
    ensures Sim(EmitBlockEnd(st, kw), WriteLine(p, v).(space := true), ms + m2)
  {
    hide Reads, Renders, Pad, Indent, Cells, GapsFrom, SameText, LineStart;
    var s0 := st.(block := NonNegative(st.block - 1), space := false, comma := false, top := NonNegative(st.top - 1));
    KeywordLineSim(s0, p.(space := false, comma := false), ms, m2, v, kw, "");
    assert "\n" + Indent(s0) + Pad(kw) + "" == "\n" + Indent(s0) + Pad(kw);
  }

  lemma DispatchSim(kind: KeywordKind, norm: string, st: State, p: Probe, ms: seq<Mark>, m2: seq<Mark>, v: string)
    requires Sim(st, p, ms) && Reads(m2, v, p.gap) && Renders(m2, norm) && Solid(norm)
    ensures Sim(Dispatch(kind, KeywordText(norm, st.uppercase), st), ProbeDispatch(kind, norm, v, p), ms + m2)
  {
    hide Sim, Reads, Renders, Pad, Cells, Solid, KeywordText, EmitClause, EmitJoinLike, EmitSetOp, EmitBegin,
      EmitBlockEnd, WriteLine, WriteWord, EmitWord, FlushComma, Broken, Upper;
    var kw := KeywordText(norm, st.uppercase);
    KeywordTextSolid(norm, st.uppercase);
    PaddedKeyword(norm, st.uppercase);
    KeywordTextCells(norm, st.uppercase);
    RendersCells(m2, norm, Pad(kw));
    RendersCells(m2, norm, kw);
    JoinLikeSim(st, p, ms, m2, v, kw);
    ClauseSim(st, p, ms, m2, v, kw);
    SetOpSim(st, p, ms, m2, v, kw);
    BeginSim(st, p, ms, m2, v, kw);
    BlockEndSim(st, p, ms, m2, v, kw);
    FlushSim(st, p, ms);
    BrokenGap(p);
    SolidEnds(kw);
    WordSim(FlushComma(st), Broken(p), ms, m2, v, kw);
  }

  lemma SolidEnds(u: string)
    requires Solid(u)
    ensures u != "" && !IsSpace(u[|u| - 1]) && !IsSpace(u[0])
  {
  }

  lemma BrokenGap(p: Probe)
    ensures Broken(p).gap == p.gap && Flushed(p).gap == p.gap
    ensures Broken(p).depth == p.depth && Flushed(p).depth == p.depth
  {
  }

  lemma KeywordSim(toks: Tokens, i: nat, bounds: set<nat>, st: State, p: Probe, ms: seq<Mark>)
    requires i < |toks| && IsKeyword(toks[i]) && AllWellFormed(toks)
    requires Sim(st, p, ms)
    ensures
      var own := toks[i..i + 1 + ResolveKeyword(toks, i).1];
      var q := ProbeKeyword(toks, i, bounds, p);
      && Sim(HandleKeyword(toks, i, bounds, st), q, ms + MarksList(own, p.gap))
      && q.gap == Trail(ValueList(own), p.gap)
      && q.depth == p.depth
  {
    hide Cells, GapsFrom, SameText, ResolveKeyword, KindAt, Nest, Dispatch, ProbeDispatch, Reads, Renders, Solid,
      MarksList, ValueList, Trail, KeywordText;
    var (norm, extra) := ResolveKeyword(toks, i);
    var own := toks[i..i + 1 + extra];
    var (kind, origins) := Nest(KindAt(toks, i, bounds), st.origins);
    var comma := if KeepsCommaBreak(kind) then st.comma else false;
    var s0 := st.(origins := origins, comma := comma);
    var q := p.(origins := origins, comma := comma);
    KeywordMarks(toks, i, p.gap);
    DispatchSim(kind, norm, s0, q, ms, MarksList(own, p.gap), ValueList(own));
    DispatchGap(kind, norm, ValueList(own), q);
  }

  lemma DispatchGap(kind: KeywordKind, norm: string, v: string, p: Probe)
    ensures ProbeDispatch(kind, norm, v, p).gap == Trail(v, p.gap)
    ensures ProbeDispatch(kind, norm, v, p).depth == p.depth
  {
    hide Trail, LastOf, Fuses, Upper, WriteLine, WriteWord, Broken;
    LineGap(p, v);
    WordGap(p, v);
  }

  lemma LineGap(p: Probe, v: string)
    ensures WriteLine(p, v).gap == Trail(v, p.gap) && WriteLine(p, v).depth == p.depth
  {
    hide Trail, LastOf, Fuses;
  }

  lemma WordGap(p: Probe, v: string)
    ensures WriteWord(Broken(p), v).gap == Trail(v, p.gap) && WriteWord(Broken(p), v).depth == p.depth
  {
    hide Trail, LastOf, Fuses;
  }

  // ---------------------------------------------------------------------
  // Inline lists
  // ---------------------------------------------------------------------

  lemma {:induction false} InlineRenders(kids: Tokens, g: bool, uppercase: bool)
    requires AllWellFormed(kids) && Alternating(kids, true)
    ensures Renders(MarksList(kids, g), Join(", ", CopyAll(Items(kids), uppercase)))
    ensures Items(kids) != [] && Solid(Join(", ", CopyAll(Items(kids), uppercase)))
    decreases |kids|
  {
    hide Renders, CopyText, Cells, Trail, Marks, Solid;
    var tok, h := kids[0], Trail(Value(kids[0]), g);
    if IsBlankLeaf(tok) {
      BlankMarks([tok], g);
      SingleMarks(tok, g);
      InlineRenders(kids[1..], h, uppercase);
      assert [] + MarksList(kids[1..], h) == MarksList(kids[1..], h);
    } else {
      NodeVisible(tok);
      MarksRead(tok, g);
      CopyTextCells(tok, uppercase);
      CopySolid(tok, uppercase);
      var first := CopyText(tok, uppercase);
      CopyRenders(Marks(tok, g), Value(tok), g, first);
      InlineRestRenders(kids[1..], h, Marks(tok, g), first, uppercase);
      assert Items(kids)[1..] == Items(kids[1..]);
      assert CopyAll(Items(kids), uppercase) == [first] + CopyAll(Items(kids[1..]), uppercase);
    }
  }

  lemma NodeVisible(node: Node)
    requires WellFormed(node) && !IsBlankLeaf(node)
    ensures !Blank(Value(node))
  {
    if node.Leaf? {
      assert !IsSpace(node.value[0]);
    }
  }

  lemma {:induction false} InlineRestRenders(kids: Tokens, g: bool, m1: seq<Mark>, first: string, uppercase: bool)
    requires AllWellFormed(kids) && Alternating(kids, false)
    requires Renders(m1, first) && Solid(first)
    ensures
      var line := Join(", ", [first] + CopyAll(Items(kids), uppercase));
      Renders(m1 + MarksList(kids, g), line) && Solid(line)
    decreases |kids|
  {
    hide Renders, CopyText, Cells, Trail, Marks, Join, Solid, WellFormed, CopyAll;
    if kids == [] {
      assert m1 + [] == m1;
      assert CopyAll([], uppercase) == [] by { NoCopies(uppercase); }
      assert [first] + [] == [first] && Join(", ", [first]) == first by { JoinOne(first); }
    } else {
      var tok, h := kids[0], Trail(Value(kids[0]), g);
      if IsBlankLeaf(tok) {
        BlankMarks([tok], g);
        SingleMarks(tok, g);
        InlineRestRenders(kids[1..], h, m1, first, uppercase);
        assert [] + MarksList(kids[1..], h) == MarksList(kids[1..], h);
      } else {
        var m2, rest := Marks(tok, g), CopyAll(Items(kids[1..]), uppercase);
        InlineRenders(kids[1..], h, uppercase);
        SomeCopies(Items(kids[1..]), uppercase);
        AfterComma(m1, first, tok, g, MarksList(kids[1..], h), Join(", ", rest));
        CommaLine(first, rest);
        assert Items(kids) == Items(kids[1..]);
        assert m1 + m2 + MarksList(kids[1..], h) == m1 + MarksList(kids, g);
      }
    }
  }

  lemma NoCopies(uppercase: bool)
    ensures CopyAll([], uppercase) == []
  {
  }

  lemma SomeCopies(items: Tokens, uppercase: bool)
    ensures items != [] ==> CopyAll(items, uppercase) != []
  {
    hide CopyText;
  }

  // A piece, a comma, a blank and another piece.
  lemma AfterComma(m1: seq<Mark>, first: string, comma: Node, g: bool, m2: seq<Mark>, rest: string)
    requires Renders(m1, first) && Solid(first) && IsPunct(comma, ",") && Renders(m2, rest) && Solid(rest)
    ensures Renders(m1 + Marks(comma, g) + m2, first + "," + " " + rest) && Solid(first + "," + " " + rest)
  {
    hide Renders, Marks;
    CommaMark(comma, g);
    DelimitedRenders(m1, first, Marks(comma, g));
    OneBlank();
    SpacedRenders(m1 + Marks(comma, g), first + ",", m2, rest, " ");
  }

  lemma JoinOne(x: string)
    ensures Join(", ", [x]) == x
  {
  }

  lemma CommaMark(tok: Node, g: bool)
    requires IsPunct(tok, ",")
    ensures Marks(tok, g) == [Mark(',', g, true)]
  {
    assert tok.value[1..] == "";
  }

  lemma CommaLine(first: string, rest: seq<string>)
    requires rest != []
    ensures Join(", ", [first] + rest) == first + "," + " " + Join(", ", rest)
  {
    assert ([first] + rest)[1..] == rest;
    assert first + ", " == first + "," + " ";
  }

  // ---------------------------------------------------------------------
  // The recursion
  // ---------------------------------------------------------------------

  // From the probe p, after the marks ms, the tokens toks lead to st' and p'.
  predicate Tracks(st': State, p': Probe, p: Probe, ms: seq<Mark>, toks: Tokens) {
    && Sim(st', p', ms + MarksList(toks, p.gap))
    && p'.gap == Trail(ValueList(toks), p.gap)
    && p'.depth == p.depth
  }

  lemma TracksThen(st1: State, p1: Probe, st2: State, p2: Probe, p: Probe, ms: seq<Mark>, a: Tokens, b: Tokens)
    requires Tracks(st1, p1, p, ms, a)
    requires Tracks(st2, p2, p1, ms + MarksList(a, p.gap), b)
    ensures Tracks(st2, p2, p, ms, a + b)
  {
    hide Sim, Trail, MarksList, ValueList;
    MarksListAppend(a, b, p.gap);
    ValueListAppend(a, b);
    TrailAppend(ValueList(a), ValueList(b), p.gap);
    assert ms + MarksList(a, p.gap) + MarksList(b, p1.gap) == ms + (MarksList(a, p.gap) + MarksList(b, p1.gap));
  }

  lemma TracksOne(st': State, p': Probe, p: Probe, ms: seq<Mark>, tok: Node)
    requires Sim(st', p', ms + Marks(tok, p.gap)) && p'.gap == Trail(Value(tok), p.gap) && p'.depth == p.depth
    ensures Tracks(st', p', p, ms, [tok])
  {
    SingleMarks(tok, p.gap);
  }

  lemma TracksNone(st: State, p: Probe, ms: seq<Mark>)
    requires Sim(st, p, ms)
    ensures Tracks(st, p, p, ms, [])
  {
    assert ms + [] == ms;
  }

  lemma WordTracks(st: State, p: Probe, ms: seq<Mark>, tok: Node, u: string)
    requires Sim(st, p, ms) && WellFormed(tok) && !IsBlankLeaf(tok)
    requires Solid(u) && Cells(u, true) == Cells(Value(tok), true)
    ensures Tracks(EmitWord(st, u), WriteWord(p, Value(tok)), p, ms, [tok])
  {
    hide Sim, Reads, Renders, Cells, EmitWord, Marks;
    NodeVisible(tok);
    MarksRead(tok, p.gap);
    CopyRenders(Marks(tok, p.gap), Value(tok), p.gap, u);
    WordSim(st, p, ms, Marks(tok, p.gap), Value(tok), u);
    TracksOne(EmitWord(st, u), WriteWord(p, Value(tok)), p, ms, tok);
  }

  lemma CopyTracks(st: State, p: Probe, ms: seq<Mark>, tok: Node)
    requires Sim(st, p, ms) && WellFormed(tok) && !IsBlankLeaf(tok)
    ensures Tracks(EmitWord(st, CopyText(tok, st.uppercase)), WriteWord(p, Value(tok)), p, ms, [tok])
  {
    hide Sim, Cells, EmitWord, CopyText, Solid, Tracks;
    NodeVisible(tok);
    CopyTextCells(tok, st.uppercase);
    CopySolid(tok, st.uppercase);
    WordTracks(st, p, ms, tok, CopyText(tok, st.uppercase));
  }

  lemma LeafTracks(st: State, p: Probe, ms: seq<Mark>, tok: Node)
    requires Sim(st, p, ms) && WellFormed(tok) && tok.Leaf? && !IsBlankLeaf(tok)
    ensures Tracks(EmitWord(st, tok.value), WriteWord(p, tok.value), p, ms, [tok])
    ensures Tracks(EmitWord(st, Upper(tok.value)), WriteWord(p, tok.value), p, ms, [tok])
  {
    hide Sim, Cells, EmitWord, Tracks;
    UpperCells(tok.value, true);
    UpperBlank(tok.value);
    WordTracks(st, p, ms, tok, tok.value);
    WordTracks(st, p, ms, tok, Upper(tok.value));
  }

  lemma BlankTracks(st: State, p: Probe, ms: seq<Mark>, tok: Node)
    requires Sim(st, p, ms) && WellFormed(tok) && Blank(Value(tok))
    ensures Tracks(st, Skipped(p, Value(tok)), p, ms, [tok])
  {
    hide Sim, Cells, Blank, Reads, Marks;
    MarksRead(tok, p.gap);
    BlankCells(Value(tok), p.gap);
    assert Marks(tok, p.gap) == [] by { EmptyReads(Marks(tok, p.gap), Value(tok), p.gap); }
    assert ms + [] == ms;
    GapIrrelevant(st, p, Skipped(p, Value(tok)), ms);
    TracksOne(st, Skipped(p, Value(tok)), p, ms, tok);
  }

  lemma EmptyReads(ms: seq<Mark>, v: string, g: bool)
    requires Reads(ms, v, g) && Cells(v, g) == []
    ensures ms == []
  {
  }

  lemma GapIrrelevant(st: State, p: Probe, p': Probe, ms: seq<Mark>)
    requires Sim(st, p, ms) && p' == p.(gap := p'.gap)
    ensures Sim(st, p', ms)
  {
  }

  lemma SolidPunct(u: string)
    requires u == "," || u == ";"
    ensures Solid(u)
  {
  }

  lemma PunctTracks(tok: Node, st: State, p: Probe, ms: seq<Mark>)
    requires Sim(st, p, ms) && (IsPunct(tok, ",") || IsPunct(tok, ";"))
    ensures Tracks(HandlePunct(tok, st), Write(p, tok.value).(comma := true), p, ms, [tok])
  {
    hide Sim, Marks, Reads, Renders, Normalize, Solid, Write, Emit;
    LeafRenders(tok, p.gap);
    SolidPunct(tok.value);
    SolidEnds(tok.value);
    var s0 := if tok.value == "," then st.(space := false) else st.(space := false, top := 0);
    FlagsDropped(st, s0, p, ms);
    EmitSim(s0, p.(space := false), ms, Marks(tok, p.gap), tok.value, tok.value);
    WriteIgnoresSpace(p, tok.value);
    CommaSet(Emit(s0, tok.value), Write(p, tok.value), ms + Marks(tok, p.gap));
    TracksOne(HandlePunct(tok, st), Write(p, tok.value).(comma := true), p, ms, tok);
  }

  lemma FlagsDropped(st: State, s0: State, p: Probe, ms: seq<Mark>)
    requires Sim(st, p, ms) && s0 == st.(space := false, top := s0.top)
    ensures Sim(s0, p.(space := false), ms)
  {
    hide Cells, GapsFrom, SameText, Trail;
  }

  lemma CommaSet(st: State, p: Probe, ms: seq<Mark>)
    requires Sim(st, p, ms)
    ensures Sim(st.(comma := true), p.(comma := true), ms)
  {
    hide Cells, GapsFrom, SameText, Trail;
  }

  lemma {:induction false} ListSim(toks: Tokens, st: State, p: Probe, ms: seq<Mark>)
    requires Sim(st, p, ms) && AllWellFormed(toks) && DroplessList(toks, p.depth)
    ensures Tracks(RenderList(toks, st), ProbeList(toks, p), p, ms, toks)
    decreases SizeList(toks), 3, 0
  {
    hide Sim, Tracks;
    assert toks[0..] == toks;
    FromSim(toks, 0, BetweenAnds(toks), st, p, ms);
  }

  lemma {:induction false} DroplessSuffix(toks: Tokens, i: nat, j: nat, depth: int)
    requires i <= j <= |toks| && DroplessList(toks[i..], depth)
    ensures DroplessList(toks[j..], depth)
    decreases j - i
  {
    hide Dropless;
    if i < j {
      assert toks[i..][1..] == toks[i + 1..];
      DroplessSuffix(toks, i + 1, j, depth);
    }
  }

  lemma {:induction false} FromSim(toks: Tokens, i: nat, bounds: set<nat>, st: State, p: Probe, ms: seq<Mark>)
    requires i <= |toks| && AllWellFormed(toks) && Sim(st, p, ms) && DroplessList(toks[i..], p.depth)
    ensures Tracks(RenderFrom(toks, i, bounds, st), ProbeFrom(toks, i, bounds, p), p, ms, toks[i..])
    decreases SizeList(toks), 2, |toks| - i
  {
    hide Sim, Tracks, HandleKeyword, ProbeKeyword, HandlePunct, RenderGroup, ProbeGroup, ResolveKeyword, FlushComma,
      Broken, EmitWord, WriteWord, Write, Skipped, MarksList, ValueList, Blank, Dropless, Trail, Marks, Value;
    if i == |toks| {
      TracksNone(st, p, ms);
    } else {
      var tok := toks[i];
      assert DroplessList(toks[i..], p.depth) ==> Dropless(toks[i..][0], p.depth);
      var next := if IsKeyword(tok) then i + 1 + ResolveKeyword(toks, i).1 else i + 1;
      var st1 := if IsBlankLeaf(tok) then st
                 else if IsPunct(tok, ",") || IsPunct(tok, ";") then HandlePunct(tok, st)
                 else if IsKeyword(tok) then HandleKeyword(toks, i, bounds, st)
                 else if tok.Group? then RenderGroup(tok, FlushComma(st))
                 else EmitWord(FlushComma(st), tok.value);
      var p1 := if IsBlankLeaf(tok) then Skipped(p, tok.value)
                else if IsPunct(tok, ",") || IsPunct(tok, ";") then Write(p, tok.value).(comma := true)
                else if IsKeyword(tok) then ProbeKeyword(toks, i, bounds, p)
                else if tok.Group? then ProbeGroup(tok, Broken(p))
                else WriteWord(Broken(p), tok.value);
      if IsKeyword(tok) {
        KeywordSim(toks, i, bounds, st, p, ms);
        assert Tracks(st1, p1, p, ms, toks[i..next]) by {
          KeywordTracks(toks, i, next, st1, p1, p, ms);
        }
      } else {
        assert toks[i..next] == [tok];
        FlushSim(st, p, ms);
        BrokenGap(p);
        if IsBlankLeaf(tok) {
          BlankLeafTracks(st, p, ms, tok);
        } else if IsPunct(tok, ",") || IsPunct(tok, ";") {
          PunctTracks(tok, st, p, ms);
        } else if tok.Group? {
          SizeMember(toks, i);
          GroupSim(tok, FlushComma(st), Broken(p), ms);
          SameStart(st1, p1, Broken(p), p, ms, tok);
        } else {
          LeafTracks(FlushComma(st), Broken(p), ms, tok);
          SameStart(st1, p1, Broken(p), p, ms, tok);
        }
      }
      TracksSim(st1, p1, p, ms, toks[i..next]);
      DroplessSuffix(toks, i, next, p.depth);
      FromSim(toks, next, bounds, st1, p1, ms + MarksList(toks[i..next], p.gap));
      TracksThen(st1, p1, RenderFrom(toks, next, bounds, st1), ProbeFrom(toks, next, bounds, p1), p, ms, toks[i..next],
        toks[next..]);
      assert toks[i..next] + toks[next..] == toks[i..];
    }
  }

  lemma BlankLeafTracks(st: State, p: Probe, ms: seq<Mark>, tok: Node)
    requires Sim(st, p, ms) && WellFormed(tok) && IsBlankLeaf(tok)
    ensures Tracks(st, Skipped(p, tok.value), p, ms, [tok])
  {
    BlankTracks(st, p, ms, tok);
  }

  lemma KeywordTracks(toks: Tokens, i: nat, next: nat, st1: State, p1: Probe, p: Probe, ms: seq<Mark>)
    requires i < next <= |toks|
    requires Sim(st1, p1, ms + MarksList(toks[i..next], p.gap)) && p1.gap == Trail(ValueList(toks[i..next]), p.gap) &&
      p1.depth == p.depth
    ensures Tracks(st1, p1, p, ms, toks[i..next])
  {
  }

  lemma TracksSim(st1: State, p1: Probe, p: Probe, ms: seq<Mark>, toks: Tokens)
    requires Tracks(st1, p1, p, ms, toks)
    ensures Sim(st1, p1, ms + MarksList(toks, p.gap)) && p1.depth == p.depth && p1.gap == Trail(ValueList(toks), p.gap)
  {
  }

  lemma SameStart(st1: State, p1: Probe, q: Probe, p: Probe, ms: seq<Mark>, tok: Node)
    requires Tracks(st1, p1, q, ms, [tok]) && q.gap == p.gap && q.depth == p.depth
    ensures Tracks(st1, p1, p, ms, [tok])
  {
  }

  lemma {:induction false} GroupSim(node: Node, st: State, p: Probe, ms: seq<Mark>)
    requires node.Group? && WellFormed(node) && Sim(st, p, ms) && Dropless(node, p.depth)
    ensures Tracks(RenderGroup(node, st), ProbeGroup(node, p), p, ms, [node])
    decreases Size(node), 1, 0
  {
    hide Sim, Tracks, CopyText, EmitWord, WriteWord, Cells, Indent, Blank, RenderList, ProbeList, RenderParens,
      ProbeParens, RenderComparison, ProbeComparison, RenderCaseFrom, ProbeCase;
    CopyTracks(st, p, ms, node);
    SimFields(st, p, ms);
    match node.group
    case CaseExpr =>
      CaseIndentBlank(st);
      assert node.kids[0..] == node.kids;
      CaseSim(node.kids, 0, st, p, ms, Indent(st), true);
      WholeGroup(RenderCaseFrom(node.kids, 0, st, Indent(st), true), ProbeCase(node.kids, 0, p, true), p, ms, node);
    case Parens => ParensSim(node, st, p, ms);
    case IdList =>
      if st.clause in {"GROUP BY", "ORDER BY"} && IsSimpleList(node.kids) {
        InlineTracks(node, st, p, ms);
      } else {
        ListSim(node.kids, st, p, ms);
        WholeGroup(RenderList(node.kids, st), ProbeList(node.kids, p), p, ms, node);
      }
    case Ident =>
      if IdentNeedsRecursion(node.kids) {
        ListSim(node.kids, st, p, ms);
        WholeGroup(RenderList(node.kids, st), ProbeList(node.kids, p), p, ms, node);
      }
    case Compare =>
      if ContainsSubquery(node.kids) { ComparisonSim(node, st, p, ms); }
    case FuncCall =>
    case Container =>
      ListSim(node.kids, st, p, ms);
      WholeGroup(RenderList(node.kids, st), ProbeList(node.kids, p), p, ms, node);
  }

  lemma SimFields(st: State, p: Probe, ms: seq<Mark>)
    requires Sim(st, p, ms)
    ensures p.clause == st.clause && p.depth == st.depth
  {
  }

  lemma WholeGroup(st': State, p': Probe, p: Probe, ms: seq<Mark>, node: Node)
    requires node.Group? && Tracks(st', p', p, ms, node.kids)
    ensures Tracks(st', p', p, ms, [node])
  {
    hide Sim, Trail, MarksList, ValueList;
    assert Marks(node, p.gap) == MarksList(node.kids, p.gap);
    TracksOne(st', p', p, ms, node);
  }

  lemma InlineTracks(node: Node, st: State, p: Probe, ms: seq<Mark>)
    requires node.Group? && node.group.IdList? && WellFormed(node) && Sim(st, p, ms)
    ensures Tracks(EmitWord(st, Join(", ", CopyAll(Items(node.kids), st.uppercase))), WriteWord(p, Value(node)), p, ms,
      [node])
  {
    hide Sim, Reads, Renders, Cells, EmitWord, MarksList, Join, CopyAll;
    var u := Join(", ", CopyAll(Items(node.kids), st.uppercase));
    InlineRenders(node.kids, p.gap, st.uppercase);
    MarksListRead(node.kids, p.gap);
    assert Marks(node, p.gap) == MarksList(node.kids, p.gap);
    WordSim(st, p, ms, Marks(node, p.gap), Value(node), u);
    TracksOne(EmitWord(st, u), WriteWord(p, Value(node)), p, ms, node);
  }

  lemma {:induction false} ParensSim(node: Node, st: State, p: Probe, ms: seq<Mark>)
    requires node.Group? && node.group.Parens? && WellFormed(node) && Sim(st, p, ms) && Dropless(node, p.depth)
    ensures Tracks(RenderParens(node, st), ProbeParens(node, p), p, ms, [node])
    decreases Size(node), 0, 0
  {
    hide Sim, Tracks, EmitWord, WriteWord, ParenText, HasSelect, RenderList, ProbeList, Inner, EnterSubquery,
      LeaveSubquery, Cells, Solid, Flushed, Write, WriteLine, MarksList;
    SimFields(st, p, ms);
    if !HasSelect(node.kids, SELECT_DEPTH) || st.depth >= MAX_DEPTH {
      ParenTextCells(node, st.uppercase);
      ParenSolid(node, st.uppercase);
      WordTracks(st, p, ms, node, ParenText(node, st.uppercase));
      WordTracks(st, p, ms, node, Value(node));
    } else {
      var inner := Inner(node.kids);
      InnerOfPaired(node.kids);
      var open, close := node.kids[0], node.kids[|node.kids| - 1];
      var s0, p0 := EnterSubquery(st), Write(Flushed(p), "(").(depth := p.depth + 1);
      EnterSim(st, p, ms, open);
      var m1 := ms + MarksList([open], p.gap);
      ListSim(inner, s0, p0, m1);
      var s1, q := RenderList(inner, s0), ProbeList(inner, p0);
      TracksSim(s1, q, p0, m1, inner);
      LeaveSim(st, s1, q, m1 + MarksList(inner, p0.gap), close);
      SubqueryTracks(node, LeaveSubquery(st, s1), WriteLine(q, ")").(comma := q.comma, space := true,
        depth := q.depth - 1), p, p0, q, ms);
    }
  }

  lemma EnterSim(st: State, p: Probe, ms: seq<Mark>, open: Node)
    requires Sim(st, p, ms) && IsPunct(open, "(")
    ensures
      var p0 := Write(Flushed(p), "(").(depth := p.depth + 1);
      && Sim(EnterSubquery(st), p0, ms + MarksList([open], p.gap))
      && p0.gap == Trail(ValueList([open]), p.gap)
  {
    hide Cells, GapsFrom, SameText, Marks, Reads, Renders, LastOf, FlushSpace, Flushed;
    FlushSim(st, p, ms);
    BrokenGap(p);
    assert WellFormed(open);
    LeafRenders(open, p.gap);
    SingleMarks(open, p.gap);
    EmitSim(FlushSpace(st), Flushed(p), ms, Marks(open, p.gap), "(", "(");
  }

  lemma LeaveSim(outer: State, st: State, p: Probe, ms: seq<Mark>, close: Node)
    requires Sim(st, p, ms) && IsPunct(close, ")")
    ensures Sim(LeaveSubquery(outer, st), WriteLine(p, ")").(comma := p.comma, space := true, depth := p.depth - 1),
      ms + MarksList([close], p.gap))
    ensures WriteLine(p, ")").gap == Trail(ValueList([close]), p.gap)
  {
    hide Cells, GapsFrom, SameText, Marks, Reads, Renders, LastOf, Indent, Blank, MarksList, ValueList, Trail;
    CloseGap(p, close);
    assert WellFormed(close);
    LeafRenders(close, p.gap);
    SingleMarks(close, p.gap);
    IndentIsBlank(outer);
    OneBlank();
    var lead := "\n" + Indent(outer);
    LineSim(st, p, ms, Marks(close, p.gap), ")", lead, ")", "");
    assert lead + ")" + "" == lead + ")";
  }

  lemma CloseGap(p: Probe, close: Node)
    requires IsPunct(close, ")")
    ensures WriteLine(p, ")").gap == Trail(ValueList([close]), p.gap)
  {
    hide LastOf, Fuses;
    assert [close][1..] == [];
  }

  lemma SubqueryTracks(node: Node, st': State, p': Probe, p: Probe, p0: Probe, q: Probe, ms: seq<Mark>)
    requires node.Group? && Paired(node.kids)
    requires
      var inner, open, close := Inner(node.kids), node.kids[0], node.kids[|node.kids| - 1];
      && p0.gap == Trail(ValueList([open]), p.gap) && q.gap == Trail(ValueList(inner), p0.gap)
      && Sim(st', p', ms + MarksList([open], p.gap) + MarksList(inner, p0.gap) + MarksList([close], q.gap))
      && p'.gap == Trail(ValueList([close]), q.gap) && p'.depth == p.depth
    ensures Tracks(st', p', p, ms, [node])
  {
    hide Sim, Trail, MarksList, ValueList, Inner;
    var inner, open, close := Inner(node.kids), node.kids[0], node.kids[|node.kids| - 1];
    InnerOfPaired(node.kids);
    assert node.kids == [open] + (inner + [close]);
    MarksListAppend([open], inner + [close], p.gap);
    MarksListAppend(inner, [close], p0.gap);
    ValueListAppend([open], inner + [close]);
    ValueListAppend(inner, [close]);
    TrailAppend(ValueList([open]), ValueList(inner) + ValueList([close]), p.gap);
    TrailAppend(ValueList(inner), ValueList([close]), p0.gap);
    assert Tracks(st', p', p, ms, node.kids) by {
      assert ms + MarksList([open], p.gap) + MarksList(inner, p0.gap) + MarksList([close], q.gap)
          == ms + (MarksList([open], p.gap) + (MarksList(inner, p0.gap) + MarksList([close], q.gap)));
    }
    WholeGroup(st', p', p, ms, node);
  }

  lemma {:induction false} CaseSim(kids: Tokens, i: nat, st: State, p: Probe, ms: seq<Mark>, base: string,
      firstWhen: bool)
    requires i <= |kids| && AllWellFormed(kids) && Blank(base) && Sim(st, p, ms) && DroplessCase(kids[i..], p.depth)
    ensures Tracks(RenderCaseFrom(kids, i, st, base, firstWhen), ProbeCase(kids, i, p, firstWhen), p, ms, kids[i..])
    decreases SizeList(kids), 2, |kids| - i
  {
    hide Sim, Tracks, EmitWhen, EmitCaseLeaf, RenderCaseGroup, ProbeWhen, ProbeCaseLeaf, ProbeCaseGroup, Normalize,
      Blank, MarksList, ValueList, DroplessInCase, Trail;
    if i == |kids| {
      TracksNone(st, p, ms);
    } else {
      var tok := kids[i];
      assert kids[i..][1..] == kids[i + 1..] && kids[i..][0] == tok;
      var isWhen := IsKeyword(tok) && Normalize(tok.value) == "WHEN";
      var st1 := if isWhen then EmitWhen(tok, st, base, firstWhen)
                 else if tok.Leaf? then EmitCaseLeaf(tok, st, base)
                 else RenderCaseGroup(tok, st);
      var p1 := if isWhen then ProbeWhen(tok, p, firstWhen)
                else if tok.Leaf? then ProbeCaseLeaf(tok, p)
                else ProbeCaseGroup(tok, p);
      var first1 := if isWhen then false else firstWhen;
      if isWhen {
        WhenTracks(tok, st, p, ms, base, firstWhen);
      } else if tok.Leaf? {
        CaseLeafTracks(tok, st, p, ms, base);
      } else {
        SizeMember(kids, i);
        CaseGroupSim(tok, st, p, ms);
      }
      TracksSim(st1, p1, p, ms, [tok]);
      CaseSim(kids, i + 1, st1, p1, ms + MarksList([tok], p.gap), base, first1);
      TracksThen(st1, p1, RenderCaseFrom(kids, i + 1, st1, base, first1), ProbeCase(kids, i + 1, p1, first1), p, ms,
        [tok], kids[i + 1..]);
      assert [tok] + kids[i + 1..] == kids[i..];
    }
  }

  // A keyword of a CASE expression, framed by whitespace.
  lemma CaseKeywordRenders(tok: Node, st: State, g: bool)
    requires IsKeyword(tok) && WellFormed(tok)
    ensures
      var kw := CaseKeyword(tok, st);
      Renders(Marks(tok, g), kw) && Reads(Marks(tok, g), tok.value, g) && Solid(kw)
  {
    hide Cells, Marks, Reads, Renders;
    LeafRenders(tok, g);
    UpperCells(tok.value, true);
    UpperBlank(tok.value);
    RendersCells(Marks(tok, g), tok.value, CaseKeyword(tok, st));
  }

  lemma CaseKeywordSim(tok: Node, st: State, p: Probe, ms: seq<Mark>, lead: string, post: string)
    requires Sim(st, p, ms) && IsKeyword(tok) && WellFormed(tok)
    requires Blank(lead) && lead != "" && (post == "" || post == " ")
    ensures
      var kw := CaseKeyword(tok, st);
      && Sim(Emit(st, lead + kw + post), Write(p.(loose := true), tok.value).(loose := post != ""),
        ms + Marks(tok, p.gap))
      && Sim(Emit(st, kw + " "), Write(p, tok.value).(loose := true), ms + Marks(tok, p.gap))
      && Solid(kw)
  {
    hide Sim, Cells, Marks, Reads, Renders, Blank, LastOf, Canon, Solid, CaseKeyword, Fuses, Trail;
    var kw := CaseKeyword(tok, st);
    CaseKeywordRenders(tok, st, p.gap);
    SolidEnds(kw);
    OneBlank();
    LineSim(st, p, ms, Marks(tok, p.gap), tok.value, lead, kw, post);
    EmitSim(st, p, ms, Marks(tok, p.gap), tok.value, kw);
    BlankSim(Emit(st, kw), Write(p, tok.value), ms + Marks(tok, p.gap), " ");
    assert st.text + kw + " " == st.text + (kw + " ");
  }

  lemma WhenTracks(tok: Node, st: State, p: Probe, ms: seq<Mark>, base: string, firstWhen: bool)
    requires Sim(st, p, ms) && IsKeyword(tok) && WellFormed(tok) && Blank(base)
    ensures Tracks(EmitWhen(tok, st, base, firstWhen), ProbeWhen(tok, p, firstWhen), p, ms, [tok])
  {
    hide Cells, GapsFrom, SameText, Marks, Blank, Solid, LastOf, Fuses, CaseKeyword, Tracks, Write;
    var s0, q := st.(space := false), p.(space := false);
    WideIsBlank(base);
    WriteIgnoresSpace(p, tok.value);
    WriteIgnoresSpace(p.(loose := true), tok.value);
    CaseKeywordSim(tok, s0, q, ms, "\n" + base + Spaces(5), " ");
    SameKeyword(tok, st);
    TracksOne(EmitWhen(tok, st, base, firstWhen), ProbeWhen(tok, p, firstWhen), p, ms, tok);
  }

  lemma SameKeyword(tok: Node, st: State)
    requires tok.Leaf?
    ensures CaseKeyword(tok, st.(space := false)) == CaseKeyword(tok, st)
    ensures CaseKeyword(tok, FlushSpace(st)) == CaseKeyword(tok, st)
  {
  }

  lemma WideIsBlank(base: string)
    requires Blank(base)
    ensures Blank("\n" + base + Spaces(5)) && Blank("\n" + base)
  {
  }

  lemma CaseLeafTracks(tok: Node, st: State, p: Probe, ms: seq<Mark>, base: string)
    requires Sim(st, p, ms) && tok.Leaf? && WellFormed(tok) && Blank(base)
    ensures Tracks(EmitCaseLeaf(tok, st, base), ProbeCaseLeaf(tok, p), p, ms, [tok])
  {
    hide Sim, Blank, Solid, Fuses, LastOf, Tracks, EmitWord, WriteWord, Normalize, Marks, FlushSpace, Flushed,
      CaseKeyword;
    if IsBlankLeaf(tok) {
      BlankLeafTracks(st, p, ms, tok);
    } else {
      LeafTracks(st, p, ms, tok);
      if IsKeyword(tok) {
        CaseWordTracks(tok, st, p, ms, base);
        KeywordCase(tok, st);
      }
    }
  }

  lemma KeywordCase(tok: Node, st: State)
    requires tok.Leaf?
    ensures CaseKeyword(tok, st) == tok.value || CaseKeyword(tok, st) == Upper(tok.value)
  {
  }

  lemma WriteIgnoresSpace(p: Probe, v: string)
    ensures Write(p.(space := false), v) == Write(p, v)
    ensures Write(p, v).gap == Trail(v, p.gap) && Write(p, v).depth == p.depth
  {
    hide Cells, Canon, Trail;
  }

  lemma CaseWordTracks(tok: Node, st: State, p: Probe, ms: seq<Mark>, base: string)
    requires Sim(st, p, ms) && IsKeyword(tok) && WellFormed(tok) && Blank(base)
    ensures
      var kw := CaseKeyword(tok, st);
      && Tracks(Emit(FlushSpace(st), kw + " "), Write(Flushed(p), tok.value).(loose := true), p, ms, [tok])
      && Tracks(Emit(st.(space := false), " " + kw + " "), Write(p.(loose := true), tok.value).(loose := true), p, ms,
        [tok])
      && Tracks(Emit(st.(space := false), "\n" + base + Spaces(5) + kw + " "),
        Write(p.(loose := true), tok.value).(loose := true), p, ms, [tok])
      && Tracks(WithSpace(Emit(st.(space := false), "\n" + base + kw)),
        Write(p.(loose := true), tok.value).(space := true), p, ms, [tok])
  {
    hide Sim, Blank, Solid, Tracks, Marks, FlushSpace, Flushed, CaseKeyword, Write, Emit;
    var kw := CaseKeyword(tok, st);
    SameKeyword(tok, st);
    WideIsBlank(base);
    OneBlank();
    FlushSim(st, p, ms);
    BrokenGap(p);
    CaseKeywordSim(tok, FlushSpace(st), Flushed(p), ms, " ", " ");
    WriteIgnoresSpace(Flushed(p), tok.value);
    TracksOne(Emit(FlushSpace(st), kw + " "), Write(Flushed(p), tok.value).(loose := true), p, ms, tok);
    FramedTracks(tok, st, p, ms, " ");
    FramedTracks(tok, st, p, ms, "\n" + base + Spaces(5));
    FramedTracks(tok, st, p, ms, "\n" + base);
  }

  lemma FramedTracks(tok: Node, st: State, p: Probe, ms: seq<Mark>, lead: string)
    requires Sim(st, p, ms) && IsKeyword(tok) && WellFormed(tok) && Blank(lead) && lead != ""
    ensures
      var kw := CaseKeyword(tok, st);
      && Tracks(Emit(st.(space := false), lead + kw + " "), Write(p.(loose := true), tok.value).(loose := true), p, ms,
        [tok])
      && Tracks(WithSpace(Emit(st.(space := false), lead + kw)), Write(p.(loose := true), tok.value).(space := true), p,
        ms, [tok])
  {
    hide Cells, GapsFrom, SameText, Blank, Solid, Tracks, Marks, CaseKeyword, Write;
    var kw := CaseKeyword(tok, st);
    var s0, q := st.(space := false), p.(space := false);
    SameKeyword(tok, st);
    WriteIgnoresSpace(p.(loose := true), tok.value);
    CaseKeywordSim(tok, s0, q, ms, lead, " ");
    TracksOne(Emit(s0, lead + kw + " "), Write(p.(loose := true), tok.value).(loose := true), p, ms, tok);
    CaseKeywordSim(tok, s0, q, ms, lead, "");
    assert lead + kw + "" == lead + kw;
    EmitNotLoose(p, tok.value);
    TracksOne(WithSpace(Emit(s0, lead + kw)), Write(p.(loose := true), tok.value).(space := true), p, ms, tok);
  }

  lemma EmitNotLoose(p: Probe, v: string)
    ensures !Write(p.(loose := true), v).loose
  {
  }

  lemma {:induction false} CaseGroupSim(tok: Node, st: State, p: Probe, ms: seq<Mark>)
    requires tok.Group? && WellFormed(tok) && Sim(st, p, ms) && DroplessInCase(tok, p.depth)
    ensures Tracks(RenderCaseGroup(tok, st), ProbeCaseGroup(tok, p), p, ms, [tok])
    decreases Size(tok), 2, 0
  {
    hide Sim, Tracks, EmitWord, WriteWord, CopyText, FlushSpace, Flushed, Cells, RenderGroup, ProbeGroup,
      RenderComparison, ProbeComparison;
    if IsSubqueryComparison(tok) {
      ComparisonSim(tok, st, p, ms);
    } else if tok.group.Ident? || tok.group.Compare? {
      CopyTracks(st, p, ms, tok);
    } else {
      FlushSim(st, p, ms);
      BrokenGap(p);
      GroupSim(tok, FlushSpace(st), Flushed(p), ms);
      SameStart(RenderGroup(tok, FlushSpace(st)), ProbeGroup(tok, Flushed(p)), Flushed(p), p, ms, tok);
    }
  }

  // ---------------------------------------------------------------------
  // Comparisons with a subquery laid out on its own lines
  // ---------------------------------------------------------------------

  lemma {:induction false} OperandsSim(toks: Tokens, st: State, p: Probe, ms: seq<Mark>)
    requires AllWellFormed(toks) && OperandsOnly(toks) && Sim(st, p, ms)
    ensures Tracks(EmitComparisonLeft(toks, st), ProbeOperands(toks, p), p, ms, toks)
  {
    hide Sim, Tracks, Blank, EmitWord, WriteWord, CopyText, Skipped, MarksList, ValueList, Value;
    if toks == [] {
      TracksNone(st, p, ms);
    } else {
      var tok := toks[0];
      var v := Value(tok);
      var st1 := EmitOperand(tok, st);
      var p1 := if IsBlankLeaf(tok) || !IsOperand(tok) then Skipped(p, v) else WriteWord(p, v);
      if IsBlankLeaf(tok) || !IsOperand(tok) {
        BlankOperand(tok);
        BlankTracks(st, p, ms, tok);
      } else if tok.Leaf? {
        LeafValue(tok);
        LeafTracks(st, p, ms, tok);
      } else {
        CopyTracks(st, p, ms, tok);
      }
      TracksSim(st1, p1, p, ms, [tok]);
      OperandsSim(toks[1..], st1, p1, ms + MarksList([tok], p.gap));
      TracksThen(st1, p1, EmitComparisonLeft(toks[1..], st1), ProbeOperands(toks[1..], p1), p, ms, [tok], toks[1..]);
      assert [tok] + toks[1..] == toks;
    }
  }

  lemma BlankOperand(tok: Node)
    requires WellFormed(tok) && (IsBlankLeaf(tok) || Blank(Value(tok)) || IsOperand(tok)) &&
      (IsBlankLeaf(tok) || !IsOperand(tok))
    ensures Blank(Value(tok))
  {
  }

  lemma LeafValue(tok: Node)
    requires tok.Leaf?
    ensures Value(tok) == tok.value
  {
  }

  // The lines after the first, each on a line of its own, indented.
  function Indented(lines: seq<string>, column: nat): string {
    if lines == [] then "" else "\n" + Spaces(column) + lines[0] + Indented(lines[1..], column)
  }

  lemma {:induction false} IndentedText(st: State, lines: seq<string>, column: nat)
    ensures
      var st' := EmitLines(st, lines, column);
      && st'.text == st.text + Indented(lines, column)
      && st' == st.(text := st'.text, hasContent := st'.hasContent, space := st'.space)
    decreases |lines|
  {
    if lines != [] {
      IndentedText(Emit(st, "\n" + Spaces(column) + lines[0]), lines[1..], column);
    }
  }

  lemma {:induction false} IndentedCells(lines: seq<string>, column: nat, g: bool)
    requires lines != []
    ensures Cells(Indented(lines, column), g) == Cells("\n" + Join("\n", lines), g)
  {
    hide Cells;
    var lead := "\n" + Spaces(column);
    var rest := Indented(lines[1..], column);
    LeadCells(lead, lines[0] + rest, g);
    assert Indented(lines, column) == lead + (lines[0] + rest);
    LeadCells("\n", Join("\n", lines), g);
    CellsAppend(lines[0], rest, true);
    if |lines| == 1 {
      assert rest == "" && lines[0] + "" == lines[0];
    } else {
      IndentedCells(lines[1..], column, Trail(lines[0], true));
      CellsAppend(lines[0], "\n" + Join("\n", lines[1..]), true);
      assert Join("\n", lines) == lines[0] + ("\n" + Join("\n", lines[1..]));
    }
  }

  lemma LeadCells(lead: string, t: string, g: bool)
    requires Blank(lead) && lead != ""
    ensures Cells(lead + t, g) == Cells(t, true)
  {
    hide Cells;
    CellsAppend(lead, t, g);
    BlankCells(lead, g);
  }

  function Body(formatted: string, column: nat): string {
    var lines := Lines(formatted);
    TrimLeft(lines[0]) + Indented(lines[1..], column)
  }

  lemma BodyCells(formatted: string, column: nat)
    ensures Cells(Body(formatted, column), true) == Cells(formatted, true)
  {
    hide Cells, Lines, Indented, Trail, TrimLeft, Join;
    var lines := Lines(formatted);
    var first := TrimLeft(lines[0]);
    JoinLines(formatted);
    TrimLeftCells(lines[0]);
    if |lines| == 1 {
      OneLine(lines, column);
      assert first + "" == first;
    } else {
      var rest := "\n" + Join("\n", lines[1..]);
      assert formatted == lines[0] + rest by { MoreLines(lines); }
      CellsAppend(first, Indented(lines[1..], column), true);
      CellsAppend(lines[0], rest, true);
      IndentedCells(lines[1..], column, Trail(first, true));
      LeadCells("\n", Join("\n", lines[1..]), Trail(first, true));
      LeadCells("\n", Join("\n", lines[1..]), Trail(lines[0], true));
    }
  }

  lemma OneLine(lines: seq<string>, column: nat)
    requires |lines| == 1
    ensures Indented(lines[1..], column) == "" && Join("\n", lines) == lines[0]
  {
  }

  lemma MoreLines(lines: seq<string>)
    requires |lines| > 1
    ensures Join("\n", lines) == lines[0] + ("\n" + Join("\n", lines[1..]))
  {
  }

  lemma EmbeddedText(st: State, formatted: string, column: nat)
    ensures
      var st' := EmitEmbedded(st, formatted, column);
      && st'.text == st.text + ("(" + Body(formatted, column) + ")")
      && st' == st.(text := st'.text, hasContent := true, space := true)
  {
    hide Lines, TrimLeft, Indented;
    var lines := Lines(formatted);
    IndentedText(Emit(st, "(" + TrimLeft(lines[0])), lines[1..], column);
    var first, rest := TrimLeft(lines[0]), Indented(lines[1..], column);
    assert st.text + ("(" + first) + rest + ")" == st.text + ("(" + (first + rest) + ")");
  }

  // Behind a delimiter the first gap never matters.
  lemma BehindDelimiter(m1: seq<Mark>, c1: seq<Cell>, m2: seq<Mark>, c2: seq<Cell>)
    requires |m1| == |c1| == |m2| == |c2|
    requires m1 != [] ==> m1[0].start && m2[0].start && m1[1..] == m2[1..] && c1[1..] == c2[1..] && m1[0].ch == m2[0].ch
    ensures GapsFrom('(', m1, c1) <==> GapsFrom('(', m2, c2)
  {
    if m1 != [] {
      forall k | 1 <= k < |m1|
        ensures m1[k] == m2[k] && c1[k] == c2[k] && Before('(', m1, k) == Before('(', m2, k)
      {
        assert m1[k] == m1[1..][k - 1] && m2[k] == m2[1..][k - 1];
        assert c1[k] == c1[1..][k - 1] && c2[k] == c2[1..][k - 1];
        assert k > 1 ==> m1[k - 1] == m1[1..][k - 2] && m2[k - 1] == m2[1..][k - 2];
      }
      assert GapOk(Before('(', m1, 0), m1[0], c1[0]) && GapOk(Before('(', m2, 0), m2[0], c2[0]);
    }
  }

  // Whether whitespace precedes a list only shows in its first mark.
  lemma {:induction false} MarksGap(toks: Tokens, g: bool)
    ensures
      var a, b := MarksList(toks, g), MarksList(toks, true);
      |a| == |b| && (a != [] ==> a[1..] == b[1..] && a[0].ch == b[0].ch)
  {
    if toks != [] {
      NodeGap(toks[0], g);
      if Trail(Value(toks[0]), g) != Trail(Value(toks[0]), true) {
        assert Value(toks[0]) == "";
        EmptyMarks(toks[0], g);
        EmptyMarks(toks[0], true);
        MarksGap(toks[1..], g);
      } else {
        var a, b, r := Marks(toks[0], g), Marks(toks[0], true), MarksList(toks[1..], Trail(Value(toks[0]), g));
        if a != [] {
          assert (a + r)[1..] == a[1..] + r && (b + r)[1..] == b[1..] + r;
        }
      }
    }
  }

  lemma EmptyMarks(node: Node, g: bool)
    requires Value(node) == ""
    ensures Marks(node, g) == []
  {
    MarksRead(node, g);
  }

  lemma {:induction false} NodeGap(node: Node, g: bool)
    ensures
      var a, b := Marks(node, g), Marks(node, true);
      |a| == |b| && (a != [] ==> a[1..] == b[1..] && a[0].ch == b[0].ch)
  {
    match node
    case Leaf(_, value) =>
      CellsGap(value, g);
      var a, b := Marks(node, g), Marks(node, true);
      forall k | 1 <= k < |a| ensures a[k] == b[k] {
        assert Cells(value, g)[1..][k - 1] == Cells(value, true)[1..][k - 1];
      }
    case Group(_, kids) => MarksGap(kids, g);
  }

  // The marks and cells of "( ... )" around an independently formatted text.
  lemma EmbeddedGaps(inner: Tokens, body: string, g0: bool, c0: bool, prev: char)
    requires SameText(MarksList(inner, true), Cells(body, true))
    ensures
      var ms := [Mark('(', g0, true)] + MarksList(inner, false) + [Mark(')', Trail(ValueList(inner), false), true)];
      var cs := Cells("(" + body + ")", c0);
      && SameText(ms, cs)
      && (GapsFrom(prev, ms, cs) <==> GapsFrom(OUTSIDE, MarksList(inner, true), Cells(body, true)))
  {
    hide Cells, Trail, MarksList, ValueList, GapsFrom;
    var mo, mi, mc := [Mark('(', g0, true)], MarksList(inner, false), [Mark(')', Trail(ValueList(inner), false), true)];
    var co, ci, cc := [Cell('(', c0)], Cells(body, false), [Cell(')', Trail(body, false))];
    ParenCells(body, c0);
    MarksGap(inner, false);
    MarksListRead(inner, false);
    MarksListRead(inner, true);
    CellsGap(body, false);
    GapsAppend(prev, mo + mi, co + ci, mc, cc);
    GapsAppend(prev, mo, co, mi, ci);
    BehindDelimiter(mi, ci, MarksList(inner, true), Cells(body, true));
    SingleGap(prev, mo[0], co[0]);
    SingleGap(LastMark(prev, mo + mi), mc[0], cc[0]);
    forall k | 0 <= k < |mi| ensures mi[k].ch == ci[k].ch {
      if k > 0 {
        assert mi[k] == mi[1..][k - 1] && ci[k] == ci[1..][k - 1];
        assert MarksList(inner, true)[k] == MarksList(inner, true)[1..][k - 1];
        assert Cells(body, true)[k] == Cells(body, true)[1..][k - 1];
      }
    }
  }

  lemma SingleGap(prev: char, m: Mark, c: Cell)
    requires m.start && IsDelim(m.ch)
    ensures GapsFrom(prev, [m], [c])
  {
  }

  lemma ParenCells(body: string, g: bool)
    ensures Cells("(" + body + ")", g) == [Cell('(', g)] + Cells(body, false) + [Cell(')', Trail(body, false))]
  {
    CellsAppend("(" + body, ")", g);
    CellsAppend("(", body, g);
    TrailAppend("(", body, g);
    assert "("[1..] == "" && ")"[1..] == "";
  }

  // What the probe knows after the operands, and what is written next.
  lemma EmbedSim(st: State, p: Probe, ms: seq<Mark>, paren: Node, formatted: string, column: nat, ok: bool)
    requires Sim(st, p, ms) && WellFormed(paren) && paren.Group? && paren.group.Parens?
    requires
      var inner := Inner(paren.kids);
      && SameText(MarksList(inner, true), Cells(formatted, true))
      && (GapsFrom(OUTSIDE, MarksList(inner, true), Cells(formatted, true)) <==> ok)
    ensures
      Sim(EmitEmbedded(st, formatted, column),
        p.(ok := p.ok && ok, prev := ')', loose := false, space := true), ms + Marks(paren, p.gap))
  {
    hide Cells, GapsFrom, MarksList, Body, Inner, Marks, EmitEmbedded, Trail;
    var inner := Inner(paren.kids);
    var body := Body(formatted, column);
    BodyCells(formatted, column);
    EmbeddedText(st, formatted, column);
    ParenMarks(paren, p.gap);
    EmbeddedGaps(inner, body, p.gap, p.loose, p.prev);
    var m2, c2 := Marks(paren, p.gap), Cells("(" + body + ")", p.loose);
    CellsAppend(st.text, "(" + body + ")", true);
    SameTextAppend(ms, Cells(st.text, true), m2, c2);
    GapsAppend(OUTSIDE, ms, Cells(st.text, true), m2, c2);
    EndsVisibly(st.text, "(" + body + ")");
    assert LastMark(OUTSIDE, ms + m2) == ')';
  }

  lemma EndsVisibly(a: string, b: string)
    requires b != "" && !IsSpace(b[|b| - 1])
    ensures !Trail(a + b, true)
  {
  }

  lemma SameTextAppend(m1: seq<Mark>, c1: seq<Cell>, m2: seq<Mark>, c2: seq<Cell>)
    requires SameText(m1, c1) && SameText(m2, c2)
    ensures SameText(m1 + m2, c1 + c2)
  {
  }

  lemma ParenMarks(paren: Node, g: bool)
    requires WellFormed(paren) && paren.Group? && paren.group.Parens?
    ensures
      var inner := Inner(paren.kids);
      && SameText(Marks(paren, g), Cells(Value(paren), g))
      && Marks(paren, g) == [Mark('(', g, true)] + MarksList(inner, false) +
        [Mark(')', Trail(ValueList(inner), false), true)]
  {
    hide Inner, Cells, MarksList, ValueList, Trail;
    var kids := paren.kids;
    var open, close, inner := kids[0], kids[|kids| - 1], Inner(kids);
    MarksRead(paren, g);
    InnerOfPaired(kids);
    assert kids == [open] + (inner + [close]);
    MarksListAppend([open], inner + [close], g);
    SingleMarks(open, g);
    ParenMark(open, g);
    MarksListAppend(inner, [close], false);
    SingleMarks(close, Trail(ValueList(inner), false));
    ParenMark(close, Trail(ValueList(inner), false));
  }

  lemma ParenMark(tok: Node, g: bool)
    requires IsParen(tok)
    ensures Marks(tok, g) == [Mark(tok.value[0], g, true)]
    ensures !Trail(Value(tok), g)
  {
    assert tok.value[1..] == "";
  }

  lemma {:induction false} ComparisonSim(node: Node, st: State, p: Probe, ms: seq<Mark>)
    requires node.Group? && node.group.Compare? && ContainsSubquery(node.kids) && WellFormed(node)
    requires Sim(st, p, ms) && DroplessComparison(node)
    ensures Tracks(RenderComparison(node, st), ProbeComparison(node, p), p, ms, [node])
    decreases Size(node), 0, 0
  {
    hide Sim, Tracks, EmitWord, WriteWord, CopyText, FlushSpace, Cells, IsSimpleSubquery, EmitComparisonLeft,
      ProbeOperands, EmitEmbedded, CurrentColumn, Passed, MarksList, ValueList, ProbeList, Blank, Value, FormatTokens,
      GapsFrom, SameText;
    var kids, s := node.kids, FirstSubquery(node.kids);
    var paren, left, rest := kids[s], kids[..s], kids[s + 1..];
    SizeMember(kids, s);
    SubqueryIsParens(paren);
    if IsSimpleSubquery(paren) {
      CopyTracks(st, p, ms, node);
    } else {
      var inner := Inner(paren.kids);
      InnerOfPaired(paren.kids);
      assert OperandsOnly(left) by {
        assert forall k :: 0 <= k < s ==> left[k] == kids[k];
      }
      OperandsSim(left, st, p, ms);
      var st1, p1 := EmitComparisonLeft(left, st), ProbeOperands(left, p);
      TracksSim(st1, p1, p, ms, left);
      var m1 := ms + MarksList(left, p.gap);
      FlushSim(st1, p1, m1);
      var st2 := FlushSpace(st1);
      UppercaseKept(left, st);
      var formatted := FormatTokens(inner, st.uppercase);
      var inside := ProbeList(inner, BEGINNING);
      FormatSim(inner, st.uppercase);
      EmbedSim(st2, Flushed(p1), m1, paren, formatted, CurrentColumn(st2.text), inside.ok);
      FlushedFields(p1, inside.ok);
      EmbedTracks(node, EmitEmbedded(st2, formatted, CurrentColumn(st2.text)), p1, p, ms, inside.ok);
    }
  }

  lemma FlushedFields(p: Probe, ok: bool)
    ensures Flushed(p).gap == p.gap
    ensures Flushed(p).(ok := p.ok && ok, prev := ')', loose := false, space := true) ==
      p.(ok := p.ok && ok, prev := ')', loose := false, space := true)
    ensures Flushed(p).ok == p.ok
  {
  }

  lemma UppercaseKept(toks: Tokens, st: State)
    requires AllWellFormed(toks)
    ensures EmitComparisonLeft(toks, st).uppercase == st.uppercase
  {
    OperandsAdd(toks, st);
  }

  lemma EmbedTracks(node: Node, st': State, p1: Probe, p: Probe, ms: seq<Mark>, ok: bool)
    requires node.Group? && ContainsSubquery(node.kids) && WellFormed(node)
    requires
      var s := FirstSubquery(node.kids);
      var left, paren := node.kids[..s], node.kids[s];
      && Blank(ValueList(node.kids[s + 1..]))
      && p1.gap == Trail(ValueList(left), p.gap) && p1.depth == p.depth
      && Sim(st', p1.(ok := p1.ok && ok, prev := ')', loose := false, space := true),
        ms + MarksList(left, p.gap) + Marks(paren, p1.gap))
    ensures
      var s := FirstSubquery(node.kids);
      Tracks(st', Passed(p1, ValueList(node.kids[s..])).(ok := p1.ok && ok, loose := false, space := true), p, ms,
        [node])
  {
    hide Sim, MarksList, ValueList, Blank, Trail, Marks, Canon, IsSubquery, Value, Tracks, WellFormed;
    var kids, s := node.kids, FirstSubquery(node.kids);
    EmbedMarks(node, p, p1);
    var p' := Passed(p1, ValueList(kids[s..])).(ok := p1.ok && ok, loose := false, space := true);
    var before := ms + MarksList(kids[..s], p.gap) + Marks(kids[s], p1.gap);
    Regroup(ms, MarksList(kids[..s], p.gap), Marks(kids[s], p1.gap));
    GapIrrelevant(st', p1.(ok := p1.ok && ok, prev := ')', loose := false, space := true), p', before);
    assert Tracks(st', p', p, ms, kids) by {
      TracksWhole(st', p', p, ms, kids);
    }
    WholeGroup(st', p', p, ms, node);
  }

  lemma Regroup(a: seq<Mark>, b: seq<Mark>, c: seq<Mark>)
    ensures a + b + c == a + (b + c)
  {
  }

  lemma TracksWhole(st': State, p': Probe, p: Probe, ms: seq<Mark>, toks: Tokens)
    requires Sim(st', p', ms + MarksList(toks, p.gap)) && p'.gap == Trail(ValueList(toks), p.gap) && p'.depth == p.depth
    ensures Tracks(st', p', p, ms, toks)
  {
  }

  // The marks and the end of a comparison with an embedded subquery.
  lemma EmbedMarks(node: Node, p: Probe, p1: Probe)
    requires node.Group? && ContainsSubquery(node.kids) && WellFormed(node)
    requires
      var s := FirstSubquery(node.kids);
      Blank(ValueList(node.kids[s + 1..])) && p1.gap == Trail(ValueList(node.kids[..s]), p.gap)
    ensures
      var s := FirstSubquery(node.kids);
      && MarksList(node.kids, p.gap) == MarksList(node.kids[..s], p.gap) + Marks(node.kids[s], p1.gap)
      && Trail(ValueList(node.kids), p.gap) == Trail(ValueList(node.kids[s..]), p1.gap)
      && LastOf(p1.prev, ValueList(node.kids[s..])) == ')'
  {
    hide MarksList, ValueList, Blank, Trail, Marks, Canon, IsSubquery, Value, LastOf;
    var kids, s := node.kids, FirstSubquery(node.kids);
    assert WellFormed(kids[s]);
    var paren, left, rest := kids[s], kids[..s], kids[s + 1..];
    assert kids == left + kids[s..];
    FirstOff(kids, s);
    MarksListAppend(left, kids[s..], p.gap);
    ValueListAppend(left, kids[s..]);
    TrailAppend(ValueList(left), ValueList(kids[s..]), p.gap);
    SubqueryIsParens(paren);
    ParenThenBlank(paren, rest, p1.gap, p1.prev);
  }

  lemma FirstOff(kids: Tokens, s: nat)
    requires s < |kids|
    ensures kids[s..] == [kids[s]] + kids[s + 1..]
  {
  }

  lemma ParenThenBlank(paren: Node, rest: Tokens, g: bool, prev: char)
    requires WellFormed(paren) && paren.Group? && paren.group.Parens? && Blank(ValueList(rest))
    ensures MarksList([paren] + rest, g) == Marks(paren, g)
    ensures LastOf(prev, ValueList([paren] + rest)) == ')'
  {
    hide MarksList, ValueList, Blank, Trail, Marks, Canon, Value, Cells, Reads, LastOf, Inner, SameText;
    var g2 := Trail(Value(paren), g);
    MarksListAppend([paren], rest, g);
    SingleMarks(paren, g);
    MarksListRead(rest, g2);
    BlankCells(ValueList(rest), g2);
    EmptyReads(MarksList(rest, g2), ValueList(rest), g2);
    assert Marks(paren, g) + [] == Marks(paren, g);
    MarksListRead([paren] + rest, g);
    ReadsLast(Marks(paren, g), ValueList([paren] + rest), g, prev);
    ParenMarks(paren, g);
  }

  lemma StartSim(uppercase: bool)
    ensures Sim(Start(uppercase), BEGINNING, [])
  {
  }

  // A formatted statement shows the visible text of its tree, and shows its
  // tokens apart exactly when the dry run found nothing fused.
  lemma {:induction false} FormatSim(toks: Tokens, uppercase: bool)
    requires AllWellFormed(toks) && DroplessList(toks, 0)
    ensures
      var ms, cs := MarksList(toks, true), Cells(FormatTokens(toks, uppercase), true);
      && SameText(ms, cs)
      && (GapsFrom(OUTSIDE, ms, cs) <==> ProbeList(toks, BEGINNING).ok)
    decreases SizeList(toks), 4, 0
  {
    hide RenderList, ProbeList, Cells, MarksList, GapsFrom, SameText, PostProcess.Clean;
    StartSim(uppercase);
    ListSim(toks, Start(uppercase), BEGINNING, []);
    var st := RenderList(toks, Start(uppercase));
    TracksSim(st, ProbeList(toks, BEGINNING), BEGINNING, [], toks);
    assert [] + MarksList(toks, true) == MarksList(toks, true);
    PostProcess.CleanKeepsCells(st.text);
  }

  // Formatting a statement shows exactly its tokens, each still apart from the
  // next, if and only if no comparison loses an operand and the dry run passes.
  lemma FormattingKeepsTokens(toks: Tokens, uppercase: bool)
    requires AllWellFormed(toks)
    ensures ShowsTokens(toks, FormatTokens(toks, uppercase)) <==> DroplessList(toks, 0) && ProbeList(toks, BEGINNING).ok
  {
    hide FormatTokens, Cells, MarksList, GapsFrom, ProbeList, DroplessList;
    if DroplessList(toks, 0) {
      FormatSim(toks, uppercase);
    }
    if ShowsTokens(toks, FormatTokens(toks, uppercase)) {
      var out := FormatTokens(toks, uppercase);
      MarksListRead(toks, true);
      CellsCanon(out, true);
      CellsCanon(ValueList(toks), true);
      assert |Canon(out)| == |Canon(ValueList(toks))|;
      FormatKeeps(toks, uppercase);
      ListMeasures(toks, 0);
    }
  }
}
