// Every query of the language is formatted to its layout.
module QueryLayout {
  import opened Text
  import opened SqlTree
  import opened Rendering
  import opened Stable
  import opened Settled
  import opened Queries
  import opened QueryText
  import Layout
  import Preservation
  import Separation
  import Squeezing
  import Transcribes
  import Transcript

  // ---------------------------------------------------------------------
  // Rendering from the front of a list without BETWEEN
  // ---------------------------------------------------------------------

  function Run(toks: Tokens, st: State): State {
    RenderFrom(toks, 0, {}, st)
  }

  lemma {:induction false} VisibleShifts(toks: Tokens, i: nat, j: nat)
    requires i <= j <= |toks|
    ensures NextVisible(toks, j) == i + NextVisible(toks[i..], j - i)
    decreases |toks| - j
  {
    assert j < |toks| ==> toks[i..][j - i] == toks[j];
    if j < |toks| && IsBlankLeaf(toks[j]) {
      VisibleShifts(toks, i, j + 1);
    }
  }

  lemma ResolvesAlike(toks: Tokens, i: nat, k: nat)
    requires i + k < |toks| && IsKeyword(toks[i + k])
    ensures ResolveKeyword(toks[i..], k) == ResolveKeyword(toks, i + k)
  {
    hide Normalize;
    VisibleShifts(toks, i, i + k + 1);
    var j := NextVisible(toks, i + k + 1);
    assert j < |toks| ==> toks[i..][j - i] == toks[j];
  }

  lemma HandledAlike(toks: Tokens, i: nat, k: nat, st: State)
    requires i + k < |toks| && IsKeyword(toks[i + k])
    ensures HandleKeyword(toks[i..], k, {}, st) == HandleKeyword(toks, i + k, {}, st)
  {
    hide ResolveKeyword, Classify, Dispatch, Nest;
    ResolvesAlike(toks, i, k);
  }

  lemma StepAlike(toks: Tokens, i: nat, k: nat, st: State)
    requires i + k < |toks|
    ensures Transcribes.StepTo(toks, i + k) == i + Transcribes.StepTo(toks[i..], k)
    ensures Transcribes.StepState(toks, i + k, {}, st) == Transcribes.StepState(toks[i..], k, {}, st)
  {
    hide ResolveKeyword, HandleKeyword, HandlePunct, RenderGroup, EmitWord, FlushComma, Classify, Normalize;
    assert toks[i..][k] == toks[i + k];
    if IsKeyword(toks[i + k]) {
      ResolvesAlike(toks, i, k);
      HandledAlike(toks, i, k, st);
    }
  }

  // What comes before a position does not matter.
  lemma {:induction false} RunsBehind(toks: Tokens, i: nat, k: nat, st: State)
    requires i + k <= |toks|
    ensures RenderFrom(toks, i + k, {}, st) == RenderFrom(toks[i..], k, {}, st)
    decreases |toks| - i - k
  {
    hide RenderFrom, Transcribes.StepTo, Transcribes.StepState, Transcribes.StepPieces, Transcript.PiecesFrom;
    if i + k == |toks| {
      Transcribes.NoMore(toks, {}, st);
      Transcribes.NoMore(toks[i..], {}, st);
    } else {
      Transcribes.OneStep(toks, i + k, {}, st);
      Transcribes.OneStep(toks[i..], k, {}, st);
      StepAlike(toks, i, k, st);
      RunsBehind(toks, i, Transcribes.StepTo(toks[i..], k), Transcribes.StepState(toks[i..], k, {}, st));
    }
  }

  // One token that is not merged with the next.
  lemma StepRuns(tok: Node, rest: Tokens, st: State)
    requires IsKeyword(tok) ==> Normalize(tok.value) !in COMPOUND_HEADS
    ensures Run([tok] + rest, st) == Run(rest, Transcribes.StepState([tok] + rest, 0, {}, st))
  {
    hide RenderFrom, HandleKeyword, HandlePunct, RenderGroup, EmitWord, FlushComma, Normalize;
    var toks := [tok] + rest;
    Transcribes.OneStep(toks, 0, {}, st);
    assert toks[0] == tok;
    RunsBehind(toks, 1, 0, Transcribes.StepState(toks, 0, {}, st));
    assert toks[1..] == rest;
  }

  lemma BlankRuns(rest: Tokens, st: State)
    ensures Run([BLANK] + rest, st) == Run(rest, st)
  {
    StepRuns(BLANK, rest, st);
  }

  lemma GroupRuns(node: Node, rest: Tokens, st: State)
    requires node.Group?
    ensures Run([node] + rest, st) == Run(rest, RenderGroup(node, FlushComma(st)))
  {
    hide RenderGroup, Run;
    StepRuns(node, rest, st);
  }

  lemma LeafRuns(w: string, rest: Tokens, st: State)
    ensures Run([Leaf(OtherLeaf, w)] + rest, st) == Run(rest, EmitWord(FlushComma(st), w))
  {
    hide Run;
    StepRuns(Leaf(OtherLeaf, w), rest, st);
  }

  lemma NothingRuns(st: State)
    ensures Run([], st) == st
  {
  }

  // ---------------------------------------------------------------------
  // States between the parts of a query
  // ---------------------------------------------------------------------

  predicate Ready(st: State, t: string, b: int, d: int, upper: bool) {
    && st.text == t && (st.hasContent <==> t != "") && (st.top == 0 || st.top == 1) && st.block == b >= 0
    && st.depth == d && st.uppercase == upper
  }

  predicate Sits(st: State, t: string, b: int, d: int, upper: bool) {
    Ready(st, t, b, d, upper) && t != "" && st.top == 1 && !st.comma
  }

  function Gap(st: State): string {
    if st.space then " " else ""
  }

  lemma WordSits(st: State, w: string, t: string, b: int, d: int, upper: bool)
    requires Sits(st, t, b, d, upper)
    ensures FlushComma(st) == st
    ensures Sits(EmitWord(st, w), t + Gap(st) + w, b, d, upper)
    ensures EmitWord(st, w).space && EmitWord(st, w).clause == st.clause
  {
  }

  // ---------------------------------------------------------------------
  // Keywords
  // ---------------------------------------------------------------------

  lemma CasedText(w: string, upper: bool)
    ensures KeywordText(w, upper) == Cased(w, upper)
  {
  }

  lemma {:induction false} LowerIndex(w: string)
    ensures IndexOf(Lower(w), ' ') == IndexOf(w, ' ')
  {
    if w != "" {
      LowerIndex(w[1..]);
      assert Lower(w)[1..] == Lower(w[1..]);
    }
  }

  // A keyword in front of its line, in the columns meant.
  lemma OpeningText(b: nat, w: string, upper: bool)
    requires IndexOf(w, ' ') <= 7
    ensures Spaces(IndentWidth(0, b)) + Pad(KeywordText(w, upper)) + " " == Opening(b, w, upper)
  {
    hide Pad;
    CasedText(w, upper);
    LowerIndex(w);
    var kw := Cased(w, upper);
    assert |Layout.FirstWord(kw)| == IndexOf(w, ' ');
    Layout.PaddedLine(b, kw);
  }

  function After(t: string): string {
    if t == "" then "" else "\n"
  }

  lemma {:induction false} UpperLower(w: string)
    ensures Upper(Lower(w)) == Upper(w)
  {
  }

  lemma JoinLikeSits(st: State, w: string, t: string, b: nat, d: int, upper: bool)
    requires Ready(st, t, b, d, upper) && IndexOf(w, ' ') <= 7
    ensures
      var r := EmitJoinLike(st.(comma := false), KeywordText(w, upper));
      && Sits(r, t + After(t) + Opening(b, w, upper), b, d, upper) && !r.space
  {
    hide Pad, Opening, Spaces, KeywordText;
    OpeningText(b, w, upper);
    var s0 := st.(space := false, comma := false, top := 0);
    assert LineStart(s0) == After(t);
    LeadParts(t, After(t), Spaces(IndentWidth(0, b)), Pad(KeywordText(w, upper)));
  }

  lemma LeadParts(t: string, after: string, sp: string, kw: string)
    ensures t + (after + sp + kw + " ") == t + after + (sp + kw + " ")
  {
  }

  lemma ClauseIsJoinLike(st: State, kw: string)
    requires st.top == 0 || st.top == 1
    ensures EmitClause(st, kw) == EmitJoinLike(st, kw).(clause := Upper(kw))
  {
    hide Pad, Indent, LineStart, Upper;
  }

  lemma ClauseSits(st: State, w: string, t: string, b: nat, d: int, upper: bool)
    requires Ready(st, t, b, d, upper) && IndexOf(w, ' ') <= 7 && Upper(w) == w
    ensures
      var r := EmitClause(st.(comma := false), KeywordText(w, upper));
      && Sits(r, t + After(t) + Opening(b, w, upper), b, d, upper) && !r.space && r.clause == w
  {
    hide Opening, EmitJoinLike, EmitClause, Upper, Lower;
    JoinLikeSits(st, w, t, b, d, upper);
    ClauseIsJoinLike(st.(comma := false), KeywordText(w, upper));
    UpperLower(w);
  }

  // A keyword written in its normal form, alone, and its kind.
  predicate Alone(tok: Node, w: string) {
    IsKeyword(tok) && Normalize(tok.value) == w && w !in COMPOUND_HEADS
  }

  lemma KeyRuns(tok: Node, w: string, kind: KeywordKind, rest: Tokens, st: State)
    requires Alone(tok, w) && Classify(w) == kind && kind in {Clause, JoinOp, Logical, On, SetOp}
    ensures Run([tok] + rest, st) == Run(rest, Dispatch(kind, KeywordText(w, st.uppercase), st.(comma := false)))
  {
    hide Run, Normalize, Dispatch, Classify, KeywordText;
    StepRuns(tok, rest, st);
    var toks := [tok] + rest;
    assert toks[0] == tok;
    Resolved(toks, w);
    assert kind == Logical ==> 0 !in {};
    assert st.(origins := st.origins, comma := false) == st.(comma := false);
  }

  lemma Resolved(toks: Tokens, w: string)
    requires toks != [] && Alone(toks[0], w)
    ensures ResolveKeyword(toks, 0).0 == w
  {
    hide Normalize;
  }

  lemma SetOpSits(st: State, w: string, t: string, b: nat, d: int, upper: bool)
    requires Ready(st, t, b, d, upper) && t != ""
    ensures
      var r := EmitSetOp(st.(comma := false), KeywordText(w, upper));
      Ready(r, t + Line(Room(IndexOf(w, ' '))) + Cased(w, upper), 0, d, upper)
  {
    hide Pad;
    CasedText(w, upper);
    LowerIndex(w);
    var kw := Cased(w, upper);
    Transcribes.PadIs(kw);
    assert |Layout.FirstWord(kw)| == IndexOf(w, ' ');
    assert Pad(kw) == Spaces(Room(IndexOf(w, ' '))) + kw;
    PadParts(t, Spaces(Room(IndexOf(w, ' '))), kw);
  }

  lemma PadParts(t: string, sp: string, kw: string)
    ensures t + ("\n" + (sp + kw)) == t + ("\n" + sp) + kw
  {
  }

  // ---------------------------------------------------------------------
  // Names
  // ---------------------------------------------------------------------

  lemma {:induction false} NotSquashed(w: string)
    requires forall i :: 0 <= i < |w| ==> !IsSpace(w[i])
    ensures SquashSpaces(w) == w && WordLength(w) == |w|
  {
    if w != "" {
      NotSquashed(w[1..]);
      assert w == [w[0]] + w[1..];
    }
  }

  lemma NameCopied(w: string, upper: bool)
    requires Wordy(w)
    ensures CopyText(Name(w), upper) == w
    ensures Value(Name(w)) == w
  {
    hide SquashSpaces, WordLength, Words, Join, Strip;
    assert forall i :: 0 <= i < |w| ==> w[i] in w;
    NotSquashed(w);
    OneWord(w);
    NameValue(w);
    assert Strip(w) == w by { Stripped(w); }
  }

  lemma NameValue(w: string)
    ensures Value(Name(w)) == w && KeywordsUpper(Name(w)) == w
  {
    var kids := Name(w).kids;
    assert kids[1..] == [] && ValueList([]) == "" && KeywordsUpperList([]) == "";
    assert Value(kids[0]) == w && KeywordsUpper(kids[0]) == w;
    assert w + "" == w;
  }

  lemma Stripped(w: string)
    requires w != "" && !IsSpace(w[0]) && !IsSpace(w[|w| - 1])
    ensures Strip(w) == w
  {
  }

  lemma NameRenders(w: string, st: State, t: string, b: int, d: int, upper: bool)
    requires Wordy(w) && Sits(st, t, b, d, upper)
    ensures RenderGroup(Name(w), st) == EmitWord(st, w)
    ensures FlushComma(st) == st
    ensures Sits(EmitWord(st, w), t + Gap(st) + w, b, d, upper)
    ensures EmitWord(st, w).space && EmitWord(st, w).clause == st.clause
  {
    hide CopyText, Wordy;
    NameCopied(w, upper);
    WordSits(st, w, t, b, d, upper);
  }

  lemma NameRuns(w: string, rest: Tokens, st: State, t: string, b: int, d: int, upper: bool) returns (st': State)
    requires Wordy(w) && Sits(st, t, b, d, upper)
    ensures Run([Name(w)] + rest, st) == Run(rest, st')
    ensures Sits(st', t + Gap(st) + w, b, d, upper) && st'.space && st'.clause == st.clause
  {
    hide Run, RenderGroup, Wordy;
    GroupRuns(Name(w), rest, st);
    NameRenders(w, st, t, b, d, upper);
    st' := EmitWord(st, w);
  }

  // ---------------------------------------------------------------------
  // CASE expressions
  // ---------------------------------------------------------------------

  function CaseRun(kids: Tokens, st: State, base: string, first: bool): State {
    RenderCaseFrom(kids, 0, st, base, first)
  }

  lemma {:induction false} CaseRunsFrom(kids: Tokens, i: nat, st: State, base: string, first: bool)
    requires i <= |kids|
    ensures RenderCaseFrom(kids, i, st, base, first) == CaseRun(kids[i..], st, base, first)
    decreases |kids| - i
  {
    hide Normalize, EmitWhen, EmitCaseLeaf, RenderCaseGroup;
    var rest := kids[i..];
    if i < |kids| {
      assert rest[0] == kids[i];
      var tok := kids[i];
      var when := IsKeyword(tok) && Normalize(tok.value) == "WHEN";
      var st1 := if when then EmitWhen(tok, st, base, first)
                 else if tok.Leaf? then EmitCaseLeaf(tok, st, base) else RenderCaseGroup(tok, st);
      var first1 := if when then false else first;
      CaseRunsFrom(kids, i + 1, st1, base, first1);
      CaseRunsFrom(rest, 1, st1, base, first1);
      assert rest[1..] == kids[i + 1..];
    }
  }

  lemma CaseStep(tok: Node, rest: Tokens, st: State, base: string, first: bool)
    ensures IsKeyword(tok) && Normalize(tok.value) == "WHEN" ==>
      CaseRun([tok] + rest, st, base, first) == CaseRun(rest, EmitWhen(tok, st, base, first), base, false)
    ensures tok.Leaf? && !(IsKeyword(tok) && Normalize(tok.value) == "WHEN") ==>
      CaseRun([tok] + rest, st, base, first) == CaseRun(rest, EmitCaseLeaf(tok, st, base), base, first)
    ensures tok.Group? ==>
      CaseRun([tok] + rest, st, base, first) == CaseRun(rest, RenderCaseGroup(tok, st), base, first)
  {
    hide Normalize, EmitWhen, EmitCaseLeaf, RenderCaseGroup;
    var kids := [tok] + rest;
    assert kids[0] == tok && kids[1..] == rest;
    var when := IsKeyword(tok) && Normalize(tok.value) == "WHEN";
    var st1 := if when then EmitWhen(tok, st, base, first)
               else if tok.Leaf? then EmitCaseLeaf(tok, st, base) else RenderCaseGroup(tok, st);
    CaseRunsFrom(kids, 1, st1, base, if when then false else first);
  }

  lemma CaseBlank(rest: Tokens, st: State, base: string, first: bool)
    ensures CaseRun([BLANK] + rest, st, base, first) == CaseRun(rest, st, base, first)
  {
    CaseStep(BLANK, rest, st, base, first);
  }

  lemma CaseName(w: string, rest: Tokens, st: State, base: string, first: bool, t: string, b: int, d: int, upper: bool)
    returns (st': State)
    requires Wordy(w) && Sits(st, t, b, d, upper)
    ensures CaseRun([Name(w)] + rest, st, base, first) == CaseRun(rest, st', base, first)
    ensures Sits(st', t + Gap(st) + w, b, d, upper) && st'.space && st'.clause == st.clause
  {
    hide CaseRun, Wordy, CopyText;
    CaseStep(Name(w), rest, st, base, first);
    NameCopied(w, upper);
    WordSits(st, w, t, b, d, upper);
    st' := EmitWord(st, w);
  }

  // The text a keyword of the CASE expression adds.
  function CaseLead(w: string, gap: string, base: string, first: bool): string {
    match w
    case "CASE" => gap + "CASE "
    case "WHEN" => if first then "WHEN " else "\n" + base + Spaces(5) + "WHEN "
    case "THEN" => " THEN "
    case "ELSE" => "\n" + base + Spaces(5) + "ELSE "
    case _ => "\n" + base + "END"
  }

  lemma CaseWord(w: string, rest: Tokens, st: State, base: string, first: bool, t: string, b: int, d: int, upper: bool)
    returns (st': State)
    requires w in {"CASE", "WHEN", "THEN", "ELSE", "END"} && Sits(st, t, b, d, upper)
    ensures CaseRun([Kw(w)] + rest, st, base, first) == CaseRun(rest, st', base, first && w != "WHEN")
    ensures Sits(st', t + CaseLead(w, Gap(st), base, first), b, d, upper)
    ensures st'.space == (w == "END") && st'.clause == st.clause
  {
    hide CaseRun, Normalize, EmitWhen, EmitCaseLeaf, CaseLead, CaseParts, Sits, Upper;
    CaseKeywordIs(w);
    SameLead(w, Gap(st), base, first);
    CaseStep(Kw(w), rest, st, base, first);
    CaseEmits(w, st, base, first, t, b, d, upper);
    st' := if w == "WHEN" then EmitWhen(Kw(w), st, base, first) else EmitCaseLeaf(Kw(w), st, base);
  }

  lemma CaseKeywordIs(w: string)
    requires w in {"CASE", "WHEN", "THEN", "ELSE", "END"}
    ensures Normalize(w) == w && Upper(w) == w
  {
    hide Normalize;
    CapitalsNormal(w);
    assert |Upper(w)| == |w| && forall i :: 0 <= i < |w| ==> Upper(w)[i] == w[i];
  }

  // The same text, put together as the formatter does.
  function CaseParts(w: string, gap: string, base: string, first: bool): string {
    match w
    case "CASE" => gap + (w + " ")
    case "WHEN" => if first then w + " " else "\n" + base + Spaces(5) + w + " "
    case "THEN" => " " + w + " "
    case "ELSE" => "\n" + base + Spaces(5) + w + " "
    case _ => "\n" + base + w
  }

  lemma SameLead(w: string, gap: string, base: string, first: bool)
    requires w in {"CASE", "WHEN", "THEN", "ELSE", "END"}
    ensures CaseParts(w, gap, base, first) == CaseLead(w, gap, base, first)
  {
    hide Spaces;
    var lead := "\n" + base + Spaces(5);
    assert lead + "WHEN" + " " == lead + "WHEN " && lead + "ELSE" + " " == lead + "ELSE ";
    assert "CASE" + " " == "CASE " && "WHEN" + " " == "WHEN " && " " + "THEN" + " " == " THEN ";
  }

  lemma CaseEmits(w: string, st: State, base: string, first: bool, t: string, b: int, d: int, upper: bool)
    requires w in {"CASE", "WHEN", "THEN", "ELSE", "END"} && Normalize(w) == w && Upper(w) == w
    requires Sits(st, t, b, d, upper)
    ensures
      var r := if w == "WHEN" then EmitWhen(Kw(w), st, base, first) else EmitCaseLeaf(Kw(w), st, base);
      && Sits(r, t + CaseParts(w, Gap(st), base, first), b, d, upper)
      && r.space == (w == "END") && r.clause == st.clause
  {
    hide Normalize, Upper, Spaces, Sits, Emit, FlushSpace, Gap;
    CaseEmission(w, st, base, first);
    var s0 := if w == "CASE" then FlushSpace(st) else st.(space := false);
    var x := CaseParts(w, "", base, first);
    if w == "CASE" {
      FlushSits(st, t, b, d, upper);
      assert "" + (w + " ") == w + " " && t + Gap(st) + x == t + (Gap(st) + (w + " "));
      EmitSits(s0, x, t + Gap(st), b, d, upper);
    } else {
      DropSits(st, t, b, d, upper);
      EmitSits(s0, x, t, b, d, upper);
    }
  }

  lemma CaseEmission(w: string, st: State, base: string, first: bool)
    requires w in {"CASE", "WHEN", "THEN", "ELSE", "END"} && Normalize(w) == w && Upper(w) == w
    ensures
      var r := if w == "WHEN" then EmitWhen(Kw(w), st, base, first) else EmitCaseLeaf(Kw(w), st, base);
      var s0 := if w == "CASE" then FlushSpace(st) else st.(space := false);
      var s1 := Emit(s0, CaseParts(w, "", base, first));
      r == if w == "END" then WithSpace(s1) else s1
  {
    hide Normalize, Upper, Spaces, Emit, FlushSpace;
    assert CaseKeyword(Kw(w), st) == w;
    assert "" + (w + " ") == w + " ";
  }

  lemma FlushSits(st: State, t: string, b: int, d: int, upper: bool)
    requires Sits(st, t, b, d, upper)
    ensures Sits(FlushSpace(st), t + Gap(st), b, d, upper) && FlushSpace(st).clause == st.clause
  {
    assert t + "" == t;
  }

  lemma DropSits(st: State, t: string, b: int, d: int, upper: bool)
    requires Sits(st, t, b, d, upper)
    ensures Sits(st.(space := false), t, b, d, upper)
  {
  }

  lemma EmitSits(st: State, x: string, t: string, b: int, d: int, upper: bool)
    requires Sits(st, t, b, d, upper)
    ensures Sits(Emit(st, x), t + x, b, d, upper) && !Emit(st, x).space && Emit(st, x).clause == st.clause
    ensures Sits(WithSpace(Emit(st, x)), t + x, b, d, upper)
  {
  }

  lemma Chain(a: Node, b: Node, c: Node, d: Node, rest: Tokens)
    ensures [a, b, c, d] + rest == [a] + ([b] + ([c] + ([d] + rest)))
  {
  }

  lemma ArmRuns(a: Arm, rest: Tokens, st: State, column: nat, first: bool, t: string, b: int, d: int, upper: bool)
    returns (st': State)
    requires Wordy(a.test) && Wordy(a.result) && Sits(st, t, b, d, upper)
    ensures CaseRun(ArmToks([a]) + rest, st, Spaces(column), first) == CaseRun(rest, st', Spaces(column), false)
    ensures Sits(st', t + ((if first then "" else Line(column + 5)) + ArmText(a)), b, d, upper)
    ensures st'.space && st'.clause == st.clause
  {
    hide CaseRun, Wordy, Sits, Line;
    var base := Spaces(column);
    var test, result := Name(a.test), Name(a.result);
    var later := [Kw("THEN"), BLANK, result, BLANK] + rest;
    Chain(Kw("WHEN"), BLANK, test, BLANK, later);
    Chain(Kw("THEN"), BLANK, result, BLANK, rest);
    assert ArmToks([a]) + rest == [Kw("WHEN"), BLANK, test, BLANK] + later by { OneArm(a, rest); }
    var lead := if first then "WHEN " else "\n" + base + Spaces(5) + "WHEN ";
    var s1 := CaseWord("WHEN", [BLANK] + ([test] + ([BLANK] + later)), st, base, first, t, b, d, upper);
    CaseBlank([test] + ([BLANK] + later), s1, base, false);
    var s2 := CaseName(a.test, [BLANK] + later, s1, base, false, t + lead, b, d, upper);
    CaseBlank(later, s2, base, false);
    var t2 := t + lead + "" + a.test;
    var s3 := CaseWord("THEN", [BLANK] + ([result] + ([BLANK] + rest)), s2, base, false, t2, b, d, upper);
    CaseBlank([result] + ([BLANK] + rest), s3, base, false);
    st' := CaseName(a.result, [BLANK] + rest, s3, base, false, t2 + " THEN ", b, d, upper);
    CaseBlank(rest, st', base, false);
    ArmSpelled(t, lead, a, first, column);
  }

  lemma OneArm(a: Arm, rest: Tokens)
    ensures ArmToks([a]) + rest ==
      [Kw("WHEN"), BLANK, Name(a.test), BLANK] + ([Kw("THEN"), BLANK, Name(a.result), BLANK] + rest)
  {
    assert [a][1..] == [] && ArmToks([]) == [];
  }

  lemma ArmSpelled(t: string, lead: string, a: Arm, first: bool, column: nat)
    requires lead == if first then "WHEN " else "\n" + Spaces(column) + Spaces(5) + "WHEN "
    ensures t + lead + "" + a.test + " THEN " + "" + a.result ==
      t + ((if first then "" else Line(column + 5)) + ArmText(a))
  {
    hide Line, Spaces;
    LineMore(column);
    assert ArmText(a) == "WHEN " + a.test + " THEN " + a.result;
    ArmParts(t, if first then "" else Line(column + 5), a.test, a.result);
    assert lead == (if first then "" else Line(column + 5)) + "WHEN ";
  }

  lemma LineMore(column: nat)
    ensures "\n" + Spaces(column) + Spaces(5) == Line(column + 5)
  {
    assert Spaces(column) + Spaces(5) == Spaces(column + 5);
  }

  lemma ArmParts(t: string, line: string, test: string, result: string)
    ensures t + (line + "WHEN ") + "" + test + " THEN " + "" + result ==
      t + (line + ("WHEN " + test + " THEN " + result))
  {
  }

  lemma {:induction false} ArmsRun(arms: seq<Arm>, rest: Tokens, st: State, column: nat, t: string, b: int, d: int,
      upper: bool) returns (st': State)
    requires forall k :: 0 <= k < |arms| ==> Wordy(arms[k].test) && Wordy(arms[k].result)
    requires Sits(st, t, b, d, upper) && st.space
    ensures CaseRun(ArmToks(arms) + rest, st, Spaces(column), false) == CaseRun(rest, st', Spaces(column), false)
    ensures Sits(st', t + MoreArms(arms, column), b, d, upper) && st'.space && st'.clause == st.clause
    decreases |arms|
  {
    hide CaseRun, Wordy, Sits, Line, ArmText;
    if arms == [] {
      assert ArmToks(arms) + rest == rest && t + "" == t;
      st' := st;
    } else {
      var a, more := arms[0], arms[1..];
      ArmsSplit(a, more, rest);
      assert arms == [a] + more;
      var s1 := ArmRuns(a, ArmToks(more) + rest, st, column, false, t, b, d, upper);
      st' := ArmsRun(more, rest, s1, column, t + (Line(column + 5) + ArmText(a)), b, d, upper);
      assert t + (Line(column + 5) + ArmText(a)) + MoreArms(more, column) == t + MoreArms(arms, column);
    }
  }

  lemma ArmsSplit(a: Arm, more: seq<Arm>, rest: Tokens)
    ensures ArmToks([a] + more) + rest == ArmToks([a]) + (ArmToks(more) + rest)
  {
    assert ([a] + more)[1..] == more && [a][1..] == [] && ArmToks([]) == [];
    assert ArmToks([a]) + ArmToks(more) == ArmToks([a] + more);
  }

  // The column of a CASE expression is that of an item below the keyword, wherever in the
  // line it stands.
  lemma CaseRenders(arms: seq<Arm>, other: string, st: State, t: string, b: nat, d: int, upper: bool)
    returns (st': State)
    requires ItemOk(Cases(arms, other)) && Sits(st, t, b, d, upper)
    ensures RenderGroup(ItemNode(Cases(arms, other)), st) == st'
    ensures Sits(st', t + (Gap(st) + ItemText(Cases(arms, other), 6 * b + 8)), b, d, upper)
    ensures st'.space && st'.clause == st.clause
  {
    hide CaseRun, Wordy, Line, ArmText, MoreArms, Sits, RenderGroup, ArmToks;
    var column := 6 * b + 8;
    var base := Spaces(column);
    var a, more := arms[0], arms[1..];
    var close := [Kw("ELSE"), BLANK, Name(other), BLANK] + [Kw("END")];
    CaseOpens(arms, other, st, t, b, d, upper);
    assert arms == [a] + more;
    ArmsSplit(a, more, close);
    var behind := ArmToks([a]) + (ArmToks(more) + close);
    var s1 := CaseWord("CASE", [BLANK] + behind, st, base, true, t, b, d, upper);
    CaseBlank(behind, s1, base, true);
    var t1 := t + (Gap(st) + "CASE ");
    var s2 := ArmRuns(a, ArmToks(more) + close, s1, column, true, t1, b, d, upper);
    var t2 := t1 + ("" + ArmText(a));
    var s3 := ArmsRun(more, close, s2, column, t2, b, d, upper);
    var t3 := t2 + MoreArms(more, column);
    st' := CaseCloses(other, s3, column, t3, b, d, upper);
    CaseSpelled(t, Gap(st), ArmText(a), MoreArms(more, column), Line(column + 5), other, Line(column));
  }

  lemma CaseOpens(arms: seq<Arm>, other: string, st: State, t: string, b: nat, d: int, upper: bool)
    requires Sits(st, t, b, d, upper)
    ensures
      var close := [Kw("ELSE"), BLANK, Name(other), BLANK] + [Kw("END")];
      RenderGroup(ItemNode(Cases(arms, other)), st) ==
        CaseRun([Kw("CASE")] + ([BLANK] + (ArmToks(arms) + close)), st, Spaces(6 * b + 8), true)
  {
    hide RenderCaseFrom;
    var close := [Kw("ELSE"), BLANK, Name(other), BLANK] + [Kw("END")];
    assert close == [Kw("ELSE"), BLANK, Name(other), BLANK, Kw("END")];
    assert ItemNode(Cases(arms, other)).kids == [Kw("CASE")] + ([BLANK] + (ArmToks(arms) + close));
    assert Indent(st) == Spaces(6 * b + 8);
  }

  lemma CaseCloses(other: string, st: State, column: nat, t: string, b: int, d: int, upper: bool)
    returns (st': State)
    requires Wordy(other) && Sits(st, t, b, d, upper)
    ensures CaseRun([Kw("ELSE"), BLANK, Name(other), BLANK] + [Kw("END")], st, Spaces(column), false) == st'
    ensures Sits(st', t + (Line(column + 5) + "ELSE " + other + Line(column) + "END"), b, d, upper)
    ensures st'.space && st'.clause == st.clause
  {
    hide CaseRun, Wordy, Sits;
    var base, end := Spaces(column), [Kw("END")];
    Chain(Kw("ELSE"), BLANK, Name(other), BLANK, end);
    var s1 := CaseWord("ELSE", [BLANK] + ([Name(other)] + ([BLANK] + end)), st, base, false, t, b, d, upper);
    CaseBlank([Name(other)] + ([BLANK] + end), s1, base, false);
    var t1 := t + ("\n" + base + Spaces(5) + "ELSE ");
    var s2 := CaseName(other, [BLANK] + end, s1, base, false, t1, b, d, upper);
    CaseBlank(end, s2, base, false);
    assert end == end + [];
    st' := CaseWord("END", [], s2, base, false, t1 + "" + other, b, d, upper);
    NoCase(st', base);
    assert "\n" + Spaces(column) + Spaces(5) == Line(column + 5);
    assert t1 + "" + other + ("\n" + base + "END") == t + (Line(column + 5) + "ELSE " + other + Line(column) + "END");
  }

  lemma NoCase(st: State, base: string)
    ensures CaseRun([], st, base, false) == st
  {
  }

  lemma CaseSpelled(t: string, gap: string, first: string, more: string, l1: string, other: string, l2: string)
    ensures t + (gap + "CASE ") + ("" + first) + more + (l1 + "ELSE " + other + l2 + "END") ==
      t + (gap + ("CASE " + (first + more) + l1 + "ELSE " + other + l2 + "END"))
  {
  }

  // ---------------------------------------------------------------------
  // Lists without BETWEEN
  // ---------------------------------------------------------------------

  predicate Unbound(toks: Tokens) {
    forall k :: 0 <= k < |toks| && IsKeyword(toks[k]) ==> Normalize(toks[k].value) != "BETWEEN"
  }

  lemma ListRuns(toks: Tokens, st: State)
    requires Unbound(toks)
    ensures RenderList(toks, st) == Run(toks, st)
  {
    hide Normalize, RenderFrom;
    assert BetweenAnds(toks) == {};
  }

  lemma UnboundJoined(a: Tokens, b: Tokens)
    requires Unbound(a) && Unbound(b)
    ensures Unbound(a + b)
  {
    hide Normalize;
  }

  lemma GroupsUnbound(toks: Tokens)
    requires forall k :: 0 <= k < |toks| ==> !IsKeyword(toks[k])
    ensures Unbound(toks)
  {
    hide Normalize;
  }

  // ---------------------------------------------------------------------
  // Items
  // ---------------------------------------------------------------------

  lemma ItemRenders(item: Item, st: State, t: string, b: nat, d: int, upper: bool) returns (st': State)
    requires ItemOk(item) && Sits(st, t, b, d, upper)
    ensures RenderGroup(ItemNode(item), st) == st'
    ensures Sits(st', t + (Gap(st) + ItemText(item, 6 * b + 8)), b, d, upper) && st'.space && st'.clause == st.clause
  {
    hide RenderGroup, Sits, Wordy;
    match item
    case Plain(w) =>
      NameRenders(w, st, t, b, d, upper);
      st' := EmitWord(st, w);
      assert t + (Gap(st) + w) == t + Gap(st) + w;
    case Cases(arms, other) =>
      st' := CaseRenders(arms, other, st, t, b, d, upper);
  }

  // A comma, and the line break before the next thing written.
  lemma CommaRuns(node: Node, rest: Tokens, st: State, t: string, b: nat, d: int, upper: bool) returns (s1: State)
    requires node.Group? && Sits(st, t, b, d, upper)
    ensures Run([COMMA, BLANK, node] + rest, st) == Run(rest, RenderGroup(node, s1))
    ensures Sits(s1, t + ("," + Line(6 * b + 8)), b, d, upper) && !s1.space && s1.clause == st.clause
  {
    hide Run, RenderGroup;
    assert [COMMA, BLANK, node] + rest == [COMMA] + ([BLANK] + ([node] + rest));
    StepRuns(COMMA, [BLANK] + ([node] + rest), st);
    var s0 := HandlePunct(COMMA, st);
    BlankRuns([node] + rest, s0);
    GroupRuns(node, rest, s0);
    s1 := FlushComma(s0);
    assert Indent(s0) == Spaces(6 * b + 8);
    assert t + "," + ("\n" + Spaces(6 * b + 8)) == t + ("," + Line(6 * b + 8));
  }

  lemma {:induction false} ItemsRun(items: seq<Item>, st: State, t: string, b: nat, d: int, upper: bool)
    returns (st': State)
    requires forall k :: 0 <= k < |items| ==> ItemOk(items[k])
    requires Sits(st, t, b, d, upper) && st.space
    ensures Run(MoreItems(items), st) == st'
    ensures Sits(st', t + MoreItemText(items, 6 * b + 8), b, d, upper) && st'.space && st'.clause == st.clause
    decreases |items|
  {
    hide Run, RenderGroup, Sits, ItemOk, ItemText, ItemNode, Line;
    if items == [] {
      NothingRuns(st);
      assert t + "" == t;
      st' := st;
    } else {
      var column := 6 * b + 8;
      NodesAreGroups(items[0]);
      var s1 := CommaRuns(ItemNode(items[0]), MoreItems(items[1..]), st, t, b, d, upper);
      var t1 := t + ("," + Line(column));
      var s2 := ItemRenders(items[0], s1, t1, b, d, upper);
      st' := ItemsRun(items[1..], s2, t1 + ("" + ItemText(items[0], column)), b, d, upper);
      assert t1 + ("" + ItemText(items[0], column)) + MoreItemText(items[1..], column)
          == t + MoreItemText(items, column);
    }
  }

  lemma NodesAreGroups(item: Item)
    ensures ItemNode(item).Group?
  {
  }

  lemma {:induction false} MoreItemsUnbound(items: seq<Item>)
    ensures forall k :: 0 <= k < |MoreItems(items)| ==> !IsKeyword(MoreItems(items)[k])
  {
    if items != [] {
      NodesAreGroups(items[0]);
      MoreItemsUnbound(items[1..]);
    }
  }

  // The items behind SELECT.
  lemma SelectList(items: seq<Item>, st: State, t: string, b: nat, d: int, upper: bool) returns (st': State)
    requires items != [] && forall k :: 0 <= k < |items| ==> ItemOk(items[k])
    requires Sits(st, t, b, d, upper) && !st.space && st.clause == "SELECT"
    ensures RenderGroup(Group(IdList, ItemToks(items)), st) == st'
    ensures Sits(st', t + ItemsText(items, 6 * b + 8), b, d, upper) && st'.space
  {
    hide Run, Sits, ItemOk, ItemText, ItemNode, MoreItems, IsSimpleList, RenderFrom, Items, CopyAll;
    var first, more, column := items[0], items[1..], 6 * b + 8;
    var kids := ItemToks(items);
    NodesAreGroups(first);
    MoreItemsUnbound(more);
    GroupsUnbound(kids);
    assert st.clause !in {"GROUP BY", "ORDER BY"} by {
      assert |"SELECT"| == 6 && |"GROUP BY"| == 8 && |"ORDER BY"| == 8;
    }
    ListRuns(kids, st);
    assert RenderGroup(Group(IdList, kids), st) == RenderList(kids, st);
    FirstItem(first, MoreItems(more), st, t, b, d, upper);
    var s1 := ItemRenders(first, st, t, b, d, upper);
    st' := ItemsRun(more, s1, t + ("" + ItemText(first, column)), b, d, upper);
    assert t + ("" + ItemText(first, column)) + MoreItemText(more, column) == t + ItemsText(items, column);
  }

  lemma FirstItem(item: Item, rest: Tokens, st: State, t: string, b: nat, d: int, upper: bool)
    requires Sits(st, t, b, d, upper)
    ensures Run([ItemNode(item)] + rest, st) == Run(rest, RenderGroup(ItemNode(item), st))
  {
    hide Run, RenderGroup;
    NodesAreGroups(item);
    GroupRuns(ItemNode(item), rest, st);
  }

  // ---------------------------------------------------------------------
  // GROUP BY
  // ---------------------------------------------------------------------

  lemma {:induction false} NotInside(s: string)
    requires '|' !in s
    ensures !Contains(s, "||")
  {
    if s != "" {
      NotInside(s[1..]);
      assert "||"[0] == '|';
    }
  }

  lemma NamePlain(w: string)
    requires Wordy(w)
    ensures IsPlainItem(Name(w)) && !HasCase(Name(w)) && IsItem(Name(w))
  {
    NameValue(w);
    var text := Upper(w);
    forall c | c in "(+-*/|" ensures c !in text {
      assert forall i :: 0 <= i < |w| ==> w[i] in w && w[i] !in "()+-*/|";
      assert forall i :: 0 <= i < |w| ==> text[i] == w[i] || 'A' <= text[i] <= 'Z';
      assert !('A' <= c <= 'Z');
    }
    assert '(' in "(+-*/|" && '+' in "(+-*/|" && '-' in "(+-*/|" && '*' in "(+-*/|" && '/' in "(+-*/|" &&
      '|' in "(+-*/|";
    NotInside(text);
  }

  // A blank, a comma or a name.
  ghost predicate ListToken(tok: Node) {
    tok == BLANK || tok == COMMA || (exists w :: Wordy(w) && tok == Name(w))
  }

  lemma {:induction false} MoreNamesAre(names: seq<string>)
    requires forall k :: 0 <= k < |names| ==> Wordy(names[k])
    ensures forall k :: 0 <= k < |MoreNames(names)| ==> ListToken(MoreNames(names)[k])
  {
    hide Wordy;
    if names != [] {
      MoreNamesAre(names[1..]);
      assert ListToken(BLANK) && ListToken(COMMA) && Wordy(names[0]) && ListToken(Name(names[0]));
    }
  }

  lemma ListIsSimple(toks: Tokens)
    requires forall k :: 0 <= k < |toks| ==> ListToken(toks[k])
    ensures IsSimpleList(toks)
  {
    hide Wordy, IsPlainItem, HasCase;
    forall k | 0 <= k < |toks| ensures !HasCase(toks[k]) && (IsItem(toks[k]) ==> IsPlainItem(toks[k])) {
      LeavesHaveNoCase();
      if toks[k] != BLANK && toks[k] != COMMA {
        assert ListToken(toks[k]);
        var w :| Wordy(w) && toks[k] == Name(w);
        NamePlain(w);
      }
    }
  }

  lemma {:induction false} MoreNamesCopied(names: seq<string>, upper: bool)
    requires forall k :: 0 <= k < |names| ==> Wordy(names[k])
    ensures CopyAll(Items(MoreNames(names)), upper) == names
  {
    hide Wordy, CopyText;
    if names != [] {
      var w, more := names[0], MoreNames(names[1..]);
      assert IsItem(Name(w)) && Wordy(w);
      NameCopied(w, upper);
      MoreNamesCopied(names[1..], upper);
      ItemsBehind(w, more);
      assert ([Name(w)] + Items(more))[1..] == Items(more);
    }
  }

  lemma ItemsBehind(w: string, more: Tokens)
    ensures Items([COMMA, BLANK, Name(w)] + more) == [Name(w)] + Items(more)
  {
    var all := [COMMA, BLANK, Name(w)] + more;
    assert all[1..] == [BLANK, Name(w)] + more && all[1..][1..] == [Name(w)] + more;
    assert all[1..][1..][1..] == more;
    assert !IsItem(all[0]) && !IsItem(all[1..][0]) && IsItem(all[1..][1..][0]);
    assert Items(all) == Items(all[1..]) && Items(all[1..]) == Items(all[1..][1..]);
  }

  lemma LeavesHaveNoCase()
    ensures !HasCase(COMMA) && !HasCase(BLANK)
  {
  }

  lemma NamesSimple(names: seq<string>, upper: bool)
    requires names != [] && forall k :: 0 <= k < |names| ==> Wordy(names[k])
    ensures IsSimpleList(NameToks(names))
    ensures CopyAll(Items(NameToks(names)), upper) == names
  {
    hide Wordy, IsSimpleList, CopyText, ListToken;
    var w, more := names[0], MoreNames(names[1..]);
    assert Wordy(w);
    NameCopied(w, upper);
    MoreNamesAre(names[1..]);
    MoreNamesCopied(names[1..], upper);
    assert ListToken(Name(w)) by { NameListed(w); }
    ListIsSimple(NameToks(names));
    assert NameToks(names)[1..] == more;
    assert ([Name(w)] + Items(more))[1..] == Items(more);
  }

  lemma NameListed(w: string)
    requires Wordy(w)
    ensures ListToken(Name(w)) && IsItem(Name(w))
  {
    hide Wordy;
  }

  lemma GroupByIs()
    ensures Alone(Kw("GROUP BY"), "GROUP BY") && Classify("GROUP BY") == Clause
    ensures IndexOf("GROUP BY", ' ') == 5 && Upper("GROUP BY") == "GROUP BY"
  {
    hide Normalize;
    GroupByNormal();
    FirstBlank("GROUP", "BY");
    assert "GROUP" + " " + "BY" == "GROUP BY";
  }

  lemma {:induction false} FirstBlank(a: string, b: string)
    requires ' ' !in a
    ensures IndexOf(a + " " + b, ' ') == |a|
  {
    if a == "" {
      assert a + " " + b == " " + b;
    } else {
      assert (a + " " + b)[1..] == a[1..] + " " + b;
      FirstBlank(a[1..], b);
    }
  }

  lemma GroupsRun(groups: seq<string>, rest: Tokens, st: State, t: string, b: nat, d: int, upper: bool)
    returns (st': State)
    requires forall k :: 0 <= k < |groups| ==> Wordy(groups[k])
    requires Sits(st, t, b, d, upper) && st.space
    ensures Run(GroupToks(groups) + rest, st) == Run(rest, st')
    ensures Sits(st', t + GroupText(groups, b, upper), b, d, upper) && st'.space
  {
    hide Run, Wordy, Normalize, Classify, EmitClause, Opening, NameToks, IsSimpleList, Items, CopyAll, Join;
    if groups == [] {
      assert GroupToks(groups) + rest == rest && t + "" == t;
      st' := st;
    } else {
      var key, list := Kw("GROUP BY"), Group(IdList, NameToks(groups));
      Chain(BLANK, key, BLANK, list, rest);
      assert GroupToks(groups) == [BLANK, key, BLANK, list];
      BlankRuns([key] + ([BLANK] + ([list] + rest)), st);
      GroupByIs();
      KeyRuns(key, "GROUP BY", Clause, [BLANK] + ([list] + rest), st);
      var s1 := EmitClause(st.(comma := false), KeywordText("GROUP BY", upper));
      ClauseSits(st, "GROUP BY", t, b, d, upper);
      BlankRuns([list] + rest, s1);
      GroupRuns(list, rest, s1);
      NamesSimple(groups, upper);
      var t1 := t + "\n" + Opening(b, "GROUP BY", upper);
      InlineRenders(groups, s1, t1, b, d, upper);
      st' := EmitWord(s1, Join(", ", groups));
      GroupSpelled(t, groups, b, upper);
    }
  }

  lemma InlineRenders(groups: seq<string>, st: State, t: string, b: nat, d: int, upper: bool)
    requires Sits(st, t, b, d, upper) && st.clause == "GROUP BY"
    requires IsSimpleList(NameToks(groups)) && CopyAll(Items(NameToks(groups)), upper) == groups
    ensures FlushComma(st) == st
    ensures RenderGroup(Group(IdList, NameToks(groups)), st) == EmitWord(st, Join(", ", groups))
    ensures Sits(EmitWord(st, Join(", ", groups)), t + Gap(st) + Join(", ", groups), b, d, upper)
    ensures EmitWord(st, Join(", ", groups)).space
  {
    hide IsSimpleList, Items, CopyAll, Join, NameToks;
    WordSits(st, Join(", ", groups), t, b, d, upper);
  }

  lemma GroupSpelled(t: string, groups: seq<string>, b: nat, upper: bool)
    requires groups != []
    ensures t + "\n" + Opening(b, "GROUP BY", upper) + "" + Join(", ", groups) == t + GroupText(groups, b, upper)
  {
    hide Cased, Join, Normalize, Classify, IndexOf, Spaces;
    GroupByIs();
    GroupParts(t, Spaces(6 * b + 2), Cased("GROUP BY", upper), Join(", ", groups));
  }

  lemma GroupParts(t: string, sp: string, kw: string, names: string)
    ensures t + "\n" + (sp + kw + " ") + "" + names == t + ("\n" + sp + kw + " " + names)
  {
  }

  // ---------------------------------------------------------------------
  // Joins
  // ---------------------------------------------------------------------

  lemma JoinKind(kind: string)
    requires kind in JOINS && Normalize(kind) == kind
    ensures Alone(Kw(kind), kind) && Classify(kind) == JoinOp
  {
    hide Normalize;
  }

  lemma OnIs()
    ensures Alone(Kw("ON"), "ON") && Classify("ON") == On && IndexOf("ON", ' ') == 2
  {
    hide Normalize;
    CapitalsNormal("ON");
    NoBlank("ON");
  }

  lemma {:induction false} NoBlank(w: string)
    requires ' ' !in w
    ensures IndexOf(w, ' ') == |w|
  {
    if w != "" {
      NoBlank(w[1..]);
    }
  }

  // A keyword that opens a line, a blank, and what comes next.
  lemma JoinLikeRuns(w: string, kind: KeywordKind, rest: Tokens, st: State, t: string, b: nat, d: int, upper: bool)
    returns (s1: State)
    requires Alone(Kw(w), w) && Classify(w) == kind && kind in {JoinOp, Logical, On} && IndexOf(w, ' ') <= 7
    requires Sits(st, t, b, d, upper)
    ensures Run([BLANK, Kw(w), BLANK] + rest, st) == Run(rest, s1)
    ensures Sits(s1, t + "\n" + Opening(b, w, upper), b, d, upper) && !s1.space
  {
    hide Run, Normalize, Classify, Opening, KeywordText, EmitJoinLike;
    assert [BLANK, Kw(w), BLANK] + rest == [BLANK] + ([Kw(w)] + ([BLANK] + rest));
    BlankRuns([Kw(w)] + ([BLANK] + rest), st);
    KeyRuns(Kw(w), w, kind, [BLANK] + rest, st);
    s1 := EmitJoinLike(st.(comma := false), KeywordText(w, upper));
    JoinLikeSits(st, w, t, b, d, upper);
    BlankRuns(rest, s1);
  }

  lemma LinkRuns(l: Link, rest: Tokens, st: State, t: string, b: nat, d: int, upper: bool) returns (st': State)
    requires LinkOk(l) && Sits(st, t, b, d, upper)
    ensures Run(LinkToks([l]) + rest, st) == Run(rest, st')
    ensures Sits(st', t + LinkText([l], b, upper), b, d, upper) && st'.space
  {
    hide Run, Normalize, Classify, Opening, Sits, Wordy;
    JoinKind(l.kind);
    OnIs();
    OneLink(l, rest);
    var on := [BLANK, Kw("ON"), BLANK] + ([Name(l.on)] + rest);
    var s1 := JoinLikeRuns(l.kind, JoinOp, [Name(l.name)] + on, st, t, b, d, upper);
    var t1 := t + "\n" + Opening(b, l.kind, upper);
    var s2 := NameRuns(l.name, on, s1, t1, b, d, upper);
    var t2 := t1 + "" + l.name;
    var s3 := JoinLikeRuns("ON", On, [Name(l.on)] + rest, s2, t2, b, d, upper);
    st' := NameRuns(l.on, rest, s3, t2 + "\n" + Opening(b, "ON", upper), b, d, upper);
    LinkSpelled(t, l, b, upper);
  }

  lemma OneLink(l: Link, rest: Tokens)
    ensures LinkToks([l]) + rest ==
      [BLANK, Kw(l.kind), BLANK] + ([Name(l.name)] + ([BLANK, Kw("ON"), BLANK] + ([Name(l.on)] + rest)))
  {
    assert [l][1..] == [] && LinkToks([]) == [];
  }

  lemma LinkSpelled(t: string, l: Link, b: nat, upper: bool)
    ensures
      t + "\n" + Opening(b, l.kind, upper) + "" + l.name + "\n" + Opening(b, "ON", upper) + "" + l.on ==
      t + LinkText([l], b, upper)
  {
    hide Cased;
    NoBlank("ON");
    assert [l][1..] == [] && LinkText([], b, upper) == "";
    var o, on := Opening(b, l.kind, upper), Cased("ON", upper);
    assert Opening(b, "ON", upper) == Spaces(6 * b + 5) + on + " ";
    LinkParts(t, o, l.name, Spaces(6 * b + 5), on, l.on);
  }

  lemma LinkParts(t: string, o: string, name: string, sp: string, on: string, cond: string)
    ensures t + "\n" + o + "" + name + "\n" + (sp + on + " ") + "" + cond ==
      t + ("\n" + o + name + ("\n" + sp) + on + " " + cond + "")
  {
  }

  lemma {:induction false} LinksRun(links: seq<Link>, rest: Tokens, st: State, t: string, b: nat, d: int, upper: bool)
    returns (st': State)
    requires forall k :: 0 <= k < |links| ==> LinkOk(links[k])
    requires Sits(st, t, b, d, upper) && st.space
    ensures Run(LinkToks(links) + rest, st) == Run(rest, st')
    ensures Sits(st', t + LinkText(links, b, upper), b, d, upper) && st'.space
    decreases |links|
  {
    hide Run, LinkOk, Sits, Opening, Cased, Line;
    if links == [] {
      assert LinkToks(links) + rest == rest && t + "" == t;
      st' := st;
    } else {
      var l, more := links[0], links[1..];
      assert links == [l] + more && LinkOk(l);
      LinksSplit(l, more, rest, b, upper);
      var s1 := LinkRuns(l, LinkToks(more) + rest, st, t, b, d, upper);
      st' := LinksRun(more, rest, s1, t + LinkText([l], b, upper), b, d, upper);
      assert t + LinkText([l], b, upper) + LinkText(more, b, upper) == t + (LinkText([l], b, upper) +
        LinkText(more, b, upper));
    }
  }

  lemma LinksSplit(l: Link, more: seq<Link>, rest: Tokens, b: nat, upper: bool)
    ensures LinkToks([l] + more) + rest == LinkToks([l]) + (LinkToks(more) + rest)
    ensures LinkText([l] + more, b, upper) == LinkText([l], b, upper) + LinkText(more, b, upper)
  {
    hide Opening, Cased, Line;
    assert ([l] + more)[1..] == more && [l][1..] == [] && LinkToks([]) == [];
    assert LinkToks([l]) + LinkToks(more) == LinkToks([l] + more);
    assert LinkText([], b, upper) == "";
  }

  // ---------------------------------------------------------------------
  // The tokens of a query
  // ---------------------------------------------------------------------

  // No bare parenthesis and no BETWEEN.
  predicate Harmless(toks: Tokens) {
    Unbound(toks) && forall k :: 0 <= k < |toks| ==> !IsParen(toks[k])
  }

  lemma HarmlessJoined(a: Tokens, b: Tokens)
    requires Harmless(a) && Harmless(b)
    ensures Harmless(a + b)
  {
    hide Unbound;
    UnboundJoined(a, b);
  }

  lemma OneHarmless(tok: Node)
    requires tok.Group? || tok == BLANK || (tok.Leaf? && tok.kind.OtherLeaf?)
      || (IsKeyword(tok) && Normalize(tok.value) == tok.value != "BETWEEN")
    ensures Harmless([tok])
  {
    hide Normalize;
  }

  lemma {:induction false} LinksHarmless(links: seq<Link>)
    requires forall k :: 0 <= k < |links| ==> LinkOk(links[k])
    ensures Harmless(LinkToks(links))
  {
    hide Normalize, Harmless, Wordy, LinkOk;
    if links == [] {
      NothingHarmless();
    } else {
      var l := links[0];
      assert LinkOk(l);
      LinksHarmless(links[1..]);
      LinkWords(l);
      LinkHarmless(l);
      HarmlessJoined([BLANK, Kw(l.kind), BLANK, Name(l.name), BLANK, Kw("ON"), BLANK, Name(l.on)],
        LinkToks(links[1..]));
    }
  }

  lemma LinkWords(l: Link)
    requires LinkOk(l)
    ensures Normalize(l.kind) == l.kind != "BETWEEN" && Normalize("ON") == "ON" != "BETWEEN"
  {
    hide Normalize, Wordy, Classify, IndexOf;
    OnIs();
    assert "BETWEEN" !in JOINS && |"ON"| == 2 && |"BETWEEN"| == 7;
  }

  lemma NothingHarmless()
    ensures Harmless([])
  {
  }

  lemma LinkHarmless(l: Link)
    requires Normalize(l.kind) == l.kind != "BETWEEN" && Normalize("ON") == "ON" != "BETWEEN"
    ensures Harmless([BLANK, Kw(l.kind), BLANK, Name(l.name), BLANK, Kw("ON"), BLANK, Name(l.on)])
  {
    hide Normalize;
  }

  predicate InCapitals(w: string) {
    w != "" && forall i :: 0 <= i < |w| ==> 'A' <= w[i] <= 'Z'
  }

  lemma CapitalWord(w: string)
    requires InCapitals(w)
    ensures Normalize(w) == w && Upper(w) == w && IndexOf(w, ' ') == |w| && '\n' !in w && Shows(w)
  {
    hide Normalize, Goes, StartsVisibly;
    assert forall c :: c in w ==> 'A' <= c <= 'Z';
    CapitalsNormal(w);
    NoBlank(w);
    NormalShows(w);
    CapitalsStay(w);
  }

  lemma CapitalsStay(w: string)
    requires InCapitals(w)
    ensures Upper(w) == w
  {
  }

  lemma ClauseKind(w: string)
    requires w in {"SELECT", "FROM", "WHERE"}
    ensures Classify(w) == Clause && w !in COMPOUND_HEADS && w != "BETWEEN" && |w| <= 7
  {
  }

  lemma ClauseCapitals(w: string)
    requires w in {"SELECT", "FROM", "WHERE"}
    ensures InCapitals(w)
  {
  }

  lemma ClauseWord(w: string)
    requires w in {"SELECT", "FROM", "WHERE"}
    ensures Normalize(w) == w && w !in COMPOUND_HEADS && w != "BETWEEN"
    ensures Classify(w) == Clause && IndexOf(w, ' ') == |w| <= 7 && Upper(w) == w && '\n' !in w && Shows(w)
  {
    hide Normalize, Classify, InCapitals, Upper, IndexOf, Goes, StartsVisibly;
    ClauseKind(w);
    ClauseCapitals(w);
    CapitalWord(w);
  }

  lemma LogicalKind(w: string)
    requires w in {"AND", "OR"}
    ensures Classify(w) == Logical && w !in COMPOUND_HEADS && w != "BETWEEN" && |w| <= 7 && InCapitals(w)
  {
  }

  lemma LogicalWord(w: string)
    requires w in {"AND", "OR"}
    ensures Normalize(w) == w && w !in COMPOUND_HEADS && w != "BETWEEN"
    ensures Classify(w) == Logical && IndexOf(w, ' ') == |w| <= 7 && '\n' !in w && Shows(w)
  {
    hide Normalize, Classify, InCapitals, Upper, IndexOf, Goes, StartsVisibly;
    LogicalKind(w);
    CapitalWord(w);
  }

  lemma SourceIsGroup(s: Source)
    ensures SourceNode(s).Group?
  {
  }

  lemma {:induction false} QueryHarmless(q: Query)
    requires QueryOk(q)
    ensures Harmless(QueryToks(q))
    decreases q
  {
    hide Normalize, Harmless, LinkOk, FilterOk, SourceOk, ItemOk, Classify, ItemToks, SourceNode, LinkToks, FilterToks,
      GroupToks, TailToks, Wordy;
    SourceIsGroup(q.source);
    HeadHarmless(q);
    LinksHarmless(q.links);
    FilterHarmless(q.filter);
    GroupsHarmless(q.groups);
    TailHarmless(q.tail);
    HarmlessJoined(GroupToks(q.groups), TailToks(q.tail));
    HarmlessJoined(FilterToks(q.filter), GroupToks(q.groups) + TailToks(q.tail));
    HarmlessJoined(LinkToks(q.links), FilterToks(q.filter) + (GroupToks(q.groups) + TailToks(q.tail)));
    HarmlessJoined([SELECT, BLANK, Group(IdList, ItemToks(q.items)), BLANK, Kw("FROM"), BLANK, SourceNode(q.source)],
      LinkToks(q.links) + (FilterToks(q.filter) + (GroupToks(q.groups) + TailToks(q.tail))));
  }

  lemma HeadHarmless(q: Query)
    requires SourceNode(q.source).Group?
    ensures Harmless([SELECT, BLANK, Group(IdList, ItemToks(q.items)), BLANK, Kw("FROM"), BLANK, SourceNode(q.source)])
  {
    hide Normalize, Classify, ItemToks, SourceNode, Harmless, Upper, IndexOf, Goes, StartsVisibly;
    var list, source := Group(IdList, ItemToks(q.items)), SourceNode(q.source);
    ClauseWord("SELECT");
    ClauseWord("FROM");
    ThreeHarmless(SELECT, list);
    ThreeHarmless(Kw("FROM"), source);
    OneHarmless(BLANK);
    HarmlessJoined([SELECT, BLANK, list], [BLANK]);
    HarmlessJoined([SELECT, BLANK, list] + [BLANK], [Kw("FROM"), BLANK, source]);
    assert [SELECT, BLANK, list] + [BLANK] + [Kw("FROM"), BLANK, source] ==
      [SELECT, BLANK, list, BLANK, Kw("FROM"), BLANK, source];
  }

  lemma ThreeHarmless(tok: Node, node: Node)
    requires IsKeyword(tok) && Normalize(tok.value) == tok.value != "BETWEEN" && node.Group?
    ensures Harmless([tok, BLANK, node])
  {
    hide Normalize;
  }

  lemma FilterHarmless(f: Filter)
    ensures Harmless(FilterToks(f))
  {
    hide Normalize, MoreToks, CondNode;
  }

  lemma GroupsHarmless(groups: seq<string>)
    ensures Harmless(GroupToks(groups))
  {
    hide Normalize, NameToks, Classify;
    GroupByIs();
    assert |"GROUP BY"| == 8 && |"BETWEEN"| == 7;
  }

  lemma {:induction false} TailHarmless(tail: Tail)
    requires TailOk(tail)
    ensures Harmless(TailToks(tail))
    decreases tail
  {
    hide Normalize, Harmless, QueryOk, QueryToks;
    match tail
    case Last => NothingHarmless();
    case Then(op, q) =>
      QueryHarmless(q);
      OpHarmless(op);
      HarmlessJoined([BLANK, Kw(op), BLANK], QueryToks(q));
  }

  lemma OpHarmless(op: string)
    requires op in SET_OPS && Normalize(op) == op
    ensures Harmless([BLANK, Kw(op), BLANK])
  {
    hide Normalize;
    assert "BETWEEN" !in SET_OPS;
  }

  // ---------------------------------------------------------------------
  // Columns of embedded queries
  // ---------------------------------------------------------------------

  lemma {:induction false} ColumnMore(t: string, v: string)
    requires '\n' !in v
    ensures CurrentColumn(t + v) == CurrentColumn(t) + |v|
  {
    if v == "" {
      assert t + v == t;
    } else {
      var u := v[..|v| - 1];
      assert (t + v)[..|t + v| - 1] == t + u;
      assert v[|v| - 1] in v;
      ColumnMore(t, u);
    }
  }

  lemma ColumnBehind(t: string, b: nat, w: string, upper: bool)
    requires IndexOf(w, ' ') == |w| <= 7 && Shows(w) && '\n' !in w
    ensures CurrentColumn(t + "\n" + Opening(b, w, upper)) == 6 * b + 8
  {
    hide Goes, StartsVisibly;
    var o := Opening(b, w, upper);
    assert '\n' !in Cased(w, upper) by {
      assert forall i :: 0 <= i < |w| ==> w[i] in w && w[i] != '\n';
    }
    assert '\n' !in o && |o| == 6 * b + 8;
    assert CurrentColumn(t + "\n") == 0;
    ColumnMore(t + "\n", o);
  }

  // A layout moved to its column, without the indentation of its first line.
  lemma MovedBody(q: Query, column: nat, upper: bool)
    requires QueryOk(q)
    ensures Separation.Body(Lay(q, 0, upper), column) == Reindent(Lay(q, 0, upper)[1..], column)
  {
    hide Lay, QueryOk, Reindent, Lines, Separation.Indented, Smooth;
    var body := LayShows(q, 0, upper);
    var s := Lay(q, 0, upper);
    assert s == " " + body && s[1..] == body;
    Squeezing.ReindentLines(s, column);
    ReindentAppend(" ", body, column);
    ReindentNothing(" ", column);
    var lines := Lines(s);
    var rest := Separation.Indented(lines[1..], column);
    assert lines[0] + rest == " " + Reindent(body, column);
    FirstStarts(s);
    TrimmedFirst(lines[0], body);
    assert (lines[0] + rest)[1..] == lines[0][1..] + rest;
    assert (" " + Reindent(body, column))[1..] == Reindent(body, column);
  }

  lemma FirstStarts(s: string)
    ensures Lines(s)[0] <= s && (|Lines(s)[0]| < |s| ==> s[|Lines(s)[0]|] == '\n')
  {
  }

  lemma TrimmedFirst(first: string, body: string)
    requires StartsVisibly(body) && first <= " " + body && (|first| < |body| + 1 ==> (" " + body)[|first|] == '\n')
    ensures |first| > 1 && TrimLeft(first) == first[1..]
  {
    var s := " " + body;
    assert s[0] == ' ' && s[1] == body[0];
    assert |first| > 1;
    assert first[0] == ' ' && first[1] == body[0];
    assert first[1..][0] == body[0];
  }

  // ---------------------------------------------------------------------
  // Queries
  // ---------------------------------------------------------------------

  // The statement before its clean-up is its layout.
  lemma {:induction false} QueryRuns(q: Query, st: State, t: string, b: nat, d: nat, upper: bool)
    returns (st': State)
    requires QueryOk(q) && d + Nesting(q) <= 30 && Ready(st, t, b, d, upper)
    ensures RenderList(QueryToks(q), st) == st'
    ensures Ready(st', t + (After(t) + Lay(q, b, upper)), st'.block, d, upper) && !st'.comma
    decreases q, 2
  {
    hide Run, Ready, QueryToks, Lay, Nesting, RenderList, Harmless;
    QueryHarmless(q);
    assert Unbound(QueryToks(q)) by { Unbinds(QueryToks(q)); }
    ListRuns(QueryToks(q), st);
    st' := PartsRun(q, st, t, b, d, upper);
  }

  lemma Unbinds(toks: Tokens)
    requires Harmless(toks)
    ensures Unbound(toks)
  {
    hide Unbound;
  }

  // SELECT and its items.
  lemma SelectRuns(items: seq<Item>, rest: Tokens, st: State, t: string, b: nat, d: nat, upper: bool)
    returns (st': State)
    requires items != [] && forall k :: 0 <= k < |items| ==> ItemOk(items[k])
    requires Ready(st, t, b, d, upper)
    ensures Run([SELECT, BLANK, Group(IdList, ItemToks(items)), BLANK] + rest, st) == Run(rest, st')
    ensures Sits(st', t + After(t) + Opening(b, "SELECT", upper) + ItemsText(items, 6 * b + 8), b, d, upper)
    ensures st'.space
  {
    hide Run, Normalize, Classify, EmitClause, Opening, ItemToks, ItemsText, ItemOk, Sits, Ready;
    var list := Group(IdList, ItemToks(items));
    Chain(SELECT, BLANK, list, BLANK, rest);
    ClauseWord("SELECT");
    KeyRuns(SELECT, "SELECT", Clause, [BLANK] + ([list] + ([BLANK] + rest)), st);
    var s1 := EmitClause(st.(comma := false), KeywordText("SELECT", upper));
    CaseOf(st, t, b, d, upper);
    ClauseSits(st, "SELECT", t, b, d, upper);
    BlankRuns([list] + ([BLANK] + rest), s1);
    GroupRuns(list, [BLANK] + rest, s1);
    NoCommaFlush(s1, t + After(t) + Opening(b, "SELECT", upper), b, d, upper);
    st' := SelectList(items, s1, t + After(t) + Opening(b, "SELECT", upper), b, d, upper);
    BlankRuns(rest, st');
  }

  lemma CaseOf(st: State, t: string, b: int, d: int, upper: bool)
    requires Ready(st, t, b, d, upper)
    ensures st.uppercase == upper
  {
  }

  lemma NoCommaFlush(st: State, t: string, b: int, d: int, upper: bool)
    requires Sits(st, t, b, d, upper)
    ensures FlushComma(st) == st && Ready(st, t, b, d, upper)
  {
  }

  // FROM and its source.
  lemma FromRuns(source: Source, rest: Tokens, st: State, t: string, b: nat, d: nat, upper: bool)
    returns (st': State)
    requires SourceOk(source) && Sits(st, t, b, d, upper)
    requires source.Derived? ==> d + 1 + Nesting(source.query) <= 30
    ensures Run([Kw("FROM"), BLANK, SourceNode(source)] + rest, st) == Run(rest, st')
    ensures Sits(st', t + "\n" + Opening(b, "FROM", upper) + SourceText(source, b, upper), b, d, upper) && st'.space
    decreases source, 3
  {
    hide Run, Normalize, Classify, EmitClause, Opening, SourceText, SourceOk, Sits, Ready, SourceNode, Nesting,
      RenderGroup;
    var node := SourceNode(source);
    assert [Kw("FROM"), BLANK, node] + rest == [Kw("FROM")] + ([BLANK] + ([node] + rest));
    ClauseWord("FROM");
    KeyRuns(Kw("FROM"), "FROM", Clause, [BLANK] + ([node] + rest), st);
    var s1 := EmitClause(st.(comma := false), KeywordText("FROM", upper));
    NoCommaFlush(st, t, b, d, upper);
    CaseOf(st, t, b, d, upper);
    ClauseSits(st, "FROM", t, b, d, upper);
    assert After(t) == "\n" by { TextThere(st, t, b, d, upper); }
    var t1 := t + "\n" + Opening(b, "FROM", upper);
    BlankRuns([node] + rest, s1);
    SourceIsGroup(source);
    GroupRuns(node, rest, s1);
    NoCommaFlush(s1, t1, b, d, upper);
    st' := SourceRenders(source, s1, t1, b, d, upper);
  }

  lemma TextThere(st: State, t: string, b: int, d: int, upper: bool)
    requires Sits(st, t, b, d, upper)
    ensures t != ""
  {
  }

  lemma SourceRenders(source: Source, st: State, t: string, b: nat, d: nat, upper: bool) returns (st': State)
    requires SourceOk(source) && Sits(st, t, b, d, upper) && !st.space
    requires source.Derived? ==> d + 1 + Nesting(source.query) <= 30
    ensures RenderGroup(SourceNode(source), st) == st'
    ensures Sits(st', t + SourceText(source, b, upper), b, d, upper) && st'.space
    decreases source, 2
  {
    hide RenderGroup, Wordy, Lay, QueryOk, Nesting, Sits, Paren;
    match source
    case Table(name) =>
      NameRenders(name, st, t, b, d, upper);
      st' := EmitWord(st, name);
      assert t + "" + name == t + name;
    case Derived(q, name) =>
      DerivedRenders(q, name, st, t, b, d, upper);
      var s1 := ParenRenders(q, st, t, b, d, upper);
      var t1 := t + ("" + ("(\n" + Lay(q, b + 1, upper) + Line(6 * b + 8) + ")"));
      WordSits(s1, name, t1, b, d, upper);
      st' := EmitWord(s1, name);
      assert t1 + " " + name == t + SourceText(source, b, upper) by {
        SourceParts(t, "(\n" + Lay(q, b + 1, upper) + Line(6 * b + 8), name);
      }
  }

  lemma SourceParts(t: string, x: string, name: string)
    ensures t + ("" + (x + ")")) + " " + name == t + (x + ") " + name)
  {
  }

  // An aliased subquery: the subquery, a blank, the alias.
  lemma DerivedRenders(q: Query, name: string, st: State, t: string, b: int, d: int, upper: bool)
    requires QueryOk(q) && Sits(st, t, b, d, upper)
    ensures
      var s1 := RenderGroup(Paren(q), st);
      RenderGroup(SourceNode(Derived(q, name)), st) == EmitWord(FlushComma(s1), name)
  {
    hide Run, EmitWord, FlushComma, QueryOk, RenderFrom, HasSelect;
    var leaf := Leaf(OtherLeaf, name);
    var kids := [Paren(q), BLANK, leaf];
    ParenIsSubquery(q);
    assert IsSubquery(kids[0]) && IdentNeedsRecursion(kids);
    assert kids == [Paren(q)] + ([BLANK] + ([leaf] + []));
    GroupsUnbound(kids);
    ListRuns(kids, st);
    var s0 := FlushComma(st);
    assert s0 == st by { NoCommaFlush(st, t, b, d, upper); }
    GroupRuns(Paren(q), [BLANK] + ([leaf] + []), st);
    var s1 := RenderGroup(Paren(q), s0);
    BlankRuns([leaf] + [], s1);
    LeafRuns(name, [], s1);
    NothingRuns(EmitWord(FlushComma(s1), name));
  }

  lemma ParenIsSubquery(q: Query)
    ensures IsSubquery(Paren(q)) && HasSelect(Paren(q).kids, 5)
  {
    hide Normalize;
    var kids := Paren(q).kids;
    assert QueryToks(q)[0] == SELECT by { QueryStarts(q); }
    assert kids[1] == SELECT;
    ClauseWord("SELECT");
  }

  lemma QueryStarts(q: Query)
    ensures QueryToks(q) != [] && QueryToks(q)[0] == SELECT
  {
    hide ItemToks, SourceNode, LinkToks, FilterToks, GroupToks, TailToks;
  }

  // A subquery is one block deeper than the query around it, which goes on where it was.
  lemma ParenRenders(q: Query, st: State, t: string, b: nat, d: nat, upper: bool) returns (st': State)
    requires QueryOk(q) && d + 1 + Nesting(q) <= 30 && Sits(st, t, b, d, upper)
    ensures RenderGroup(Paren(q), st) == st'
    ensures Sits(st', t + (Gap(st) + ("(\n" + Lay(q, b + 1, upper) + Line(6 * b + 8) + ")")), b, d, upper)
    ensures FlushComma(st') == st' && st'.space
    decreases q, 3
  {
    hide QueryOk, Lay, Nesting, RenderList, HasSelect, Run, QueryToks;
    var node := Paren(q);
    ParenIsSubquery(q);
    QueryHarmless(q);
    InnerOfQuery(q);
    var s0 := EnterSubquery(st);
    var t0 := t + Gap(st) + "(";
    assert Ready(s0, t0, b + 1, d + 1, upper);
    var s1 := QueryRuns(q, s0, t0, b + 1, d + 1, upper);
    st' := LeaveSubquery(st, s1);
    assert RenderGroup(node, st) == st';
    assert Indent(st) == Spaces(6 * b + 8);
    ParenParts(t, Gap(st), Lay(q, b + 1, upper), Spaces(6 * b + 8));
  }

  lemma ParenParts(t: string, gap: string, lay: string, sp: string)
    ensures t + gap + "(" + ("\n" + lay) + ("\n" + sp + ")") == t + (gap + ("(\n" + lay + ("\n" + sp) + ")"))
  {
  }

  lemma InnerOfQuery(q: Query)
    requires Harmless(QueryToks(q))
    ensures Inner(Paren(q).kids) == QueryToks(q)
  {
    hide QueryToks, Unbound;
    var toks := QueryToks(q);
    var kids := Paren(q).kids;
    assert kids[1..|kids| - 1] == toks;
    forall k | 0 < k < |kids| - 1 ensures !IsParen(kids[k]) {
      assert kids[k] == toks[k - 1];
    }
    Preservation.InnerOfPaired(kids);
  }

  // A condition that starts eight columns right of its block.
  lemma CondRenders(c: Cond, st: State, t: string, b: nat, d: nat, upper: bool) returns (st': State)
    requires CondOk(c) && Sits(st, t, b, d, upper) && !st.space && CurrentColumn(t) == 6 * b + 8
    ensures RenderGroup(CondNode(c), st) == st'
    ensures Sits(st', t + CondText(c, 6 * b + 8, upper), b, d, upper) && st'.space
    decreases c, 3
  {
    hide RenderGroup, Wordy, Lay, QueryOk, Nesting, Sits, Paren, IsSimpleSubquery, FormatTokens, Reindent,
      CurrentColumn;
    match c
    case Fact(w) =>
      NameRenders(w, st, t, b, d, upper);
      st' := EmitWord(st, w);
      assert t + "" + w == t + w;
    case Compared(w, q) =>
      QueryLaidOut(q, upper);
      st' := ComparisonRenders(w, q, st, t, b, d, upper);
      MovedBody(q, 6 * b + 8 + |w| + 3, upper);
      ComparisonParts(t, w, Separation.Body(Lay(q, 0, upper), 6 * b + 8 + |w| + 3));
  }

  lemma ComparisonParts(t: string, w: string, body: string)
    ensures t + "" + w + " " + "=" + " " + ("(" + body + ")") == t + (w + " = (" + body + ")")
  {
  }

  lemma ComparisonRenders(w: string, q: Query, st: State, t: string, b: nat, d: nat, upper: bool)
    returns (st': State)
    requires CondOk(Compared(w, q)) && Sits(st, t, b, d, upper) && !st.space && CurrentColumn(t) == 6 * b + 8
    ensures RenderGroup(CondNode(Compared(w, q)), st) == st'
    ensures
      var body := Separation.Body(FormatTokens(QueryToks(q), upper), 6 * b + 8 + |w| + 3);
      Sits(st', t + "" + w + " " + "=" + " " + ("(" + body + ")"), b, d, upper)
    ensures st'.space
  {
    hide Wordy, Lay, QueryOk, Nesting, IsSimpleSubquery, FormatTokens, CurrentColumn, Separation.Body, QueryToks,
      EmitEmbedded, CopyText, HasSelect;
    var kids := CondNode(Compared(w, q)).kids;
    QueryHarmless(q);
    InnerOfQuery(q);
    FirstOfFive(w, q);
    var left := kids[..4];
    assert left == [Name(w), BLANK, Leaf(OtherLeaf, "="), BLANK];
    LeftRenders(w, st, upper);
    WordSits(st, w, t, b, d, upper);
    var s1 := EmitWord(st, w);
    WordSits(s1, "=", t + "" + w, b, d, upper);
    var s0 := FlushSpace(EmitWord(s1, "="));
    assert s0.text == t + "" + w + " " + "=" + " ";
    assert CurrentColumn(s0.text) == 6 * b + 8 + |w| + 3 by {
      assert t + "" + w + " " + "=" + " " == t + (w + " = ");
      NoFeed(w);
      ColumnMore(t, w + " = ");
    }
    Separation.EmbeddedText(s0, FormatTokens(QueryToks(q), upper), CurrentColumn(s0.text));
    st' := EmitEmbedded(s0, FormatTokens(QueryToks(q), upper), CurrentColumn(s0.text));
    assert RenderGroup(CondNode(Compared(w, q)), st) == st';
  }

  lemma NoFeed(w: string)
    requires Wordy(w)
    ensures '\n' !in w
  {
  }

  lemma FirstOfFive(w: string, q: Query)
    ensures FirstSubquery(CondNode(Compared(w, q)).kids) == 4
  {
    hide HasSelect;
    ParenIsSubquery(q);
    var kids := CondNode(Compared(w, q)).kids;
    assert kids[4] == Paren(q) && |kids| == 5;
    assert !IsSubquery(kids[0]) && !IsSubquery(kids[1]) && !IsSubquery(kids[2]) && !IsSubquery(kids[3]);
    var i := FirstSubquery(kids);
    assert i <= 4;
  }

  lemma LeftRenders(w: string, st: State, upper: bool)
    requires Wordy(w) && st.uppercase == upper
    ensures EmitComparisonLeft([Name(w), BLANK, Leaf(OtherLeaf, "="), BLANK], st) == EmitWord(EmitWord(st, w), "=")
  {
    hide CopyText, Wordy, EmitWord, EmitOperand, EmitComparisonLeft;
    NameCopied(w, upper);
    var equals := Leaf(OtherLeaf, "=");
    var s1 := EmitWord(st, w);
    NameOperand(w, st, upper);
    OperandStep(Name(w), [BLANK, equals, BLANK], st);
    assert [Name(w)] + [BLANK, equals, BLANK] == [Name(w), BLANK, equals, BLANK];
    OperandStep(BLANK, [equals, BLANK], s1);
    assert [BLANK] + [equals, BLANK] == [BLANK, equals, BLANK];
    OperandStep(equals, [BLANK], s1);
    assert [equals] + [BLANK] == [equals, BLANK];
    var s2 := EmitWord(s1, "=");
    OperandStep(BLANK, [], s2);
    assert [BLANK] + [] == [BLANK];
    LeafOperands(s1);
    LeafOperands(s2);
  }

  lemma OperandStep(tok: Node, rest: Tokens, st: State)
    ensures EmitComparisonLeft([tok] + rest, st) == EmitComparisonLeft(rest, EmitOperand(tok, st))
    ensures EmitComparisonLeft([], st) == st && EmitComparisonLeft([], EmitOperand(tok, st)) == EmitOperand(tok, st)
  {
    hide EmitOperand;
    assert ([tok] + rest)[1..] == rest;
  }

  lemma NameOperand(w: string, st: State, upper: bool)
    requires CopyText(Name(w), upper) == w && st.uppercase == upper
    ensures EmitOperand(Name(w), st) == EmitWord(st, w)
  {
    hide CopyText;
  }

  lemma LeafOperands(st: State)
    ensures EmitOperand(BLANK, st) == st && EmitOperand(Leaf(OtherLeaf, "="), st) == EmitWord(st, "=")
  {
  }

  // The conditions behind AND and OR.
  lemma {:induction false} MoreRun(more: seq<Further>, st: State, t: string, b: nat, d: nat, upper: bool)
    returns (st': State)
    requires (forall k :: 0 <= k < |more| ==> FurtherOk(more[k])) && Sits(st, t, b, d, upper) && st.space
    ensures Run(MoreToks(more), st) == st'
    ensures Sits(st', t + MoreText(more, b, upper), b, d, upper) && st'.space
    decreases more, 4
  {
    hide Run, Sits, CondOk, CondNode, CondText, Opening, RenderGroup, Normalize, Classify, Goes, StartsVisibly,
      CurrentColumn, Cased, Line;
    if more == [] {
      NothingRuns(st);
      assert t + "" == t;
      st' := st;
    } else {
      var f, rest := more[0], more[1..];
      assert FurtherOk(f);
      LogicalWord(f.op);
      var node := CondNode(f.cond);
      var later := [node] + MoreToks(rest);
      assert MoreToks(more) == [BLANK, Kw(f.op), BLANK] + later;
      var s1 := JoinLikeRuns(f.op, Logical, later, st, t, b, d, upper);
      var t1 := t + "\n" + Opening(b, f.op, upper);
      assert node.Group? by { CondIsGroup(f.cond); }
      GroupRuns(node, MoreToks(rest), s1);
      NoCommaFlush(s1, t1, b, d, upper);
      ColumnBehind(t, b, f.op, upper);
      var s2 := CondRenders(f.cond, s1, t1, b, d, upper);
      var text := CondText(f.cond, 6 * b + 8, upper);
      st' := MoreRun(rest, s2, t1 + text, b, d, upper);
      MoreSpelled(t, f.op, text, MoreText(rest, b, upper), b, upper);
    }
  }

  lemma CondIsGroup(c: Cond)
    ensures CondNode(c).Group?
  {
  }

  lemma MoreSpelled(t: string, op: string, text: string, rest: string, b: nat, upper: bool)
    requires IndexOf(op, ' ') == |op| <= 7
    ensures t + "\n" + Opening(b, op, upper) + text + rest ==
      t + (Line(6 * b + Room(|op|)) + Cased(op, upper) + " " + text + rest)
  {
    hide Cased, IndexOf, Spaces, Opening, Line;
    OpeningIs(b, op, upper);
    FurtherParts(t, Opening(b, op, upper), Line(6 * b + Room(|op|)), Spaces(6 * b + Room(|op|)), Cased(op, upper),
      text, rest);
  }

  lemma OpeningIs(b: nat, op: string, upper: bool)
    requires IndexOf(op, ' ') == |op| <= 7
    ensures Opening(b, op, upper) == Spaces(6 * b + Room(|op|)) + Cased(op, upper) + " "
    ensures Line(6 * b + Room(|op|)) == "\n" + Spaces(6 * b + Room(|op|))
  {
    hide Cased, IndexOf, Spaces;
  }

  lemma FurtherParts(t: string, o: string, line: string, sp: string, kw: string, text: string, rest: string)
    requires o == sp + kw + " " && line == "\n" + sp
    ensures t + "\n" + o + text + rest == t + (line + kw + " " + text + rest)
  {
  }

  lemma FilterRuns(f: Filter, rest: Tokens, st: State, t: string, b: nat, d: nat, upper: bool)
    returns (st': State)
    requires FilterOk(f) && Sits(st, t, b, d, upper) && st.space
    ensures Run(FilterToks(f) + rest, st) == Run(rest, st')
    ensures Sits(st', t + FilterText(f, b, upper), b, d, upper) && st'.space
    decreases f, 5
  {
    hide Run, Sits, CondOk, CondNode, CondText, RenderGroup, MoreToks, MoreText, FurtherOk, Line, Cased;
    match f
    case Always =>
      assert FilterToks(f) + rest == rest && t + "" == t;
      st' := st;
    case Only(first, more) =>
      var kids := [Kw("WHERE"), BLANK, CondNode(first)] + MoreToks(more);
      assert FilterToks(f) + rest == [BLANK] + ([Group(Container, kids)] + rest);
      BlankRuns([Group(Container, kids)] + rest, st);
      GroupRuns(Group(Container, kids), rest, st);
      NoCommaFlush(st, t, b, d, upper);
      ContainerRenders(kids, st);
      WhereUnbound(first, more);
      ListRuns(kids, st);
      st' := WhereRuns(first, more, st, t, b, d, upper);
  }

  lemma ContainerRenders(kids: Tokens, st: State)
    ensures RenderGroup(Group(Container, kids), st) == RenderList(kids, st)
  {
    hide RenderList;
  }

  lemma WhereUnbound(first: Cond, more: seq<Further>)
    requires forall k :: 0 <= k < |more| ==> FurtherOk(more[k])
    ensures Unbound([Kw("WHERE"), BLANK, CondNode(first)] + MoreToks(more))
  {
    hide Normalize, CondNode, FurtherOk, MoreToks;
    ClauseWord("WHERE");
    CondIsGroup(first);
    MoreUnbound(more);
    UnboundJoined([Kw("WHERE"), BLANK, CondNode(first)], MoreToks(more));
  }

  lemma {:induction false} MoreUnbound(more: seq<Further>)
    requires forall k :: 0 <= k < |more| ==> FurtherOk(more[k])
    ensures Unbound(MoreToks(more))
  {
    hide Normalize, CondNode, CondOk, Unbound, Classify, Goes, StartsVisibly;
    if more == [] {
      GroupsUnbound([]);
    } else {
      var f := more[0];
      assert FurtherOk(f);
      LogicalWord(f.op);
      CondIsGroup(f.cond);
      MoreUnbound(more[1..]);
      FurtherUnbound(f);
      UnboundJoined([BLANK, Kw(f.op), BLANK, CondNode(f.cond)], MoreToks(more[1..]));
    }
  }

  lemma FurtherUnbound(f: Further)
    requires Normalize(f.op) == f.op != "BETWEEN" && CondNode(f.cond).Group?
    ensures Unbound([BLANK, Kw(f.op), BLANK, CondNode(f.cond)])
  {
    hide Normalize, CondNode;
  }

  lemma WhereRuns(first: Cond, more: seq<Further>, st: State, t: string, b: nat, d: nat, upper: bool)
    returns (st': State)
    requires FilterOk(Only(first, more)) && Sits(st, t, b, d, upper) && st.space
    ensures Run([Kw("WHERE"), BLANK, CondNode(first)] + MoreToks(more), st) == st'
    ensures Sits(st', t + FilterText(Only(first, more), b, upper), b, d, upper) && st'.space
    decreases Only(first, more), 4
  {
    hide Run, Sits, CondOk, CondNode, CondText, RenderGroup, MoreToks, MoreText, FurtherOk, Opening, EmitClause,
      Normalize, Classify, Goes, StartsVisibly, CurrentColumn, Cased, Line;
    var node, rest := CondNode(first), MoreToks(more);
    assert [Kw("WHERE"), BLANK, node] + rest == [Kw("WHERE")] + ([BLANK] + ([node] + rest));
    ClauseWord("WHERE");
    NoCommaFlush(st, t, b, d, upper);
    CaseOf(st, t, b, d, upper);
    TextThere(st, t, b, d, upper);
    KeyRuns(Kw("WHERE"), "WHERE", Clause, [BLANK] + ([node] + rest), st);
    var s1 := EmitClause(st.(comma := false), KeywordText("WHERE", upper));
    ClauseSits(st, "WHERE", t, b, d, upper);
    var t1 := t + "\n" + Opening(b, "WHERE", upper);
    BlankRuns([node] + rest, s1);
    CondIsGroup(first);
    GroupRuns(node, rest, s1);
    NoCommaFlush(s1, t1, b, d, upper);
    ColumnBehind(t, b, "WHERE", upper);
    var s2 := CondRenders(first, s1, t1, b, d, upper);
    var text := CondText(first, 6 * b + 8, upper);
    st' := MoreRun(more, s2, t1 + text, b, d, upper);
    MoreSpelled(t, "WHERE", text, MoreText(more, b, upper), b, upper);
  }

  lemma TailRuns(tail: Tail, st: State, t: string, b: nat, d: nat, upper: bool) returns (st': State)
    requires TailOk(tail) && Sits(st, t, b, d, upper) && st.space
    requires tail.Then? ==> d + Nesting(tail.query) <= 30
    ensures Run(TailToks(tail), st) == st'
    ensures Ready(st', t + TailText(tail, upper), st'.block, d, upper) && !st'.comma
    decreases tail, 4
  {
    hide Run, QueryOk, QueryToks, Lay, Nesting, Normalize, Classify, EmitSetOp, Cased, Line, RenderList, Harmless;
    match tail
    case Last =>
      NothingRuns(st);
      assert t + "" == t;
      st' := st;
    case Then(op, q) =>
      assert TailToks(tail) == [BLANK] + ([Kw(op)] + ([BLANK] + QueryToks(q)));
      BlankRuns([Kw(op)] + ([BLANK] + QueryToks(q)), st);
      SetOpKind(op);
      KeyRuns(Kw(op), op, SetOp, [BLANK] + QueryToks(q), st);
      var s1 := EmitSetOp(st.(comma := false), KeywordText(op, upper));
      SetOpSits(st, op, t, b, d, upper);
      BlankRuns(QueryToks(q), s1);
      QueryHarmless(q);
      Unbinds(QueryToks(q));
      ListRuns(QueryToks(q), s1);
      var t1 := t + Line(Room(IndexOf(op, ' '))) + Cased(op, upper);
      st' := QueryRuns(q, s1, t1, 0, d, upper);
      TailSpelled(t, Line(Room(IndexOf(op, ' '))), Cased(op, upper), Lay(q, 0, upper));
  }

  lemma TailSpelled(t: string, line: string, op: string, lay: string)
    ensures t + line + op + ("\n" + lay) == t + (line + op + "\n" + lay)
  {
  }

  lemma SetOpKind(op: string)
    requires op in SET_OPS && Normalize(op) == op
    ensures Alone(Kw(op), op) && Classify(op) == SetOp
  {
    hide Normalize;
  }

  lemma PartsRun(q: Query, st: State, t: string, b: nat, d: nat, upper: bool) returns (st': State)
    requires QueryOk(q) && d + Nesting(q) <= 30 && Ready(st, t, b, d, upper)
    ensures Run(QueryToks(q), st) == st'
    ensures Ready(st', t + (After(t) + Lay(q, b, upper)), st'.block, d, upper) && !st'.comma
    decreases q, 1
  {
    hide Run, Ready, Sits, Opening, ItemToks, ItemsText, ItemOk, SourceNode, SourceOk, SourceText, LinkToks, LinkOk,
      LinkText, FilterToks, FilterOk, FilterText, GroupToks, GroupText, TailToks, TailText, TailOk, Wordy, Lay;
    var tail := TailToks(q.tail);
    var behindFilter := GroupToks(q.groups) + tail;
    var behindLinks := FilterToks(q.filter) + behindFilter;
    var behindFrom := LinkToks(q.links) + behindLinks;
    var from := [Kw("FROM"), BLANK, SourceNode(q.source)] + behindFrom;
    assert QueryToks(q) == [SELECT, BLANK, Group(IdList, ItemToks(q.items)), BLANK] + from;
    NestingParts(q);
    var s1 := SelectRuns(q.items, from, st, t, b, d, upper);
    var t1 := t + After(t) + Opening(b, "SELECT", upper) + ItemsText(q.items, 6 * b + 8);
    var s2 := FromRuns(q.source, behindFrom, s1, t1, b, d, upper);
    var t2 := t1 + "\n" + Opening(b, "FROM", upper) + SourceText(q.source, b, upper);
    var s3 := LinksRun(q.links, behindLinks, s2, t2, b, d, upper);
    var t3 := t2 + LinkText(q.links, b, upper);
    var s4 := FilterRuns(q.filter, behindFilter, s3, t3, b, d, upper);
    var t4 := t3 + FilterText(q.filter, b, upper);
    var s5 := GroupsRun(q.groups, tail, s4, t4, b, d, upper);
    st' := TailRuns(q.tail, s5, t4 + GroupText(q.groups, b, upper), b, d, upper);
    QuerySpelled(q, t, b, upper);
  }

  lemma NestingParts(q: Query)
    ensures q.source.Derived? ==> 1 + Nesting(q.source.query) <= Nesting(q)
    ensures q.tail.Then? ==> Nesting(q.tail.query) <= Nesting(q)
  {
  }

  lemma QuerySpelled(q: Query, t: string, b: nat, upper: bool)
    ensures
      t + After(t) + Opening(b, "SELECT", upper) + ItemsText(q.items, 6 * b + 8) +
      "\n" + Opening(b, "FROM", upper) + SourceText(q.source, b, upper) +
      LinkText(q.links, b, upper) + FilterText(q.filter, b, upper) + GroupText(q.groups, b, upper) +
      TailText(q.tail, upper)
      == t + (After(t) + Lay(q, b, upper))
  {
    hide Cased, ItemsText, SourceText, LinkText, FilterText, GroupText, TailText, IndexOf, Upper, Normalize, Classify,
      Spaces;
    ClauseWord("SELECT");
    ClauseWord("FROM");
    assert Opening(b, "SELECT", upper) == Spaces(6 * b + 1) + Cased("SELECT", upper) + " ";
    assert Opening(b, "FROM", upper) == Spaces(6 * b + 3) + Cased("FROM", upper) + " ";
    QueryParts(t, After(t), Spaces(6 * b + 1), Cased("SELECT", upper), ItemsText(q.items, 6 * b + 8),
      Spaces(6 * b + 3), Cased("FROM", upper), SourceText(q.source, b, upper),
      LinkText(q.links, b, upper), FilterText(q.filter, b, upper), GroupText(q.groups, b, upper),
      TailText(q.tail, upper));
  }

  lemma QueryParts(t: string, after: string, sp: string, select: string, items: string, sp2: string, from: string,
      source: string, links: string, filter: string, groups: string, tail: string)
    ensures
      t + after + (sp + select + " ") + items + "\n" + (sp2 + from + " ") + source + links + filter + groups + tail ==
      t + (after + (sp + (select + " " + items + ("\n" + sp2) + from + " " + source + links + filter + groups + tail)))
  {
  }

  // Every query is formatted to its layout, if queries nest at most thirty deep in FROM.
  lemma {:induction false} QueryLaidOut(q: Query, upper: bool)
    requires QueryOk(q) && Nesting(q) <= 30
    ensures FormatTokens(QueryToks(q), upper) == Lay(q, 0, upper)
    decreases q, 4
  {
    hide QueryOk, Nesting, Lay, QueryToks, RenderList;
    var st := QueryRuns(q, Start(upper), "", 0, 0, upper);
    assert "" + ("" + Lay(q, 0, upper)) == Lay(q, 0, upper);
    LayIsClean(q, upper);
  }

  // SELECT a, b FROM t WHERE x
  function TwoOf(a: string, b: string, table: string, x: string): Query {
    Query([Plain(a), Plain(b)], Table(table), [], Only(Fact(x), []), [], Last)
  }

  lemma TwoBelow(a: string, b: string, table: string, x: string)
    requires Wordy(a) && Wordy(b) && Wordy(table) && Wordy(x)
    ensures FormatTokens(QueryToks(TwoOf(a, b, table, x)), true) ==
      " SELECT " + a + ",\n        " + b + "\n   FROM " + table + "\n  WHERE " + x
  {
    hide QueryToks, FormatTokens, Lay, Wordy, Nesting, QueryOk;
    var q := TwoOf(a, b, table, x);
    assert QueryOk(q) by { FlatOk(a, b, table, x); }
    assert Nesting(q) == 0 by { FlatNesting(q); }
    QueryLaidOut(q, true);
    ItemsSpelled(a, b);
    LaySpelled(q, a + ",\n        " + b, table, x);
  }

  lemma FlatOk(a: string, b: string, table: string, x: string)
    requires Wordy(a) && Wordy(b) && Wordy(table) && Wordy(x)
    ensures QueryOk(TwoOf(a, b, table, x))
  {
    hide Wordy;
    assert ItemOk(Plain(a)) && ItemOk(Plain(b)) && SourceOk(Table(table)) && CondOk(Fact(x));
  }

  lemma FlatNesting(q: Query)
    requires q.source.Table? && q.tail.Last?
    ensures Nesting(q) == 0
  {
  }

  lemma ItemsSpelled(a: string, b: string)
    ensures ItemsText([Plain(a), Plain(b)], 8) == a + ",\n        " + b
  {
    var more := [Plain(a), Plain(b)][1..];
    assert more == [Plain(b)] && more[1..] == [];
    assert Spaces(8) == "        ";
    assert MoreItemText(more, 8) == "," + Line(8) + b + "";
    assert a + ("," + ("\n" + Spaces(8)) + b + "") == a + ",\n        " + b;
  }

  lemma LaySpelled(q: Query, items: string, table: string, x: string)
    requires ItemsText(q.items, 8) == items && q.source == Table(table) && q.links == [] && q.groups == []
    requires q.filter == Only(Fact(x), []) && q.tail == Last
    ensures Lay(q, 0, true) == " SELECT " + items + "\n   FROM " + table + "\n  WHERE " + x
  {
    hide ItemsText, Spaces;
    assert FilterText(q.filter, 0, true) == "\n" + Spaces(2) + "WHERE" + " " + x + "";
    assert Lay(q, 0, true) == Spaces(1) + ("SELECT" + " " + items + ("\n" + Spaces(3)) + "FROM" + " " + table + "" +
      ("\n" + Spaces(2) + "WHERE" + " " + x + "") + "" + "");
    Indents();
    FlatParts(items, table, x);
  }

  lemma Indents()
    ensures Spaces(3) == "   " && Spaces(2) == "  " && Spaces(1) == " "
  {
  }

  lemma FlatParts(items: string, table: string, x: string)
    ensures " " + ("SELECT" + " " + items + ("\n" + "   ") + "FROM" + " " + table + "" +
      ("\n" + "  " + "WHERE" + " " + x + "") + "" + "") == " SELECT " + items + "\n   FROM " + table + "\n  WHERE " + x
  {
    assert " " + "SELECT" + " " == " SELECT ";
    assert "\n" + "   " + "FROM" + " " == "\n   FROM ";
    assert "\n" + "  " + "WHERE" + " " == "\n  WHERE ";
  }

  // ---------------------------------------------------------------------
  // Subqueries that stay on one line
  // ---------------------------------------------------------------------

  const SPREADING := [" JOIN ", " GROUP BY ", " HAVING ", " ORDER BY ", " LIMIT ", " UNION ", " INTERSECT ",
                      " EXCEPT ", " MINUS "]

  lemma {:induction false} CountsNone(s: string, pat: string)
    requires pat != ""
    ensures Count(s, pat) == 0 <==> !Contains(s, pat)
    decreases |s|
  {
    if s != "" {
      if !(pat <= s) {
        CountsNone(s[1..], pat);
      }
    }
  }

  // A subquery compared with is spread over lines if it joins, groups, orders, limits or
  // combines; otherwise if it has an AND or OR but no BETWEEN, and not if it has neither.
  predicate Spreads(text: string) {
    exists k :: 0 <= k < |SPREADING| && Contains(text, SPREADING[k])
  }

  lemma SpreadsIs(text: string)
    ensures Spreads(text) <==>
      || Contains(text, " JOIN ")
      || Contains(text, " GROUP BY ") || Contains(text, " HAVING ") || Contains(text, " ORDER BY ")
      || Contains(text, " LIMIT ") || Contains(text, " UNION ") || Contains(text, " INTERSECT ")
      || Contains(text, " EXCEPT ") || Contains(text, " MINUS ")
  {
    hide Contains;
    assert SPREADING[0] == " JOIN " && SPREADING[1] == " GROUP BY " && SPREADING[2] == " HAVING ";
    assert SPREADING[3] == " ORDER BY " && SPREADING[4] == " LIMIT " && SPREADING[5] == " UNION ";
    assert SPREADING[6] == " INTERSECT " && SPREADING[7] == " EXCEPT " && SPREADING[8] == " MINUS ";
  }

  lemma SpreadOut(paren: Node)
    ensures
      var text := " " + Upper(Value(paren)) + " ";
      && (Spreads(text) ==> !IsSimpleSubquery(paren))
      && (!Spreads(text) ==>
            && (!Contains(text, " AND ") && !Contains(text, " OR ") ==> IsSimpleSubquery(paren))
            && ((Contains(text, " AND ") || Contains(text, " OR ")) && !Contains(text, " BETWEEN ") ==>
                  !IsSimpleSubquery(paren)))
  {
    hide Contains, Count, Value, Upper, Spreads;
    var text := " " + Upper(Value(paren)) + " ";
    SpreadsIs(text);
    CountsNone(text, " AND ");
    CountsNone(text, " OR ");
    CountsNone(text, " BETWEEN ");
  }

  // ---------------------------------------------------------------------
  // Keywords of two words, and lists that stay on one line
  // ---------------------------------------------------------------------

  // INSERT INTO, DELETE FROM, CONNECT BY and START WITH are one keyword, with any
  // whitespace in between.
  lemma Compounds(first: string, second: string, gap: string, rest: Tokens)
    requires (first, second) in {("INSERT", "INTO"), ("DELETE", "FROM"), ("CONNECT", "BY"), ("START", "WITH")}
    ensures ResolveKeyword([Kw(first), Leaf(Whitespace, gap), Kw(second)] + rest, 0) == (first + " " + second, 2)
    ensures Classify(first + " " + second) == Clause
  {
    hide Normalize, Classify;
    var toks := [Kw(first), Leaf(Whitespace, gap), Kw(second)] + rest;
    CompoundIs(first, second);
    CapitalsNormal(first);
    CapitalsNormal(second);
    assert toks[0] == Kw(first) && toks[1] == Leaf(Whitespace, gap) && toks[2] == Kw(second);
    assert NextVisible(toks, 2) == 2 && NextVisible(toks, 1) == 2;
  }

  lemma CompoundIs(first: string, second: string)
    requires (first, second) in {("INSERT", "INTO"), ("DELETE", "FROM"), ("CONNECT", "BY"), ("START", "WITH")}
    ensures first in COMPOUND_HEADS && first + " " + second in CLAUSES
    ensures Classify(first + " " + second) == Clause && InCapitals(first) && InCapitals(second)
  {
    assert "INSERT" + " " + "INTO" == "INSERT INTO" && "DELETE" + " " + "FROM" == "DELETE FROM";
    assert "CONNECT" + " " + "BY" == "CONNECT BY" && "START" + " " + "WITH" == "START WITH";
  }

  // An expression: a parenthesis, an arithmetic sign or two bars.
  predicate Computes(text: string) {
    || '(' in text || '+' in text || '-' in text || '*' in text || '/' in text
    || exists i :: 0 <= i < |text| - 1 && text[i] == '|' && text[i + 1] == '|'
  }

  lemma {:induction false} TwoBars(s: string)
    ensures Contains(s, "||") <==> exists i :: 0 <= i < |s| - 1 && s[i] == '|' && s[i + 1] == '|'
  {
    if s != "" {
      TwoBars(s[1..]);
      assert "||" <= s <==> |s| >= 2 && s[0] == '|' && s[1] == '|';
      if i :| 0 <= i < |s| - 1 && s[i] == '|' && s[i + 1] == '|' {
        assert i > 0 ==> s[1..][i - 1] == '|' && s[1..][i] == '|';
      }
      if i :| 0 <= i < |s[1..]| - 1 && s[1..][i] == '|' && s[1..][i + 1] == '|' {
        assert s[i + 1] == '|' && s[i + 2] == '|';
      }
    }
  }

  lemma SignsStay(s: string, c: char)
    requires c in "(+-*/|"
    ensures c in Upper(s) <==> c in s
    ensures forall i :: 0 <= i < |s| ==> (Upper(s)[i] == c <==> s[i] == c)
  {
    assert !('A' <= c <= 'Z') && !('a' <= c <= 'z');
    assert forall i :: 0 <= i < |s| ==> (Upper(s)[i] == c <==> s[i] == c);
  }

  lemma PlainItemIs(tok: Node)
    ensures IsPlainItem(tok) <==> !Computes(Value(tok))
  {
    hide Value, Contains, Upper;
    var s := Value(tok);
    var signs := "(+-*/|";
    assert signs[0] == '(' && signs[1] == '+' && signs[2] == '-' && signs[3] == '*' && signs[4] == '/' &&
      signs[5] == '|';
    SignsStay(s, '(');
    SignsStay(s, '+');
    SignsStay(s, '-');
    SignsStay(s, '*');
    SignsStay(s, '/');
    SignsStay(s, '|');
    TwoBars(Upper(s));
  }

  // A list behind GROUP BY or ORDER BY stays on one line if and only if no member is or
  // holds a CASE expression and no item computes anything.
  lemma SimpleListIs(kids: Tokens)
    ensures IsSimpleList(kids) <==>
      forall k :: 0 <= k < |kids| ==> !HasCase(kids[k]) && (IsItem(kids[k]) ==> !Computes(Value(kids[k])))
  {
    hide Computes, IsPlainItem, HasCase, Value;
    forall k | 0 <= k < |kids| ensures IsPlainItem(kids[k]) <==> !Computes(Value(kids[k])) {
      PlainItemIs(kids[k]);
    }
  }

  // ---------------------------------------------------------------------
  // What counts as a subquery
  // ---------------------------------------------------------------------

  // The node at the end of a path of positions.
  function Follow(toks: Tokens, path: seq<nat>): Tokens
    decreases |path|
  {
    if path == [] || path[0] >= |toks| then []
    else if |path| == 1 then [toks[path[0]]]
    else if toks[path[0]].Group? then Follow(toks[path[0]].kids, path[1..])
    else []
  }

  predicate OpensQuery(tok: Node) {
    tok.Leaf? && tok.kind.DmlKeyword? && (Normalize(tok.value) == "SELECT" || Normalize(tok.value) == "WITH")
  }

  ghost predicate Reaches(toks: Tokens, path: seq<nat>) {
    |Follow(toks, path)| == 1 && OpensQuery(Follow(toks, path)[0])
  }

  lemma {:induction false} SelectIs(toks: Tokens, n: nat)
    ensures HasSelect(toks, n) <==> exists path :: |path| <= n && Reaches(toks, path)
    decreases n
  {
    hide Normalize;
    if HasSelect(toks, n) {
      var k :| 0 <= k < |toks| &&
        match toks[k]
        case Leaf(kind, value) => kind.DmlKeyword? && Normalize(value) in {"SELECT", "WITH"}
        case Group(_, kids) => HasSelect(kids, n - 1);
      if toks[k].Leaf? {
        assert Reaches(toks, [k]);
      } else {
        SelectIs(toks[k].kids, n - 1);
        var path :| |path| <= n - 1 && Reaches(toks[k].kids, path);
        assert ([k] + path)[1..] == path && path != [];
        assert Reaches(toks, [k] + path);
      }
    }
    if path :| |path| <= n && Reaches(toks, path) {
      var k := path[0];
      if |path| == 1 {
        assert OpensQuery(toks[k]);
      } else {
        assert Reaches(toks[k].kids, path[1..]);
        SelectIs(toks[k].kids, n - 1);
      }
    }
  }

  // A parenthesis counts as a subquery if and only if SELECT or WITH stands in it at most
  // five levels deep.
  lemma SubqueryIs(tok: Node)
    ensures IsSubquery(tok) <==>
      tok.Group? && tok.group.Parens? && exists path :: |path| <= 5 && Reaches(tok.kids, path)
  {
    hide HasSelect, Reaches;
    if tok.Group? {
      SelectIs(tok.kids, 5);
    }
  }
}
