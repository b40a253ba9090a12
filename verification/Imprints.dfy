// Texts as sequences of leaves: whether each leaf's characters stand in a text, and what
// became of the whitespace inside it.
module Imprints {
  import opened Text
  import opened SqlTree
  import opened Rendering
  import opened Preservation
  import opened Separation
  import opened Gaps
  import opened Stable
  import opened Transcript
  import Columns

  // ---------------------------------------------------------------------
  // Leaves as they are written
  // ---------------------------------------------------------------------

  // A visible leaf, whether it is copied with its whitespace squeezed, and the columns of
  // the subqueries formatted by themselves around it, inside out.
  datatype Writing = Writing(leaf: Node, copied: bool, columns: seq<nat>)

  function Visible(ls: Tokens): Tokens {
    if ls == [] then []
    else (if IsBlankLeaf(ls[0]) then [] else [ls[0]]) + Visible(ls[1..])
  }

  lemma {:induction false} VisibleAppend(a: Tokens, b: Tokens)
    ensures Visible(a + b) == Visible(a) + Visible(b)
  {
    if a == [] {
      assert a + b == b;
    } else {
      assert (a + b)[1..] == a[1..] + b;
      VisibleAppend(a[1..], b);
      var h := if IsBlankLeaf(a[0]) then [] else [a[0]];
      assert h + (Visible(a[1..]) + Visible(b)) == h + Visible(a[1..]) + Visible(b);
    }
  }

  function Listed(ls: Tokens, copied: bool): seq<Writing> {
    seq(|Visible(ls)|, i requires 0 <= i < |Visible(ls)| => Writing(Visible(ls)[i], copied, []))
  }

  function LeafList(ws: seq<Writing>): Tokens {
    seq(|ws|, i requires 0 <= i < |ws| => ws[i].leaf)
  }

  function ValueOf(w: Writing): string {
    Value(w.leaf)
  }

  // Whitespace inside the leaf on its way to the buffer of the outermost statement.
  function Buffered(copied: bool, columns: seq<nat>, g: string): string
    decreases |columns|
  {
    if columns == [] then (if copied then Squeeze(g) else g)
    else
      var n := |columns| - 1;
      Reindent(CleanGap(Buffered(copied, columns[..n], g)), columns[n])
  }

  function Way(w: Writing, cleaned: bool, g: string): string {
    var t := Buffered(w.copied, w.columns, g);
    if cleaned then CleanGap(t) else t
  }

  // The cells cs are those of the leaf; a keyword may be in another case.
  predicate LeafCarried(w: Writing, cs: seq<Fine>, cleaned: bool) {
    var fs := Fines(ValueOf(w), "");
    && |cs| == |fs|
    && (IsKeyword(w.leaf) ||
        forall k :: 0 <= k < |cs| ==>
          cs[k].ch == fs[k].ch && (k > 0 ==> cs[k].gap == Way(w, cleaned, fs[k].gap)))
  }

  predicate Carried(ws: seq<Writing>, cs: seq<Fine>, cleaned: bool)
    decreases |ws|
  {
    if ws == [] then cs == []
    else
      var n := |Fines(ValueOf(ws[0]), "")|;
      n <= |cs| && LeafCarried(ws[0], cs[..n], cleaned) && Carried(ws[1..], cs[n..], cleaned)
  }

  lemma {:induction false} CarriedAppend(a: seq<Writing>, c1: seq<Fine>, b: seq<Writing>, c2: seq<Fine>, cleaned: bool)
    requires Carried(a, c1, cleaned) && Carried(b, c2, cleaned)
    ensures Carried(a + b, c1 + c2, cleaned)
    decreases |a|
  {
    hide LeafCarried, Fines;
    if a == [] {
      assert a + b == b && c1 + c2 == c2;
    } else {
      var n := |Fines(ValueOf(a[0]), "")|;
      assert (a + b)[1..] == a[1..] + b && (a + b)[0] == a[0];
      assert (c1 + c2)[..n] == c1[..n] && (c1 + c2)[n..] == c1[n..] + c2;
      CarriedAppend(a[1..], c1[n..], b, c2, cleaned);
    }
  }

  lemma CarriedOne(w: Writing, cs: seq<Fine>, cleaned: bool)
    requires LeafCarried(w, cs, cleaned)
    ensures Carried([w], cs, cleaned)
  {
    hide LeafCarried, Fines;
    var n := |Fines(ValueOf(w), "")|;
    assert |cs| == n by { LeafLength(w, cs, cleaned); }
    assert [w][1..] == [] && cs[..n] == cs && cs[n..] == [];
    assert Carried([], [], cleaned);
  }

  lemma LeafLength(w: Writing, cs: seq<Fine>, cleaned: bool)
    requires LeafCarried(w, cs, cleaned)
    ensures |cs| == |Fines(ValueOf(w), "")|
  {
  }

  // What happens to every gap but the first happens to every gap inside a leaf.
  ghost predicate Follows(w: Writing, cleaned: bool, w': Writing, cleaned': bool, f: string -> string) {
    w'.leaf == w.leaf && forall g :: Way(w', cleaned', g) == f(Way(w, cleaned, g))
  }

  lemma LeafVia(w: Writing, w': Writing, cs: seq<Fine>, cs': seq<Fine>, f: string -> string, cleaned: bool,
      cleaned': bool)
    requires Regapped(cs, cs', f) && LeafCarried(w, cs, cleaned) && Follows(w, cleaned, w', cleaned', f)
    ensures LeafCarried(w', cs', cleaned')
  {
    hide Way, Fines;
  }

  lemma {:induction false} CarriedVia(ws: seq<Writing>, ws': seq<Writing>, cs: seq<Fine>, cs': seq<Fine>,
      f: string -> string,
      cleaned: bool, cleaned': bool)
    requires |ws| == |ws'| && Regapped(cs, cs', f) && Carried(ws, cs, cleaned)
    requires forall i :: 0 <= i < |ws| ==> Follows(ws[i], cleaned, ws'[i], cleaned', f)
    ensures Carried(ws', cs', cleaned')
    decreases |ws|
  {
    hide LeafCarried, Fines, Follows, Regapped;
    if ws == [] {
      assert cs' == [] by { SameLength(cs, cs', f); }
    } else {
      var n := |Fines(ValueOf(ws[0]), "")|;
      FollowsLeaf(ws[0], cleaned, ws'[0], cleaned', f);
      SameLength(cs, cs', f);
      RegappedParts(cs, cs', f, n);
      LeafVia(ws[0], ws'[0], cs[..n], cs'[..n], f, cleaned, cleaned');
      CarriedVia(ws[1..], ws'[1..], cs[n..], cs'[n..], f, cleaned, cleaned');
    }
  }

  lemma FollowsLeaf(w: Writing, cleaned: bool, w': Writing, cleaned': bool, f: string -> string)
    requires Follows(w, cleaned, w', cleaned', f)
    ensures w'.leaf == w.leaf
  {
  }

  lemma SameLength(cs: seq<Fine>, cs': seq<Fine>, f: string -> string)
    requires Regapped(cs, cs', f)
    ensures |cs| == |cs'|
  {
  }

  lemma RegappedParts(cs: seq<Fine>, cs': seq<Fine>, f: string -> string, n: nat)
    requires Regapped(cs, cs', f) && n <= |cs|
    ensures n <= |cs'| && Regapped(cs[..n], cs'[..n], f) && Regapped(cs[n..], cs'[n..], f)
  {
  }

  // The gap in front does not matter.
  lemma {:induction false} CarriedGap(ws: seq<Writing>, cs: seq<Fine>, cs': seq<Fine>, cleaned: bool)
    requires Carried(ws, cs, cleaned)
    requires |cs'| == |cs| && (cs != [] ==> cs'[0].ch == cs[0].ch && cs'[1..] == cs[1..])
    ensures Carried(ws, cs', cleaned)
    decreases |ws|
  {
    hide Way, Fines;
    if ws != [] {
      var n := |Fines(ValueOf(ws[0]), "")|;
      if n == 0 {
        assert cs[..0] == cs'[..0] && cs[0..] == cs && cs'[0..] == cs';
        CarriedGap(ws[1..], cs, cs', cleaned);
      } else {
        forall k | 1 <= k < |cs| ensures cs'[k] == cs[k] {
          assert cs'[k] == cs'[1..][k - 1] && cs[k] == cs[1..][k - 1];
        }
        assert cs'[n..] == cs[n..];
      }
    }
  }

  // Of keywords only the number of characters is said.
  function Total(ws: seq<Writing>): nat {
    if ws == [] then 0 else |Fines(ValueOf(ws[0]), "")| + Total(ws[1..])
  }

  lemma {:induction false} KeywordsCarried(ws: seq<Writing>, cs: seq<Fine>, cleaned: bool)
    requires forall i :: 0 <= i < |ws| ==> IsKeyword(ws[i].leaf)
    requires |cs| == Total(ws)
    ensures Carried(ws, cs, cleaned)
    decreases |ws|
  {
    hide Fines, Way;
    if ws != [] {
      var n := |Fines(ValueOf(ws[0]), "")|;
      KeywordsCarried(ws[1..], cs[n..], cleaned);
    }
  }

  // ---------------------------------------------------------------------
  // The text of a list of leaves
  // ---------------------------------------------------------------------

  lemma {:induction false} SolidFines(v: string)
    requires v != "" && !IsSpace(v[|v| - 1])
    ensures Tail(v, "") == ""
  {
    var a, c := v[..|v| - 1], v[|v| - 1];
    assert v == a + [c];
    FinesAppend(a, [c], "");
    assert [c][1..] == "";
  }

  // Copied text: the leaves one after the other, keywords in upper case if asked for.
  function TextFor(ls: Tokens, uppercase: bool): string {
    if uppercase then KeywordsUpperList(ls) else ValueList(ls)
  }

  function LeafText(leaf: Node, uppercase: bool): string {
    if uppercase then KeywordsUpper(leaf) else Value(leaf)
  }

  lemma UpperLength(v: string)
    ensures |Fines(Upper(v), "")| == |Fines(v, "")|
  {
    hide Fines;
    Columns.FinesCanon(v, "");
    Columns.FinesCanon(Upper(v), "");
    UpperCanon(v);
  }

  predicate AreLeaves(ls: Tokens) {
    forall i :: 0 <= i < |ls| ==> ls[i].Leaf? && WellFormed(ls[i])
  }

  lemma ListedFirst(ls: Tokens, copied: bool)
    requires ls != []
    ensures Listed(ls, copied) ==
      (if IsBlankLeaf(ls[0]) then [] else [Writing(ls[0], copied, [])]) + Listed(ls[1..], copied)
  {
    var h, t := if IsBlankLeaf(ls[0]) then [] else [ls[0]], Visible(ls[1..]);
    assert Visible(ls) == h + t;
    ListedParts(h, t, ls, copied);
  }

  lemma ListedParts(h: Tokens, t: Tokens, ls: Tokens, copied: bool)
    requires ls != [] && Visible(ls) == h + t && t == Visible(ls[1..]) && |h| <= 1
    ensures Listed(ls, copied) == (if h == [] then [] else [Writing(h[0], copied, [])]) + Listed(ls[1..], copied)
  {
    hide Visible;
  }

  lemma OneLeafCarried(leaf: Node, uppercase: bool)
    requires leaf.Leaf? && WellFormed(leaf) && !IsBlankLeaf(leaf)
    ensures Carried([Writing(leaf, false, [])], Fines(LeafText(leaf, uppercase), ""), false)
    ensures Tail(LeafText(leaf, uppercase), "") == ""
  {
    hide Fines, Tail;
    var w, t := Writing(leaf, false, []), LeafText(leaf, uppercase);
    UpperLength(leaf.value);
    assert LeafCarried(w, Fines(t, ""), false);
    CarriedOne(w, Fines(t, ""), false);
    UpperBlank(leaf.value);
    SolidFines(t);
  }

  lemma {:induction false} LeavesCarried(ls: Tokens, uppercase: bool)
    requires AreLeaves(ls)
    ensures Carried(Listed(ls, false), Fines(TextFor(ls, uppercase), ""), false)
  {
    hide Fines, Tail, Listed, WellFormed, LeafCarried;
    if ls == [] {
      NoLeaves(uppercase);
    } else {
      var leaf, rest := ls[0], TextFor(ls[1..], uppercase);
      var t := LeafText(leaf, uppercase);
      LeavesCarried(ls[1..], uppercase);
      ListedFirst(ls, false);
      assert TextFor(ls, uppercase) == t + rest;
      FinesAppend(t, rest, "");
      FinesGap(rest, Tail(t, ""));
      if IsBlankLeaf(leaf) {
        BlankText(leaf, uppercase);
        BlankFines(t, "");
        assert [] + Fines(rest, Tail(t, "")) == Fines(rest, Tail(t, ""));
        assert [] + Listed(ls[1..], false) == Listed(ls[1..], false);
        CarriedGap(Listed(ls[1..], false), Fines(rest, ""), Fines(rest, Tail(t, "")), false);
      } else {
        OneLeafCarried(leaf, uppercase);
        CarriedAppend([Writing(leaf, false, [])], Fines(t, ""), Listed(ls[1..], false), Fines(rest, ""), false);
      }
    }
  }

  lemma BlankText(leaf: Node, uppercase: bool)
    requires IsBlankLeaf(leaf) && WellFormed(leaf)
    ensures Blank(LeafText(leaf, uppercase))
  {
  }

  lemma NoLeaves(uppercase: bool)
    ensures Carried(Listed([], false), Fines(TextFor([], uppercase), ""), false)
  {
  }

  lemma {:induction false} LeavesText(toks: Tokens, uppercase: bool)
    ensures TextFor(LeavesOf(toks), uppercase) == TextFor(toks, uppercase)
    decreases SizeList(toks), 2
  {
    if toks != [] {
      NodeText(toks[0], uppercase);
      LeavesText(toks[1..], uppercase);
      TextAppend(Leaves(toks[0]), LeavesOf(toks[1..]), uppercase);
    }
  }

  lemma {:induction false} NodeText(node: Node, uppercase: bool)
    ensures TextFor(Leaves(node), uppercase) == LeafText(node, uppercase)
    decreases Size(node), 1
  {
    match node
    case Leaf(_, _) =>
      assert Leaves(node) == [node] && [node][1..] == [] && [node][0] == node;
      assert KeywordsUpperList([node]) == KeywordsUpper(node) + "";
      assert ValueList([node]) == Value(node) + "";
    case Group(_, kids) => LeavesText(kids, uppercase);
  }

  lemma {:induction false} TextAppend(a: Tokens, b: Tokens, uppercase: bool)
    ensures TextFor(a + b, uppercase) == TextFor(a, uppercase) + TextFor(b, uppercase)
  {
    if a == [] {
      assert a + b == b;
    } else {
      assert (a + b)[1..] == a[1..] + b;
      TextAppend(a[1..], b, uppercase);
    }
  }

  lemma {:induction false} LeavesWellFormed(toks: Tokens)
    requires AllWellFormed(toks)
    ensures AreLeaves(LeavesOf(toks))
    decreases SizeList(toks), 2
  {
    hide ValueList;
    if toks != [] {
      NodeLeaves(toks[0]);
      LeavesWellFormed(toks[1..]);
    }
  }

  lemma {:induction false} NodeLeaves(node: Node)
    requires WellFormed(node)
    ensures AreLeaves(Leaves(node))
    decreases Size(node), 1
  {
    match node
    case Leaf(_, _) =>
    case Group(_, kids) => LeavesWellFormed(kids);
  }

  lemma TreeCarried(toks: Tokens, uppercase: bool)
    requires AllWellFormed(toks)
    ensures Carried(Listed(LeavesOf(toks), false), Fines(TextFor(toks, uppercase), ""), false)
  {
    hide Carried, Fines, Listed, LeavesOf;
    LeavesWellFormed(toks);
    LeavesCarried(LeavesOf(toks), uppercase);
    LeavesText(toks, uppercase);
  }
}
