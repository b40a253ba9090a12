// What copying and re-indenting make of the whitespace in a text.
module Squeezing {
  import opened Text
  import opened SqlTree
  import opened Rendering
  import opened Separation
  import opened Gaps
  import opened Stable
  import opened Imprints

  // ---------------------------------------------------------------------
  // Copies
  // ---------------------------------------------------------------------

  lemma {:induction false} SquashAt(g: string, c: char, rest: string)
    requires Blank(g) && !IsSpace(c)
    ensures SquashSpaces(g + [c] + rest) == Squeeze(g) + [c] + SquashSpaces(rest)
  {
    var s := g + [c] + rest;
    if g == "" {
      assert s == [c] + rest && s[1..] == rest;
      assert "" + [c] + SquashSpaces(rest) == [c] + SquashSpaces(rest);
    } else {
      assert s[0] == g[0] && s[1..] == g[1..] + ([c] + rest);
      TrimTo(g[1..], [c] + rest);
      assert ([c] + rest)[1..] == rest;
      assert " " + ([c] + SquashSpaces(rest)) == " " + [c] + SquashSpaces(rest);
    }
  }

  lemma {:induction false} TrimTo(g: string, t: string)
    requires Blank(g) && t != "" && !IsSpace(t[0])
    ensures TrimLeft(g + t) == t
  {
    if g == "" {
      assert g + t == t;
    } else {
      assert (g + t)[1..] == g[1..] + t;
      TrimTo(g[1..], t);
    }
  }

  lemma {:induction false} SquashFines(s: string)
    ensures AllRegapped(Fines(s, ""), Fines(SquashSpaces(s), ""), Squeeze) || Blank(s)
    ensures Blank(s) ==> Blank(SquashSpaces(s))
    ensures !Blank(s) ==> !Blank(SquashSpaces(s))
    ensures Regapped(Fines(s, ""), Fines(SquashSpaces(s), ""), Squeeze)
    decreases |s|
  {
    hide SquashSpaces, Fines, Squeeze;
    if Blank(s) {
      SquashBlank(s);
      BlankFines(s, "");
      BlankFines(SquashSpaces(s), "");
    } else {
      var g, c, rest := HeadOf(s);
      SquashAt(g, c, rest);
      SquashFines(rest);
      BlankFines(g, "");
      SqueezeBlank(g);
      BlankFines(Squeeze(g), "");
      FinesAt(g, c, rest);
      FinesAt(Squeeze(g), c, SquashSpaces(rest));
      assert "" + g == g && "" + Squeeze(g) == Squeeze(g);
      assert [] + [Fine(g, c)] == [Fine(g, c)] && [] + [Fine(Squeeze(g), c)] == [Fine(Squeeze(g), c)];
      var t := SquashSpaces(s);
      assert t[|Squeeze(g)|] == c;
      if Blank(rest) {
        BlankFines(rest, "");
        BlankFines(SquashSpaces(rest), "");
      }
      RegappedHead(c, g, Squeeze(g), Fines(rest, ""), Fines(SquashSpaces(rest), ""), Squeeze);
    }
  }

  lemma SqueezeBlank(g: string)
    ensures Blank(Squeeze(g))
  {
  }

  lemma {:induction false} SquashBlank(s: string)
    requires Blank(s)
    ensures Blank(SquashSpaces(s))
  {
    if s != "" {
      Separation.TrimLeftBlank(s[1..]);
      assert SquashSpaces("") == "";
    }
  }

  // Trimming changes no gap but the first.
  lemma {:induction false} TrimRightFines(s: string)
    ensures Fines(TrimRight(s), "") == Fines(s, "")
  {
    hide Fines;
    if s != "" && IsSpace(s[|s| - 1]) {
      var t := s[..|s| - 1];
      assert s == t + [s[|s| - 1]];
      FinesAppend(t, [s[|s| - 1]], "");
      BlankFines([s[|s| - 1]], Tail(t, ""));
      TrimRightFines(t);
      assert Fines(t, "") + [] == Fines(t, "");
    }
  }

  lemma {:induction false} TrimLeftParts(s: string) returns (g: string)
    ensures Blank(g) && s == g + TrimLeft(s)
  {
    if s != "" && IsSpace(s[0]) {
      var h := TrimLeftParts(s[1..]);
      g := [s[0]] + h;
      assert s == [s[0]] + s[1..];
    } else {
      g := "";
      assert "" + s == s;
    }
  }

  // The same cells but for the gap in front.
  predicate SameBehind(a: seq<Fine>, b: seq<Fine>) {
    |a| == |b| && (a != [] ==> a[0].ch == b[0].ch && a[1..] == b[1..])
  }

  lemma LeadFines(g: string, t: string)
    requires Blank(g)
    ensures SameBehind(Fines(g + t, ""), Fines(t, ""))
  {
    hide Fines;
    FinesAppend(g, t, "");
    BlankFines(g, "");
    FinesGap(t, Tail(g, ""));
    assert [] + Fines(t, Tail(g, "")) == Fines(t, Tail(g, ""));
  }

  lemma TrimLeftFines(s: string)
    ensures SameBehind(Fines(s, ""), Fines(TrimLeft(s), ""))
  {
    hide Fines, TrimLeft;
    var g := TrimLeftParts(s);
    LeadFines(g, TrimLeft(s));
  }

  lemma RegappedBehind(as0: seq<Fine>, cs: seq<Fine>, ds: seq<Fine>, f: string -> string)
    requires Regapped(as0, cs, f) && SameBehind(cs, ds)
    ensures Regapped(as0, ds, f)
  {
    forall k | 1 <= k < |ds| ensures ds[k] == cs[k] {
      assert ds[k] == ds[1..][k - 1] && cs[k] == cs[1..][k - 1];
    }
  }

  lemma StripFines(s: string)
    ensures SameBehind(Fines(s, ""), Fines(Strip(s), ""))
  {
    hide Fines, TrimLeft, TrimRight;
    TrimLeftFines(s);
    TrimRightFines(TrimLeft(s));
  }

  // Splitting at whitespace and joining squeezes every gap as well.
  lemma {:induction false} WordsFines(s: string)
    ensures Regapped(Fines(s, ""), Fines(Join(" ", Words(s)), ""), Squeeze)
    decreases |s|
  {
    hide Fines, TrimLeft, Join;
    var g := TrimLeftParts(s);
    var t := TrimLeft(s);
    TrimLeftFines(s);
    if t == "" {
      NoFines(g);
      assert s == g;
      assert Join(" ", []) == "" by { JoinNone(); }
      NoFines("");
    } else {
      var n := WordLength(t);
      var word, rest := t[..n], t[n..];
      assert t == word + rest && word != "";
      WordsFines(rest);
      Separation.TrimLeftBlank(rest);
      FirstJoin(word, Words(rest));
      PlainWord(word);
      FinesAppend(word, rest, "");
      if Blank(rest) {
        BlankWords(rest);
        BlankFines(rest, "");
        assert Fines(word, "") + [] == Fines(word, "");
        WordOnly(s, word);
      } else {
        WordsSolid(rest);
        WordThen(s, word, rest, Join(" ", Words(rest)));
      }
    }
  }

  lemma NoFines(g: string)
    requires Blank(g)
    ensures Fines(g, "") == []
  {
    BlankFines(g, "");
  }

  lemma JoinNone()
    ensures Join(" ", []) == ""
  {
  }

  lemma FirstJoin(word: string, ws: seq<string>)
    ensures Join(" ", [word] + ws) == if ws == [] then word else word + (" " + Join(" ", ws))
  {
    assert ([word] + ws)[1..] == ws;
    assert word + " " + Join(" ", ws) == word + (" " + Join(" ", ws));
  }

  lemma {:induction false} PlainWord(word: string)
    requires forall i :: 0 <= i < |word| ==> !IsSpace(word[i])
    ensures |Fines(word, "")| == |word| && Tail(word, "") == ""
    ensures forall k :: 0 <= k < |word| ==> Fines(word, "")[k] == Fine("", word[k])
  {
    if word != "" {
      PlainWord(word[1..]);
    }
  }

  lemma WordOnly(s: string, word: string)
    requires SameBehind(Fines(s, ""), Fines(word, ""))
    requires forall k :: 0 <= k < |Fines(word, "")| ==> Fines(word, "")[k].gap == ""
    ensures Regapped(Fines(s, ""), Fines(word, ""), Squeeze)
  {
    hide Fines;
    var a, b := Fines(s, ""), Fines(word, "");
    forall k | 1 <= k < |b| ensures b[k] == a[k] {
      assert b[k] == b[1..][k - 1] && a[k] == a[1..][k - 1];
    }
  }

  lemma WordThen(s: string, word: string, rest: string, joined: string)
    requires word != "" && rest != "" && IsSpace(rest[0]) && !Blank(rest) && Solid(joined)
    requires SameBehind(Fines(s, ""), Fines(word + rest, ""))
    requires |Fines(word, "")| == |word| && Tail(word, "") == ""
    requires forall k :: 0 <= k < |word| ==> Fines(word, "")[k] == Fine("", word[k])
    requires Regapped(Fines(rest, ""), Fines(joined, ""), Squeeze)
    ensures Regapped(Fines(s, ""), Fines(word + (" " + joined), ""), Squeeze)
  {
    hide Fines, Blank, Solid;
    FinesAppend(word, rest, "");
    FinesAppend(word, " " + joined, "");
    OpensWithGap(rest);
    BlankThen(joined);
    var a, b := Fines(s, ""), Fines(word, "") + Fines(rest, "");
    var c := Fines(word, "") + Fines(" " + joined, "");
    forall k | 1 <= k < |a| ensures a[k] == b[k] {
      assert b[k] == b[1..][k - 1] && a[k] == a[1..][k - 1];
    }
    assert forall k :: |word| <= k < |b| ==>
      b[k] == Fines(rest, "")[k - |word|] && c[k] == Fines(" " + joined, "")[k - |word|];
  }

  lemma {:induction false} OpensWithGap(rest: string)
    requires rest != "" && IsSpace(rest[0]) && !Blank(rest)
    ensures Fines(rest, "") != [] && Fines(rest, "")[0].gap != ""
  {
    var g, c, t := HeadOf(rest);
    assert g != "";
    BlankFines(g, "");
    FinesAt(g, c, t);
    assert [] + [Fine(g, c)] == [Fine(g, c)];
  }

  lemma BlankThen(joined: string)
    requires Solid(joined)
    ensures Fines(" " + joined, "") != [] && Fines(" " + joined, "")[0].gap == " "
    ensures SameBehind(Fines(" " + joined, ""), Fines(joined, ""))
  {
    hide Fines;
    LeadFines(" ", joined);
    BlankFines("", "");
    FinesAt(" ", joined[0], joined[1..]);
    BlankFines(" ", "");
    assert " " + joined == " " + [joined[0]] + joined[1..];
    assert [] + [Fine(" ", joined[0])] == [Fine(" ", joined[0])];
  }

  lemma CopyFines(node: Node, uppercase: bool)
    ensures Regapped(Fines(LeafText(node, uppercase), ""), Fines(CopyText(node, uppercase), ""), Squeeze)
  {
    hide Fines, SquashSpaces, Strip, Words, KeywordsUpper, Value, Squeeze;
    if uppercase {
      var t := KeywordsUpper(node);
      SquashFines(t);
      StripFines(SquashSpaces(t));
      RegappedBehind(Fines(t, ""), Fines(SquashSpaces(t), ""), Fines(Strip(SquashSpaces(t)), ""), Squeeze);
    } else {
      WordsFines(Value(node));
    }
  }

  // ---------------------------------------------------------------------
  // Re-indented subqueries
  // ---------------------------------------------------------------------

  function Shift(column: nat): string -> string {
    g => Reindent(g, column)
  }

  lemma {:induction false} ReindentFines(s: string, column: nat)
    ensures AllRegapped(Fines(s, ""), Fines(Reindent(s, column), ""), Shift(column))
    decreases |s|
  {
    hide Fines, Reindent;
    if Blank(s) {
      ReindentBlank(s, column);
      BlankFines(s, "");
      BlankFines(Reindent(s, column), "");
    } else {
      var g, c, rest := HeadOf(s);
      ReindentAppend(g + [c], rest, column);
      ReindentAppend(g, [c], column);
      ReindentNothing([c], column);
      var r := Reindent(g, column);
      assert Reindent(s, column) == r + [c] + Reindent(rest, column);
      ReindentFines(rest, column);
      ReindentBlank(g, column);
      BlankFines(g, "");
      BlankFines(r, "");
      FinesAt(g, c, rest);
      FinesAt(r, c, Reindent(rest, column));
      assert "" + g == g && "" + r == r;
      assert [] + [Fine(g, c)] == [Fine(g, c)] && [] + [Fine(r, c)] == [Fine(r, c)];
      assert Shift(column)(g) == r;
      RegappedHead(c, g, r, Fines(rest, ""), Fines(Reindent(rest, column), ""), Shift(column));
    }
  }

  lemma {:induction false} ReindentLines(s: string, column: nat)
    ensures Reindent(s, column) == Lines(s)[0] + Indented(Lines(s)[1..], column)
    decreases |s|
  {
    hide Reindent, Lines, Indented;
    if '\n' in s {
      var u, v := FirstLine(s);
      LinesSplit(u, v);
      ReindentLines(v, column);
      ReindentAppend(u + "\n", v, column);
      ReindentAppend(u, "\n", column);
      ReindentNothing(u, column);
      FeedReindented(column);
      var rest := Lines(v);
      assert Lines(s)[0] == u && Lines(s)[1..] == rest;
      IndentedMore(u, rest, column);
    } else {
      SingleLine(s, column);
      ReindentNothing(s, column);
    }
  }

  lemma IndentedMore(u: string, lines: seq<string>, column: nat)
    requires lines != []
    ensures u + ("\n" + Spaces(column)) + (lines[0] + Indented(lines[1..], column)) == u + Indented(lines, column)
  {
    var t := Indented(lines[1..], column);
    assert Indented(lines, column) == "\n" + Spaces(column) + lines[0] + t;
    assert u + ("\n" + Spaces(column)) + (lines[0] + t) == u + ("\n" + Spaces(column) + lines[0] + t);
  }

  lemma SingleLine(s: string, column: nat)
    requires '\n' !in s
    ensures Lines(s) == [s] && Indented(Lines(s)[1..], column) == "" && s + "" == s
  {
    NoFeed(s);
    assert [s][1..] == [];
  }

  lemma LinesSplit(u: string, v: string)
    requires '\n' !in u
    ensures Lines(u + "\n" + v) == [u] + Lines(v)
  {
    hide IndexOf;
    FirstFeed(u, v);
    assert (u + "\n" + v)[..|u|] == u && (u + "\n" + v)[|u| + 1..] == v;
  }

  lemma BodyFines(formatted: string, column: nat)
    ensures Regapped(Fines(formatted, ""), Fines(Body(formatted, column), ""), Shift(column))
  {
    hide Fines, Reindent, Lines, Indented, TrimLeft;
    var lines := Lines(formatted);
    var rest := Indented(lines[1..], column);
    ReindentLines(formatted, column);
    ReindentFines(formatted, column);
    var g := TrimLeftParts(lines[0]);
    assert lines[0] + rest == g + Body(formatted, column);
    LeadFines(g, Body(formatted, column));
    RegappedBehind(Fines(formatted, ""), Fines(Reindent(formatted, column), ""), Fines(Body(formatted, column), ""),
      Shift(column));
  }
}
