// The layout of a query is a text the clean-up leaves alone.
module QueryText {
  import opened Text
  import opened SqlTree
  import opened Stable
  import opened Settled
  import opened Queries
  import PostProcess

  // ---------------------------------------------------------------------
  // Words and keywords
  // ---------------------------------------------------------------------

  predicate Shows(s: string) {
    Goes(s) && StartsVisibly(s)
  }

  lemma VisibleShows(w: string)
    requires w != "" && forall c :: c in w ==> !IsSpace(c)
    ensures Shows(w)
  {
    assert forall i :: 0 <= i < |w| ==> w[i] in w;
  }

  lemma WordShows(w: string)
    requires Wordy(w)
    ensures Shows(w)
  {
    VisibleShows(w);
  }

  lemma {:induction false} WordsShow(s: string)
    ensures forall k :: 0 <= k < |Words(s)| ==> Shows(Words(s)[k])
    decreases |s|
  {
    hide Goes, StartsVisibly;
    var t := TrimLeft(s);
    if t != "" {
      var n := WordLength(t);
      WordsShow(t[n..]);
      assert t[..n] != "" by {
        assert n > 0;
      }
      VisibleShows(t[..n]);
    }
  }

  lemma {:induction false} JoinShows(ws: seq<string>)
    requires ws != [] && forall k :: 0 <= k < |ws| ==> Shows(ws[k])
    ensures Shows(Join(" ", ws))
  {
    hide Goes, StartsVisibly;
    if |ws| > 1 {
      JoinShows(ws[1..]);
      assert Shows(ws[0]);
      SpaceThen(ws[0], Join(" ", ws[1..]));
    }
  }

  lemma NormalShows(w: string)
    requires Normalize(w) == w && w != ""
    ensures Shows(w)
  {
    hide Words, Join, Goes, StartsVisibly;
    WordsShow(Upper(w));
    assert Words(Upper(w)) != [] by {
      assert Join(" ", []) == "" by { JoinNothing(); }
    }
    JoinShows(Words(Upper(w)));
  }

  lemma JoinNothing()
    ensures Join(" ", []) == ""
  {
  }

  lemma CasedShows(w: string, upper: bool)
    requires Shows(w)
    ensures Shows(Cased(w, upper)) && |Cased(w, upper)| == |w|
  {
    var l := Lower(w);
    assert forall i :: 0 <= i < |w| ==> (IsSpace(l[i]) <==> IsSpace(w[i])) && (IsSpace(w[i]) ==> l[i] == w[i]);
  }

  // A keyword in capitals.
  lemma CapitalsShow(w: string, upper: bool)
    requires w != "" && forall i :: 0 <= i < |w| ==> 'A' <= w[i] <= 'Z'
    ensures Normalize(w) == w && Shows(Cased(w, upper))
  {
    hide Normalize, Goes, StartsVisibly;
    CapitalsNormal(w);
    NormalShows(w);
    CasedShows(w, upper);
  }

  lemma {:induction false} CapitalsRun(a: string, rest: string)
    requires forall i :: 0 <= i < |a| ==> 'A' <= a[i] <= 'Z'
    requires rest == "" || IsSpace(rest[0])
    ensures WordLength(a + rest) == |a|
  {
    if a == "" {
      assert a + rest == rest;
    } else {
      assert (a + rest)[1..] == a[1..] + rest;
      CapitalsRun(a[1..], rest);
    }
  }

  lemma TwoNormal(a: string, b: string)
    requires a != "" && b != ""
    requires forall i :: 0 <= i < |a| ==> 'A' <= a[i] <= 'Z'
    requires forall i :: 0 <= i < |b| ==> 'A' <= b[i] <= 'Z'
    ensures Normalize(a + " " + b) == a + " " + b
  {
    hide WordLength, Join;
    var s := a + " " + b;
    assert Upper(s) == s;
    assert s == a + (" " + b);
    CapitalsRun(a, " " + b);
    CapitalsRun(b, "");
    assert b + "" == b;
    assert TrimLeft(s) == s && s[..|a|] == a && s[|a|..] == " " + b;
    Blanked(b);
    assert b[..|b|] == b && b[|b|..] == "";
    assert Words("") == [];
    assert Words(b) == [b];
    assert Words(" " + b) == Words(b) by { SameWords(b); }
    assert Words(s) == [a] + [b] == [a, b];
    PairJoined(a, b);
  }

  lemma Blanked(b: string)
    requires b != "" && !IsSpace(b[0])
    ensures TrimLeft(" " + b) == b && TrimLeft(b) == b
  {
    assert (" " + b)[1..] == b;
  }

  lemma SameWords(b: string)
    requires b != "" && !IsSpace(b[0])
    ensures Words(" " + b) == Words(b)
  {
    Blanked(b);
  }

  lemma PairJoined(a: string, b: string)
    ensures Join(" ", [a, b]) == a + " " + b
  {
    assert [a, b][1..] == [b];
  }

  lemma GroupByNormal()
    ensures Normalize("GROUP BY") == "GROUP BY"
  {
    TwoNormal("GROUP", "BY");
    assert "GROUP" + " " + "BY" == "GROUP BY";
  }

  lemma KeywordsShow(upper: bool)
    ensures Shows(Cased("SELECT", upper)) && Shows(Cased("FROM", upper)) && Shows(Cased("WHERE", upper))
    ensures Shows(Cased("ON", upper)) && Shows(Cased("AND", upper)) && Shows(Cased("OR", upper))
    ensures Shows(Cased("GROUP BY", upper))
    ensures Shows("CASE") && Shows("WHEN") && Shows("THEN") && Shows("ELSE") && Shows("END")
  {
    hide Normalize, Goes, StartsVisibly;
    CapitalsShow("SELECT", upper);
    CapitalsShow("FROM", upper);
    CapitalsShow("WHERE", upper);
    CapitalsShow("ON", upper);
    CapitalsShow("AND", upper);
    CapitalsShow("OR", upper);
    GroupByNormal();
    NormalShows("GROUP BY");
    CasedShows("GROUP BY", upper);
    CapitalsShow("CASE", true);
    CapitalsShow("WHEN", true);
    CapitalsShow("THEN", true);
    CapitalsShow("ELSE", true);
    CapitalsShow("END", true);
  }

  // ---------------------------------------------------------------------
  // The parts of a query, behind a text that ends visibly
  // ---------------------------------------------------------------------

  // A keyword and a blank in front of visible text.
  lemma LedBy(kw: string, s: string)
    requires Shows(kw) && Shows(s)
    ensures Shows(kw + " " + s)
  {
    hide Smooth, EndsVisibly, StartsVisibly;
    SpaceThen(kw, s);
  }

  lemma OnLine(a: string, n: nat, s: string)
    requires Goes(a) && Shows(s)
    ensures Goes(a + (Line(n) + s)) && (StartsVisibly(a) ==> StartsVisibly(a + (Line(n) + s)))
  {
    hide Smooth, EndsVisibly;
    LineThen(a, n, s);
    assert a + (Line(n) + s) == a + ("\n" + Spaces(n)) + s;
  }

  lemma ArmShows(a: Arm)
    requires Wordy(a.test) && Wordy(a.result)
    ensures Shows(ArmText(a))
  {
    hide Goes, StartsVisibly, Wordy;
    KeywordsShow(true);
    WordShows(a.test);
    WordShows(a.result);
    LedBy("THEN", a.result);
    LedBy(a.test, "THEN" + " " + a.result);
    LedBy("WHEN", a.test + " " + ("THEN" + " " + a.result));
    assert "WHEN" + " " == "WHEN " && " " + "THEN" + " " == " THEN ";
    assert "WHEN" + " " + (a.test + " " + ("THEN" + " " + a.result)) == ArmText(a);
  }

  lemma {:induction false} ArmsGo(a: string, arms: seq<Arm>, column: nat)
    requires Goes(a) && StartsVisibly(a)
    requires forall k :: 0 <= k < |arms| ==> Wordy(arms[k].test) && Wordy(arms[k].result)
    ensures Shows(a + MoreArms(arms, column))
    decreases |arms|
  {
    hide Goes, StartsVisibly, Wordy, ArmText, Line;
    if arms == [] {
      assert a + "" == a;
    } else {
      ArmShows(arms[0]);
      OnLine(a, column + 5, ArmText(arms[0]));
      ArmsGo(a + (Line(column + 5) + ArmText(arms[0])), arms[1..], column);
      assert a + (Line(column + 5) + ArmText(arms[0])) + MoreArms(arms[1..], column) == a + MoreArms(arms, column);
    }
  }

  lemma ItemShows(item: Item, column: nat)
    requires ItemOk(item)
    ensures Shows(ItemText(item, column))
  {
    hide Goes, StartsVisibly, Wordy, ArmText, MoreArms, Line;
    match item
    case Plain(w) => WordShows(w);
    case Cases(arms, other) =>
      ArmShows(arms[0]);
      WordShows(other);
      CaseShows(ArmText(arms[0]), arms[1..], other, column);
  }

  lemma CaseShows(first: string, arms: seq<Arm>, other: string, column: nat)
    requires Shows(first) && Shows(other)
    requires forall k :: 0 <= k < |arms| ==> Wordy(arms[k].test) && Wordy(arms[k].result)
    ensures Shows("CASE " + (first + MoreArms(arms, column)) + Line(column + 5) + "ELSE " + other +
                  Line(column) + "END")
  {
    hide Goes, StartsVisibly, Wordy, MoreArms, Line;
    KeywordsShow(true);
    LedBy("CASE", first);
    ArmsGo("CASE" + " " + first, arms, column);
    LedBy("ELSE", other);
    var more := MoreArms(arms, column);
    var head := "CASE" + " " + first + more;
    OnLine(head, column + 5, "ELSE" + " " + other);
    OnLine(head + (Line(column + 5) + ("ELSE" + " " + other)), column, "END");
    assert "CASE" + " " == "CASE " && "ELSE" + " " == "ELSE ";
    CaseParts(first, more, Line(column + 5), other, Line(column));
  }

  lemma CaseParts(first: string, more: string, l1: string, other: string, l2: string)
    ensures "CASE " + first + more + (l1 + ("ELSE " + other)) + (l2 + "END")
         == "CASE " + (first + more) + l1 + "ELSE " + other + l2 + "END"
  {
  }

  lemma {:induction false} ItemsGo(a: string, items: seq<Item>, column: nat)
    requires Goes(a) && StartsVisibly(a) && forall k :: 0 <= k < |items| ==> ItemOk(items[k])
    ensures Shows(a + MoreItemText(items, column))
    decreases |items|
  {
    hide Goes, StartsVisibly, ItemOk, ItemText, Line;
    if items == [] {
      assert a + "" == a;
    } else {
      ItemShows(items[0], column);
      CommaShows();
      DirectThen(a, ",");
      OnLine(a + ",", column, ItemText(items[0], column));
      var b := a + "," + (Line(column) + ItemText(items[0], column));
      ItemsGo(b, items[1..], column);
      assert b + MoreItemText(items[1..], column) == a + MoreItemText(items, column);
    }
  }

  lemma CommaShows()
    ensures Shows(",") && Shows("(") && Shows(")") && Shows("=")
  {
  }

  lemma ItemsShow(items: seq<Item>, column: nat)
    requires items != [] && forall k :: 0 <= k < |items| ==> ItemOk(items[k])
    ensures Shows(ItemsText(items, column))
  {
    hide Goes, StartsVisibly, ItemOk, ItemText, MoreItemText;
    ItemShows(items[0], column);
    ItemsGo(ItemText(items[0], column), items[1..], column);
  }

  lemma SourceShows(s: Source, b: nat, upper: bool)
    requires SourceOk(s)
    ensures Shows(SourceText(s, b, upper))
    decreases s, 1
  {
    hide Goes, StartsVisibly, Wordy, Lay, Line, Nesting, QueryOk;
    match s
    case Table(name) => WordShows(name);
    case Derived(q, name) =>
      CommaShows();
      WordShows(name);
      var body := LayShows(q, b + 1, upper);
      var n := 6 * (b + 1) + 1;
      OnLine("(", n, body);
      assert "(" + (Line(n) + body) == "(\n" + Lay(q, b + 1, upper) by { OpenedLine(n, body); }
      LedBy(")", name);
      OnLine("(\n" + Lay(q, b + 1, upper), 6 * b + 8, ")" + " " + name);
      assert "(\n" + Lay(q, b + 1, upper) + (Line(6 * b + 8) + (")" + " " + name)) == SourceText(s, b, upper);
  }

  lemma OpenedLine(n: nat, body: string)
    ensures "(" + (Line(n) + body) == "(\n" + (Spaces(n) + body)
  {
  }

  lemma {:induction false} LinksGo(a: string, links: seq<Link>, b: nat, upper: bool)
    requires Goes(a) && StartsVisibly(a) && forall k :: 0 <= k < |links| ==> LinkOk(links[k])
    ensures Shows(a + LinkText(links, b, upper))
    decreases |links|
  {
    hide Goes, StartsVisibly, LinkOk, Line, Cased, Opening;
    if links == [] {
      assert a + "" == a;
    } else {
      var l := links[0];
      assert LinkOk(l);
      var first := LinkShows(a, l, b, upper);
      LinksGo(a + first, links[1..], b, upper);
      assert a + first + LinkText(links[1..], b, upper) == a + LinkText(links, b, upper);
    }
  }

  lemma LinkShows(a: string, l: Link, b: nat, upper: bool) returns (text: string)
    requires Goes(a) && StartsVisibly(a) && LinkOk(l)
    ensures text == "\n" + Opening(b, l.kind, upper) + l.name + Line(6 * b + 5) + Cased("ON", upper) + " " + l.on
    ensures Shows(a + text)
  {
    hide Goes, StartsVisibly, Wordy, Cased, Normalize, Spaces, IndexOf;
    var kw, on := Cased(l.kind, upper), Cased("ON", upper);
    var n := 6 * b + Room(IndexOf(l.kind, ' '));
    KeywordsShow(upper);
    assert l.kind != "" by { assert "" !in JOINS; }
    NormalShows(l.kind);
    CasedShows(l.kind, upper);
    WordShows(l.name);
    WordShows(l.on);
    LedBy(kw, l.name);
    OnLine(a, n, kw + " " + l.name);
    LedBy(on, l.on);
    OnLine(a + (Line(n) + (kw + " " + l.name)), 6 * b + 5, on + " " + l.on);
    text := "\n" + Opening(b, l.kind, upper) + l.name + Line(6 * b + 5) + on + " " + l.on;
    LinkParts(a, Spaces(n), kw, l.name, Line(6 * b + 5), on, l.on);
  }

  lemma LinkParts(a: string, sp: string, kw: string, name: string, line: string, on: string, cond: string)
    ensures a + (("\n" + sp) + (kw + " " + name)) + (line + (on + " " + cond)) ==
      a + ("\n" + (sp + kw + " ") + name + line + on + " " + cond)
  {
  }

  lemma CondShows(c: Cond, column: nat, upper: bool)
    requires CondOk(c)
    ensures Shows(CondText(c, column, upper))
    decreases c, 1
  {
    hide Goes, StartsVisibly, Wordy, Lay, Nesting, QueryOk, Reindent, IsSimpleSubquery, Paren;
    match c
    case Fact(w) => WordShows(w);
    case Compared(w, q) =>
      WordShows(w);
      CommaShows();
      var body := LayShows(q, 0, upper);
      assert Lay(q, 0, upper)[1..] == body;
      var moved := Reindent(body, column + |w| + 3);
      ReindentGoes(body, column + |w| + 3);
      DirectThen("(", moved);
      DirectThen("(" + moved, ")");
      LedBy("=", "(" + moved + ")");
      LedBy(w, "=" + " " + ("(" + moved + ")"));
      assert w + " " + ("=" + " " + ("(" + moved + ")")) == CondText(c, column, upper);
  }

  lemma {:induction false} MoreGo(a: string, more: seq<Further>, b: nat, upper: bool)
    requires Goes(a) && StartsVisibly(a) && forall k :: 0 <= k < |more| ==> FurtherOk(more[k])
    ensures Shows(a + MoreText(more, b, upper))
    decreases more, 1
  {
    hide Goes, StartsVisibly, CondOk, CondText, Line, Cased;
    if more == [] {
      assert a + "" == a;
    } else {
      var f := more[0];
      assert FurtherOk(f);
      KeywordsShow(upper);
      CondShows(f.cond, 6 * b + 8, upper);
      var kw, text, n := Cased(f.op, upper), CondText(f.cond, 6 * b + 8, upper), 6 * b + Room(|f.op|);
      LedBy(kw, text);
      OnLine(a, n, kw + " " + text);
      var first := Line(n) + (kw + " " + text);
      MoreGo(a + first, more[1..], b, upper);
      assert first + MoreText(more[1..], b, upper) == MoreText(more, b, upper);
      assert a + first + MoreText(more[1..], b, upper) == a + MoreText(more, b, upper);
    }
  }

  lemma FilterGoes(a: string, f: Filter, b: nat, upper: bool)
    requires Goes(a) && StartsVisibly(a) && FilterOk(f)
    ensures Shows(a + FilterText(f, b, upper))
    decreases f, 1
  {
    hide Goes, StartsVisibly, CondOk, CondText, Line, Cased, FurtherOk, MoreText;
    match f
    case Always => assert a + "" == a;
    case Only(first, more) =>
      KeywordsShow(upper);
      CondShows(first, 6 * b + 8, upper);
      var kw, text, rest := Cased("WHERE", upper), CondText(first, 6 * b + 8, upper), MoreText(more, b, upper);
      LedBy(kw, text);
      OnLine(a, 6 * b + 2, kw + " " + text);
      MoreGo(a + (Line(6 * b + 2) + (kw + " " + text)), more, b, upper);
      assert a + (Line(6 * b + 2) + (kw + " " + text)) + rest == a + FilterText(f, b, upper);
  }

  lemma {:induction false} NamesShow(names: seq<string>)
    requires names != [] && forall k :: 0 <= k < |names| ==> Wordy(names[k])
    ensures Shows(Join(", ", names))
  {
    hide Goes, StartsVisibly, Wordy;
    WordShows(names[0]);
    if |names| > 1 {
      NamesShow(names[1..]);
      CommaShows();
      DirectThen(names[0], ",");
      LedBy(names[0] + ",", Join(", ", names[1..]));
      assert names[0] + "," + " " + Join(", ", names[1..]) == names[0] + ", " + Join(", ", names[1..]);
    }
  }

  lemma GroupsGo(a: string, groups: seq<string>, b: nat, upper: bool)
    requires Goes(a) && StartsVisibly(a) && forall k :: 0 <= k < |groups| ==> Wordy(groups[k])
    ensures Shows(a + GroupText(groups, b, upper))
  {
    hide Goes, StartsVisibly, Wordy, Line, Cased, Join;
    if groups == [] {
      assert a + "" == a;
    } else {
      KeywordsShow(upper);
      NamesShow(groups);
      var kw, text := Cased("GROUP BY", upper), Join(", ", groups);
      LedBy(kw, text);
      OnLine(a, 6 * b + 2, kw + " " + text);
      assert Line(6 * b + 2) + (kw + " " + text) == GroupText(groups, b, upper);
    }
  }

  lemma TailGoes(a: string, t: Tail, upper: bool)
    requires Goes(a) && StartsVisibly(a) && TailOk(t)
    ensures Shows(a + TailText(t, upper))
    decreases t, 1
  {
    hide Goes, StartsVisibly, Line, Cased, Lay, QueryOk, Normalize, Smooth, EndsVisibly;
    match t
    case Last => assert a + "" == a;
    case Then(op, q) =>
      assert op != "" by { assert "" !in SET_OPS; }
      NormalShows(op);
      CasedShows(op, upper);
      var kw, n := Cased(op, upper), Room(IndexOf(op, ' '));
      OnLine(a, n, kw);
      var body := LayShows(q, 0, upper);
      OnLine(a + (Line(n) + kw), 1, body);
      assert Line(1) + body == "\n" + Lay(q, 0, upper) by { LineIs(1, body); }
      assert a + (Line(n) + kw) + ("\n" + Lay(q, 0, upper)) == a + TailText(t, upper);
  }

  lemma LineIs(n: nat, body: string)
    ensures Line(n) + body == "\n" + (Spaces(n) + body)
  {
  }

  // The layout of a query is an indentation and a text that starts and ends visibly.
  lemma LayShows(q: Query, b: nat, upper: bool) returns (body: string)
    requires QueryOk(q)
    ensures Shows(body) && Lay(q, b, upper) == Spaces(6 * b + 1) + body
    decreases q, 0
  {
    hide Goes, StartsVisibly, Line, Cased, ItemsText, SourceText, LinkText, FilterText, GroupText, TailText, ItemOk,
      SourceOk, LinkOk, FilterOk, TailOk, Wordy;
    KeywordsShow(upper);
    ItemsShow(q.items, 6 * b + 8);
    var select, items := Cased("SELECT", upper), ItemsText(q.items, 6 * b + 8);
    LedBy(select, items);
    SourceShows(q.source, b, upper);
    var from, source := Cased("FROM", upper), SourceText(q.source, b, upper);
    LedBy(from, source);
    var s1 := select + " " + items;
    OnLine(s1, 6 * b + 3, from + " " + source);
    var s2 := s1 + (Line(6 * b + 3) + (from + " " + source));
    LinksGo(s2, q.links, b, upper);
    var s3 := s2 + LinkText(q.links, b, upper);
    FilterGoes(s3, q.filter, b, upper);
    var s4 := s3 + FilterText(q.filter, b, upper);
    GroupsGo(s4, q.groups, b, upper);
    var s5 := s4 + GroupText(q.groups, b, upper);
    TailGoes(s5, q.tail, upper);
    body := s5 + TailText(q.tail, upper);
    assert s2 == select + " " + items + Line(6 * b + 3) + from + " " + source;
  }

  lemma LayIsClean(q: Query, upper: bool)
    requires QueryOk(q)
    ensures PostProcess.Clean(Lay(q, 0, upper)) == Lay(q, 0, upper)
  {
    hide Lay, QueryOk, Smooth, EndsVisibly, StartsVisibly;
    var body := LayShows(q, 0, upper);
    IndentThen(1, body);
    SmoothIsClean(Lay(q, 0, upper));
  }
}
