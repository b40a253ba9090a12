// Merging the hints extracted from several statements.
module Hints {
  import opened Options
  import opened Text
  import opened FirstSeen

  // ---------------------------------------------------------------------
  // Join conditions as keys
  // ---------------------------------------------------------------------

  function RemoveBlanks(s: string): string {
    if s == "" then "" else (if s[0] == ' ' then "" else [s[0]]) + RemoveBlanks(s[1..])
  }

  // s.split("=")
  function Sides(s: string): (r: seq<string>)
    ensures r != []
  {
    if s == "" then [""]
    else
      var rest := Sides(s[1..]);
      if s[0] == '=' then [""] + rest else [[s[0]] + rest[0]] + rest[1..]
  }

  // Code point order.
  predicate Leq(a: string, b: string) {
    a == "" || (b != "" && (a[0] < b[0] || (a[0] == b[0] && Leq(a[1..], b[1..]))))
  }

  function Insert(x: string, xs: seq<string>): seq<string> {
    if xs == [] then [x] else if Leq(x, xs[0]) then [x] + xs else [xs[0]] + Insert(x, xs[1..])
  }

  function Sort(xs: seq<string>): seq<string> {
    if xs == [] then [] else Insert(xs[0], Sort(xs[1..]))
  }

  function NormalizeJoin(join: string): string {
    Join("=", Sort(Sides(RemoveBlanks(join))))
  }

  predicate Ascending(xs: seq<string>) {
    forall i, j :: 0 <= i < j < |xs| ==> Leq(xs[i], xs[j])
  }

  lemma {:induction false} LeqTotal(a: string, b: string)
    ensures Leq(a, b) || Leq(b, a)
    ensures Leq(a, b) && Leq(b, a) ==> a == b
  {
    if a != "" && b != "" && a[0] == b[0] {
      LeqTotal(a[1..], b[1..]);
      assert a == [a[0]] + a[1..] && b == [b[0]] + b[1..];
    }
  }

  // Equal up to some position, where the first ends or has the smaller character.
  lemma {:induction false} LeqIs(a: string, b: string)
    ensures Leq(a, b) <==>
      exists k: nat :: k <= |a| && k <= |b| && a[..k] == b[..k] && (k == |a| || (k < |b| && a[k] < b[k]))
  {
    if a == "" {
      assert a[..0] == b[..0];
    } else if b != "" {
      var x, y := a[1..], b[1..];
      LeqIs(x, y);
      if Leq(a, b) {
        if a[0] < b[0] {
          assert a[..0] == b[..0];
        } else {
          var k: nat :| k <= |x| && k <= |y| && x[..k] == y[..k] && (k == |x| || (k < |y| && x[k] < y[k]));
          assert a[..k + 1] == [a[0]] + x[..k] && b[..k + 1] == [b[0]] + y[..k];
        }
      }
      if k: nat :| k <= |a| && k <= |b| && a[..k] == b[..k] && (k == |a| || (k < |b| && a[k] < b[k])) {
        if k > 0 {
          assert a[0] == a[..k][0] && b[0] == b[..k][0];
          assert x[..k - 1] == a[..k][1..] && y[..k - 1] == b[..k][1..];
        }
      }
    }
  }

  lemma {:induction false} LeqTrans(a: string, b: string, c: string)
    requires Leq(a, b) && Leq(b, c)
    ensures Leq(a, c)
  {
    if a != "" && a[0] == b[0] && b[0] == c[0] {
      LeqTrans(a[1..], b[1..], c[1..]);
    }
  }

  lemma {:induction false} InsertMembers(x: string, xs: seq<string>)
    ensures multiset(Insert(x, xs)) == multiset(xs) + multiset{x}
  {
    hide Leq;
    if xs != [] {
      InsertMembers(x, xs[1..]);
      assert xs == [xs[0]] + xs[1..];
    }
  }

  lemma {:induction false} InsertSorts(x: string, xs: seq<string>)
    requires Ascending(xs)
    ensures Ascending(Insert(x, xs))
  {
    hide Leq;
    if xs == [] {
    } else if Leq(x, xs[0]) {
      forall j | 0 <= j < |xs| ensures Leq(x, xs[j]) {
        if j > 0 {
          LeqTrans(x, xs[0], xs[j]);
        }
      }
    } else {
      LeqTotal(x, xs[0]);
      var rest := Insert(x, xs[1..]);
      InsertSorts(x, xs[1..]);
      forall k | 0 <= k < |rest| ensures Leq(xs[0], rest[k]) {
        InsertMembers(x, xs[1..]);
        assert rest[k] in multiset(rest);
        assert rest[k] == x || rest[k] in xs[1..];
      }
    }
  }

  lemma {:induction false} SortSorts(xs: seq<string>)
    ensures Ascending(Sort(xs)) && multiset(Sort(xs)) == multiset(xs)
  {
    if xs != [] {
      SortSorts(xs[1..]);
      InsertSorts(xs[0], Sort(xs[1..]));
      InsertMembers(xs[0], Sort(xs[1..]));
      assert xs == [xs[0]] + xs[1..];
    }
  }

  lemma {:induction false} AscendingUnique(a: seq<string>, b: seq<string>)
    requires Ascending(a) && Ascending(b) && multiset(a) == multiset(b)
    ensures a == b
  {
    hide Leq;
    assert |a| == |multiset(a)| && |b| == |multiset(b)|;
    if a != [] {
      SmallestFirst(a, b);
      HeadTaken(a);
      HeadTaken(b);
      AscendingUnique(a[1..], b[1..]);
    }
  }

  lemma HeadTaken(a: seq<string>)
    requires a != []
    ensures a == [a[0]] + a[1..] && multiset(a[1..]) == multiset(a) - multiset{a[0]}
    ensures Ascending(a) ==> Ascending(a[1..])
  {
    hide Leq;
    assert a == [a[0]] + a[1..];
  }

  lemma SmallestFirst(a: seq<string>, b: seq<string>)
    requires Ascending(a) && Ascending(b) && multiset(a) == multiset(b) && a != [] && b != []
    ensures a[0] == b[0]
  {
    hide Leq;
    assert a[0] in multiset(b) && b[0] in multiset(a);
    var i :| 0 <= i < |b| && b[i] == a[0];
    var j :| 0 <= j < |a| && a[j] == b[0];
    assert j == 0 || Leq(a[0], a[j]);
    assert i == 0 || Leq(b[0], b[i]);
    LeqTotal(a[0], b[0]);
  }

  predicate OneSided(xs: seq<string>) {
    forall i :: 0 <= i < |xs| ==> '=' !in xs[i]
  }

  lemma {:induction false} SidesOneSided(s: string)
    ensures OneSided(Sides(s))
  {
    if s != "" {
      SidesOneSided(s[1..]);
    }
  }

  lemma {:induction false} SidesConcat(a: string, b: string)
    ensures Sides(a + "=" + b) == Sides(a) + Sides(b)
  {
    if a == "" {
      assert a + "=" + b == "=" + b;
      assert ("=" + b)[1..] == b;
    } else {
      assert (a + "=" + b)[1..] == a[1..] + "=" + b;
      SidesConcat(a[1..], b);
    }
  }

  lemma {:induction false} SidesOfSide(s: string)
    requires '=' !in s
    ensures Sides(s) == [s]
  {
    if s != "" {
      SidesOfSide(s[1..]);
      assert s == [s[0]] + s[1..];
    }
  }

  lemma {:induction false} SidesJoin(xs: seq<string>)
    requires xs != [] && OneSided(xs)
    ensures Sides(Join("=", xs)) == xs
  {
    SidesOfSide(xs[0]);
    if |xs| > 1 {
      SidesJoin(xs[1..]);
      SidesConcat(xs[0], Join("=", xs[1..]));
      assert xs == [xs[0]] + xs[1..];
    }
  }

  lemma {:induction false} SortKeepsOneSided(xs: seq<string>)
    requires OneSided(xs) && xs != []
    ensures OneSided(Sort(xs)) && Sort(xs) != []
  {
    SortSorts(xs);
    var r := Sort(xs);
    assert xs[0] in multiset(r);
    forall i | 0 <= i < |r| ensures '=' !in r[i] {
      assert r[i] in multiset(xs);
    }
  }

  // Two join conditions have the same key exactly when they compare the same
  // sides, in any order and with any blanks.
  lemma JoinKeysAgree(a: string, b: string)
    ensures NormalizeJoin(a) == NormalizeJoin(b) <==>
      multiset(Sides(RemoveBlanks(a))) == multiset(Sides(RemoveBlanks(b)))
  {
    var x, y := Sides(RemoveBlanks(a)), Sides(RemoveBlanks(b));
    SortSorts(x);
    SortSorts(y);
    SidesOneSided(RemoveBlanks(a));
    SidesOneSided(RemoveBlanks(b));
    SortKeepsOneSided(x);
    SortKeepsOneSided(y);
    SidesJoin(Sort(x));
    SidesJoin(Sort(y));
    if multiset(x) == multiset(y) {
      AscendingUnique(Sort(x), Sort(y));
    }
  }

  lemma {:induction false} RemoveBlanksConcat(a: string, b: string)
    ensures RemoveBlanks(a + b) == RemoveBlanks(a) + RemoveBlanks(b)
  {
    if a == "" {
      assert a + b == b;
    } else {
      assert (a + b)[1..] == a[1..] + b;
      RemoveBlanksConcat(a[1..], b);
    }
  }

  lemma JoinKeyIgnoresSides(a: string, b: string)
    ensures NormalizeJoin(a + "=" + b) == NormalizeJoin(b + "=" + a)
  {
    SidesOf(a, b);
    SidesOf(b, a);
    JoinKeysAgree(a + "=" + b, b + "=" + a);
  }

  lemma SidesOf(a: string, b: string)
    ensures Sides(RemoveBlanks(a + "=" + b)) == Sides(RemoveBlanks(a)) + Sides(RemoveBlanks(b))
  {
    RemoveBlanksConcat(a + "=", b);
    RemoveBlanksConcat(a, "=");
    assert RemoveBlanks("=") == "=" by {
      assert "="[1..] == "";
    }
    SidesConcat(RemoveBlanks(a), RemoveBlanks(b));
  }

  lemma {:induction false} NoBlankLeft(s: string)
    ensures ' ' !in RemoveBlanks(s)
    ensures ' ' !in s ==> RemoveBlanks(s) == s
  {
    if s != "" {
      NoBlankLeft(s[1..]);
      assert s == [s[0]] + s[1..];
    }
  }

  // Without its blanks a text is the same as without one more.
  lemma BlankAnywhere(a: string, b: string)
    ensures RemoveBlanks(a + " " + b) == RemoveBlanks(a + b)
    ensures NormalizeJoin(a + " " + b) == NormalizeJoin(a + b)
  {
    hide RemoveBlanks, Sides, Sort;
    RemoveBlanksConcat(a + " ", b);
    RemoveBlanksConcat(a, " ");
    RemoveBlanksConcat(a, b);
    assert RemoveBlanks(" ") == "" by { OneBlankGone(); }
  }

  lemma OneBlankGone()
    ensures RemoveBlanks(" ") == ""
  {
    assert " "[1..] == "";
  }

  // A join as it is extracted, with blanks around the sign, has the key of the same join
  // written the other way round and without them.
  lemma JoinEitherWay(a: string, b: string)
    ensures NormalizeJoin(a + " = " + b) == NormalizeJoin(b + " = " + a) == NormalizeJoin(a + "=" + b)
  {
    hide NormalizeJoin;
    Spaced(a, b);
    Spaced(b, a);
    JoinKeyIgnoresSides(a, b);
  }

  lemma Spaced(a: string, b: string)
    ensures NormalizeJoin(a + " = " + b) == NormalizeJoin(a + "=" + b)
  {
    hide NormalizeJoin;
    assert a + " = " + b == a + " " + ("= " + b);
    BlankAnywhere(a, "= " + b);
    assert a + ("= " + b) == a + "=" + " " + b;
    BlankAnywhere(a + "=", b);
  }

  // The key of a join of two sides without blanks and signs: the smaller side first.
  lemma KeyOfTwo(a: string, b: string)
    requires ' ' !in a && ' ' !in b && '=' !in a && '=' !in b
    ensures NormalizeJoin(a + " = " + b) == if Leq(a, b) then a + "=" + b else b + "=" + a
  {
    hide NormalizeJoin, Leq;
    Spaced(a, b);
    TwoSides(a, b);
  }

  lemma TwoSides(a: string, b: string)
    requires ' ' !in a && ' ' !in b && '=' !in a && '=' !in b
    ensures NormalizeJoin(a + "=" + b) == if Leq(a, b) then a + "=" + b else b + "=" + a
  {
    hide RemoveBlanks, Sides, Leq;
    SidesOf(a, b);
    NoBlankLeft(a);
    NoBlankLeft(b);
    OneSide(a);
    OneSide(b);
    SortTwo(a, b);
    JoinTwo(a, b);
    JoinTwo(b, a);
    assert [a] + [b] == [a, b];
  }

  lemma SortTwo(a: string, b: string)
    ensures Sort([a, b]) == if Leq(a, b) then [a, b] else [b, a]
  {
    hide Leq;
    var xs := [a, b];
    assert xs[1..] == [b] && [b][1..] == [] && Sort([b]) == [b] && Insert(a, []) == [a];
    assert Sort(xs) == Insert(a, [b]);
    assert [b][0] == b && [b] + [a] == [b, a] && [a] + [b] == [a, b];
  }

  lemma JoinTwo(a: string, b: string)
    ensures Join("=", [a, b]) == a + "=" + b
  {
    assert [a, b][1..] == [b];
  }

  lemma {:induction false} OneSide(a: string)
    requires '=' !in a
    ensures Sides(a) == [a]
  {
    if a != "" {
      OneSide(a[1..]);
      assert a == [a[0]] + a[1..];
    }
  }

  // ---------------------------------------------------------------------
  // Hints
  // ---------------------------------------------------------------------

  datatype DateFilter = DateFilter(column: string, format: string)

  // One entry of the dictionary from columns to the codes they are compared with.
  datatype Code = Code(column: string, values: seq<string>)

  datatype Hint = Hint(
    joins: seq<string>,
    codes: seq<Code>,             // a dictionary in insertion order
    aggregates: seq<string>,
    dateFilters: seq<DateFilter>,
    tables: seq<string>,
    selects: seq<string>,
    groupBys: seq<string>,
    orderBys: seq<string>,
    limit: Option<int>,
    distinct: bool,
    subquery: bool,
    having: bool
  )

  const NO_HINTS := Hint([], [], [], [], [], [], [], [], None, false, false, false)

  function Gather<T>(hs: seq<Hint>, field: Hint -> seq<T>): seq<T> {
    if hs == [] then [] else Gather(hs[..|hs| - 1], field) + field(hs[|hs| - 1])
  }

  function Columns(codes: seq<Code>): seq<string> {
    seq(|codes|, i requires 0 <= i < |codes| => codes[i].column)
  }

  // All values given for a column, in order.
  function ValuesOf(codes: seq<Code>, column: string): seq<string> {
    if codes == [] then []
    else
      var last := codes[|codes| - 1];
      ValuesOf(codes[..|codes| - 1], column) + (if last.column == column then last.values else [])
  }

  // One entry a column, in the order of first mention, with its values in the order
  // of first mention.
  function MergedCodes(codes: seq<Code>): seq<Code> {
    var columns := Firsts(Columns(codes), Same);
    seq(|columns|, i requires 0 <= i < |columns| => Code(columns[i], Firsts(ValuesOf(codes, columns[i]), Same)))
  }

  function FirstLimit(hs: seq<Hint>): Option<int> {
    if hs == [] then None
    else
      var before := FirstLimit(hs[..|hs| - 1]);
      if before.Some? then before else hs[|hs| - 1].limit
  }

  predicate Any(hs: seq<Hint>, flag: Hint -> bool) {
    exists i :: 0 <= i < |hs| && flag(hs[i])
  }

  function Joins(h: Hint): seq<string> { h.joins }
  function Codes(h: Hint): seq<Code> { h.codes }
  function Aggregates(h: Hint): seq<string> { h.aggregates }
  function DateFilters(h: Hint): seq<DateFilter> { h.dateFilters }
  function Tables(h: Hint): seq<string> { h.tables }
  function Selects(h: Hint): seq<string> { h.selects }
  function GroupBys(h: Hint): seq<string> { h.groupBys }
  function OrderBys(h: Hint): seq<string> { h.orderBys }
  predicate Distinct(h: Hint) { h.distinct }
  predicate Subquery(h: Hint) { h.subquery }
  predicate Having(h: Hint) { h.having }

  function Merge(hs: seq<Hint>): Hint {
    Hint(
      Firsts(Gather(hs, Joins), NormalizeJoin),
      MergedCodes(Gather(hs, Codes)),
      Firsts(Gather(hs, Aggregates), Upper),
      Firsts(Gather(hs, DateFilters), Same),
      Firsts(Gather(hs, Tables), Same),
      Firsts(Gather(hs, Selects), Same),
      Firsts(Gather(hs, GroupBys), Same),
      Firsts(Gather(hs, OrderBys), Same),
      FirstLimit(hs),
      Any(hs, Distinct),
      Any(hs, Subquery),
      Any(hs, Having)
    )
  }

  // ---------------------------------------------------------------------
  // Merging in parts
  // ---------------------------------------------------------------------

  lemma {:induction false} GatherConcat<T>(xs: seq<Hint>, ys: seq<Hint>, field: Hint -> seq<T>)
    ensures Gather(xs + ys, field) == Gather(xs, field) + Gather(ys, field)
    decreases |ys|
  {
    if ys == [] {
      assert xs + ys == xs;
    } else {
      var before := ys[..|ys| - 1];
      GatherConcat(xs, before, field);
      assert (xs + ys)[..|xs + ys| - 1] == xs + before;
    }
  }

  lemma GatherTwo<T>(a: Hint, b: Hint, field: Hint -> seq<T>)
    ensures Gather([a, b], field) == field(a) + field(b)
  {
    assert [a, b][..1] == [a] && [a][..0] == [];
    assert Gather([a], field) == field(a);
  }

  lemma PartsFirst<T, K>(xs: seq<Hint>, ys: seq<Hint>, field: Hint -> seq<T>, key: T -> K, a: Hint, b: Hint)
    requires field(a) == Firsts(Gather(xs, field), key) && field(b) == Firsts(Gather(ys, field), key)
    ensures Firsts(Gather([a, b], field), key) == Firsts(Gather(xs + ys, field), key)
  {
    GatherTwo(a, b, field);
    GatherConcat(xs, ys, field);
    FirstsHomomorphism(Gather(xs, field), Gather(ys, field), key);
  }

  lemma {:induction false} FirstLimitConcat(xs: seq<Hint>, ys: seq<Hint>)
    ensures FirstLimit(xs + ys) == if FirstLimit(xs).Some? then FirstLimit(xs) else FirstLimit(ys)
    decreases |ys|
  {
    if ys == [] {
      assert xs + ys == xs;
    } else {
      FirstLimitConcat(xs, ys[..|ys| - 1]);
      assert (xs + ys)[..|xs + ys| - 1] == xs + ys[..|ys| - 1];
    }
  }

  lemma FirstLimitTwo(a: Hint, b: Hint)
    ensures FirstLimit([a, b]) == if a.limit.Some? then a.limit else b.limit
  {
    assert [a, b][..1] == [a] && [a][..0] == [];
    assert FirstLimit([a]) == a.limit;
  }

  lemma AnyConcat(xs: seq<Hint>, ys: seq<Hint>, flag: Hint -> bool)
    ensures Any(xs + ys, flag) <==> Any(xs, flag) || Any(ys, flag)
  {
    var all := xs + ys;
    if i :| 0 <= i < |xs| && flag(xs[i]) {
      assert all[i] == xs[i];
    }
    if i :| 0 <= i < |ys| && flag(ys[i]) {
      assert all[|xs| + i] == ys[i];
    }
    if i :| 0 <= i < |all| && flag(all[i]) {
      assert if i < |xs| then xs[i] == all[i] else ys[i - |xs|] == all[i];
    }
  }

  lemma AnyTwo(a: Hint, b: Hint, flag: Hint -> bool)
    ensures Any([a, b], flag) <==> flag(a) || flag(b)
  {
    assert [a, b][0] == a && [a, b][1] == b;
  }

  lemma {:induction false} ValuesOfConcat(a: seq<Code>, b: seq<Code>, column: string)
    ensures ValuesOf(a + b, column) == ValuesOf(a, column) + ValuesOf(b, column)
    decreases |b|
  {
    if b == [] {
      assert a + b == a;
    } else {
      ValuesOfConcat(a, b[..|b| - 1], column);
      assert (a + b)[..|a + b| - 1] == a + b[..|b| - 1];
    }
  }

  lemma {:induction false} ValuesOfAbsent(codes: seq<Code>, column: string)
    requires !HasKey(Columns(codes), Same, column)
    ensures ValuesOf(codes, column) == []
  {
    if codes != [] {
      var before := codes[..|codes| - 1];
      assert Columns(codes) == Columns(before) + [codes[|codes| - 1].column];
      HasKeyPush(Columns(before), codes[|codes| - 1].column, Same, column);
      ValuesOfAbsent(before, column);
    }
  }

  lemma {:induction false} ValuesOfEntry(codes: seq<Code>, k: nat)
    requires k < |codes|
    requires forall i, j :: 0 <= i < j < |codes| ==> codes[i].column != codes[j].column
    ensures ValuesOf(codes, codes[k].column) == codes[k].values
  {
    var before, last := codes[..|codes| - 1], codes[|codes| - 1];
    if k == |before| {
      forall i | 0 <= i < |Columns(before)| ensures Columns(before)[i] != last.column {
        assert codes[i] == before[i];
      }
      ValuesOfAbsent(before, last.column);
    } else {
      ValuesOfEntry(before, k);
      assert before[k] == codes[k] && codes[k].column != last.column;
    }
  }

  lemma MergedCodesParts(codes: seq<Code>)
    ensures Columns(MergedCodes(codes)) == Firsts(Columns(codes), Same)
    ensures forall column :: ValuesOf(MergedCodes(codes), column) == Firsts(ValuesOf(codes, column), Same)
  {
    var merged, columns := MergedCodes(codes), Firsts(Columns(codes), Same);
    assert Columns(merged) == columns;
    FirstsDistinct(Columns(codes), Same);
    forall column ensures ValuesOf(merged, column) == Firsts(ValuesOf(codes, column), Same) {
      FirstsKeys(Columns(codes), Same, column);
      if k :| 0 <= k < |columns| && Same(columns[k]) == column {
        ValuesOfEntry(merged, k);
      } else {
        ValuesOfAbsent(codes, column);
        ValuesOfAbsent(merged, column);
      }
    }
  }

  lemma MergedCodesHomomorphism(a: seq<Code>, b: seq<Code>)
    ensures MergedCodes(MergedCodes(a) + MergedCodes(b)) == MergedCodes(a + b)
  {
    hide Firsts, ValuesOf;
    var x, y := MergedCodes(a), MergedCodes(b);
    MergedCodesParts(a);
    MergedCodesParts(b);
    assert Columns(x + y) == Columns(x) + Columns(y);
    assert Columns(a + b) == Columns(a) + Columns(b);
    FirstsHomomorphism(Columns(a), Columns(b), Same);
    var columns := Firsts(Columns(a + b), Same);
    forall i | 0 <= i < |columns| ensures Firsts(ValuesOf(x + y, columns[i]), Same) ==
      Firsts(ValuesOf(a + b, columns[i]), Same) {
      ValuesOfConcat(x, y, columns[i]);
      ValuesOfConcat(a, b, columns[i]);
      FirstsHomomorphism(ValuesOf(a, columns[i]), ValuesOf(b, columns[i]), Same);
    }
  }

  // Merging the results of two merges is merging everything at once: in all twelve
  // fields, order of first mention and first limit included.
  lemma MergeHomomorphism(xs: seq<Hint>, ys: seq<Hint>)
    ensures Merge([Merge(xs), Merge(ys)]) == Merge(xs + ys)
  {
    hide Gather, Firsts, MergedCodes, FirstLimit, Any;
    var a, b := Merge(xs), Merge(ys);
    PartsFirst(xs, ys, Joins, NormalizeJoin, a, b);
    PartsFirst(xs, ys, Aggregates, Upper, a, b);
    PartsFirst(xs, ys, DateFilters, Same, a, b);
    PartsFirst(xs, ys, Tables, Same, a, b);
    PartsFirst(xs, ys, Selects, Same, a, b);
    PartsFirst(xs, ys, GroupBys, Same, a, b);
    PartsFirst(xs, ys, OrderBys, Same, a, b);
    GatherTwo(a, b, Codes);
    GatherConcat(xs, ys, Codes);
    MergedCodesHomomorphism(Gather(xs, Codes), Gather(ys, Codes));
    FirstLimitTwo(a, b);
    FirstLimitConcat(xs, ys);
    AnyTwo(a, b, Distinct);
    AnyTwo(a, b, Subquery);
    AnyTwo(a, b, Having);
    AnyConcat(xs, ys, Distinct);
    AnyConcat(xs, ys, Subquery);
    AnyConcat(xs, ys, Having);
  }

  // No hints are the unit, and merging once more changes nothing.
  lemma MergeIdempotent(xs: seq<Hint>)
    ensures Merge([Merge(xs), Merge([])]) == Merge(xs) && Merge([]) == NO_HINTS
  {
    MergeHomomorphism(xs, []);
    assert xs + [] == xs;
  }

  lemma {:induction false} GatherHas<T, K>(hs: seq<Hint>, field: Hint -> seq<T>, key: T -> K, k: K)
    ensures HasKey(Gather(hs, field), key, k) <==> exists i :: 0 <= i < |hs| && HasKey(field(hs[i]), key, k)
  {
    if hs != [] {
      var before, last := hs[..|hs| - 1], hs[|hs| - 1];
      GatherHas(before, field, key, k);
      HasKeyConcat(Gather(before, field), field(last), key, k);
      if i :| 0 <= i < |before| && HasKey(field(before[i]), key, k) {
        assert hs[i] == before[i];
      }
      if i :| 0 <= i < |hs| && HasKey(field(hs[i]), key, k) {
        assert i < |before| ==> before[i] == hs[i];
      }
    }
  }

  // A merged list has each key of its inputs exactly once and no other.
  lemma MergedOnce<T, K>(hs: seq<Hint>, field: Hint -> seq<T>, key: T -> K)
    ensures
      var merged := Firsts(Gather(hs, field), key);
      && (forall i, j :: 0 <= i < j < |merged| ==> key(merged[i]) != key(merged[j]))
      && (forall k :: HasKey(merged, key, k) <==> exists i :: 0 <= i < |hs| && HasKey(field(hs[i]), key, k))
  {
    FirstsDistinct(Gather(hs, field), key);
    forall k ensures HasKey(Firsts(Gather(hs, field), key), key, k) <==>
      exists i :: 0 <= i < |hs| && HasKey(field(hs[i]), key, k) {
      FirstsKeys(Gather(hs, field), key, k);
      GatherHas(hs, field, key, k);
    }
  }

  // Column c is compared with value v.
  predicate Lists(codes: seq<Code>, c: string, v: string) {
    exists i :: 0 <= i < |codes| && codes[i].column == c && v in codes[i].values
  }

  lemma ListsConcat(a: seq<Code>, b: seq<Code>, c: string, v: string)
    ensures Lists(a + b, c, v) <==> Lists(a, c, v) || Lists(b, c, v)
  {
    var all := a + b;
    if i :| 0 <= i < |a| && a[i].column == c && v in a[i].values {
      assert all[i] == a[i];
    }
    if i :| 0 <= i < |b| && b[i].column == c && v in b[i].values {
      assert all[|a| + i] == b[i];
    }
    if i :| 0 <= i < |all| && all[i].column == c && v in all[i].values {
      assert if i < |a| then a[i] == all[i] else b[i - |a|] == all[i];
    }
  }

  lemma {:induction false} ListsValues(codes: seq<Code>, c: string, v: string)
    ensures Lists(codes, c, v) <==> v in ValuesOf(codes, c)
  {
    if codes != [] {
      var before, last := codes[..|codes| - 1], codes[|codes| - 1];
      ListsValues(before, c, v);
      ListsConcat(before, [last], c, v);
      assert codes == before + [last];
      assert Lists([last], c, v) <==> last.column == c && v in last.values by {
        assert [last][0] == last;
      }
    }
  }

  lemma {:induction false} ListsGathered(hs: seq<Hint>, c: string, v: string)
    ensures Lists(Gather(hs, Codes), c, v) <==> exists i :: 0 <= i < |hs| && Lists(hs[i].codes, c, v)
  {
    if hs != [] {
      var before, last := hs[..|hs| - 1], hs[|hs| - 1];
      hide Lists;
      ListsGathered(before, c, v);
      ListsConcat(Gather(before, Codes), last.codes, c, v);
      if i :| 0 <= i < |before| && Lists(before[i].codes, c, v) {
        assert hs[i] == before[i];
      }
      if i :| 0 <= i < |hs| && Lists(hs[i].codes, c, v) {
        assert i < |before| ==> before[i] == hs[i];
      }
    }
  }

  // In the merged dictionary of codes no column comes twice and no value of a column
  // does, and it lists exactly what the dictionaries merged list.
  lemma CodesOnce(hs: seq<Hint>)
    ensures
      var merged := Merge(hs).codes;
      && (forall i, j :: 0 <= i < j < |merged| ==> merged[i].column != merged[j].column)
      && (forall k, i, j :: 0 <= k < |merged| && 0 <= i < j < |merged[k].values| ==>
           merged[k].values[i] != merged[k].values[j])
      && (forall c, v :: Lists(merged, c, v) <==> exists i :: 0 <= i < |hs| && Lists(hs[i].codes, c, v))
  {
    hide Gather, ValuesOf, Firsts, Lists, HasKey;
    var codes := Gather(hs, Codes);
    var merged := Merge(hs).codes;
    FirstsDistinct(Columns(codes), Same);
    var columns := Firsts(Columns(codes), Same);
    forall i, j | 0 <= i < j < |merged| ensures merged[i].column != merged[j].column {
      assert merged[i].column == Same(columns[i]) && merged[j].column == Same(columns[j]);
    }
    forall k, i, j | 0 <= k < |merged| && 0 <= i < j < |merged[k].values|
      ensures merged[k].values[i] != merged[k].values[j]
    {
      var values := ValuesOf(codes, columns[k]);
      FirstsDistinct(values, Same);
      assert merged[k].values == Firsts(values, Same);
      assert Same(merged[k].values[i]) != Same(merged[k].values[j]);
    }
    MergedCodesParts(codes);
    forall c, v ensures Lists(merged, c, v) <==> exists i :: 0 <= i < |hs| && Lists(hs[i].codes, c, v) {
      ListsValues(merged, c, v);
      ListsValues(codes, c, v);
      MemberKey(ValuesOf(codes, c), v);
      MemberKey(ValuesOf(merged, c), v);
      FirstsKeys(ValuesOf(codes, c), Same, v);
      ListsGathered(hs, c, v);
    }
  }

  // Order of first mention is not order of frequency: b is mentioned twice, a once, and
  // a comes first.
  const MENTIONS_A := NO_HINTS.(tables := ["a"])
  const MENTIONS_B := NO_HINTS.(tables := ["b"])

  lemma FrequencyIgnored()
    ensures
      var hs := [MENTIONS_A, MENTIONS_B, MENTIONS_B];
      && Merge(hs).tables == ["a", "b"]
      && Gather(hs, Tables) == ["a", "b", "b"]
      && multiset(Gather(hs, Tables))["a"] < multiset(Gather(hs, Tables))["b"]
  {
    hide Firsts, Gather, NormalizeJoin, MergedCodes, Upper;
    ThreeMentions();
    KeepsFirst("a", "b");
    CountThree("a", "b");
  }

  lemma ThreeMentions()
    ensures Gather([MENTIONS_A, MENTIONS_B, MENTIONS_B], Tables) == ["a", "b", "b"]
  {
    hide Gather;
    var hs := [MENTIONS_A, MENTIONS_B, MENTIONS_B];
    assert hs[..3] == hs && hs[..2] == [MENTIONS_A, MENTIONS_B];
    GatherTwo(MENTIONS_A, MENTIONS_B, Tables);
    GatherPush(hs, 2, Tables);
  }

  lemma KeepsFirst(x: string, y: string)
    requires x != y
    ensures Firsts([x, y, y], Same) == [x, y]
  {
    hide Firsts, HasKey;
    FirstsNone<string, string>(Same);
    FirstsPush([], x, Same);
    FirstsPush([x], y, Same);
    FirstsPush([x, y], y, Same);
    MemberKey([], x);
    MemberKey([x], y);
    MemberKey([x, y], y);
    assert [] + [x] == [x] && [x] + [y] == [x, y] && [x, y] + [y] == [x, y, y];
  }

  lemma CountThree(x: string, y: string)
    requires x != y
    ensures multiset([x, y, y])[x] == 1 && multiset([x, y, y])[y] == 2
  {
    assert [x, y, y] == [x, y] + [y] && [x, y] == [x] + [y];
  }

  // ---------------------------------------------------------------------
  // The loop
  // ---------------------------------------------------------------------

  function Find(codes: seq<Code>, column: string): (i: nat)
    ensures i <= |codes|
    ensures i < |codes| ==> codes[i].column == column
    ensures forall k :: 0 <= k < i ==> codes[k].column != column
  {
    if codes == [] || codes[0].column == column then 0 else 1 + Find(codes[1..], column)
  }

  lemma ValuesOfOne(c: Code, column: string)
    ensures ValuesOf([c], column) == if c.column == column then c.values else []
  {
    assert [c][..0] == [] && ValuesOf([], column) == [];
  }

  lemma NoneFirst<T, K>(key: T -> K)
    ensures Firsts([], key) == []
  {
  }

  lemma MergedCodesPush(codes: seq<Code>, c: Code)
    ensures
      var merged := MergedCodes(codes);
      var i := Find(merged, c.column);
      MergedCodes(codes + [c]) ==
        if i < |merged| then merged[i := Code(c.column, Firsts(ValuesOf(codes, c.column) + c.values, Same))]
        else merged + [Code(c.column, Firsts(ValuesOf(codes, c.column) + c.values, Same))]
    ensures
      var merged := MergedCodes(codes);
      var i := Find(merged, c.column);
      Firsts(ValuesOf(codes, c.column), Same) == if i < |merged| then merged[i].values else []
  {
    hide Firsts, ValuesOf;
    var merged, all := MergedCodes(codes), codes + [c];
    var i := Find(merged, c.column);
    assert Columns(all) == Columns(codes) + [c.column];
    FirstsPush(Columns(codes), c.column, Same);
    FirstsKeys(Columns(codes), Same, c.column);
    FirstsDistinct(Columns(codes), Same);
    var columns := Firsts(Columns(codes), Same);
    assert |columns| == |merged| && forall k :: 0 <= k < |columns| ==> merged[k].column == columns[k];
    assert HasKey(columns, Same, c.column) <==> i < |merged|;
    if i == |merged| {
      ValuesOfAbsent(codes, c.column);
      NoneFirst<string, string>(Same);
    }
    var r := MergedCodes(all);
    forall k | 0 <= k < |r| ensures
      r[k] == Code(r[k].column, Firsts(ValuesOf(codes, r[k].column) +
        (if r[k].column == c.column then c.values else []), Same))
    {
      ValuesOfConcat(codes, [c], r[k].column);
      ValuesOfOne(c, r[k].column);
    }
    forall k | 0 <= k < |merged| && k != i ensures r[k] == merged[k] {
      assert columns[k] != c.column;
      assert ValuesOf(codes, columns[k]) + [] == ValuesOf(codes, columns[k]);
    }
  }

  // Dictionary of columns: a new column starts an empty list, then each value not
  // there yet is appended.
  method MergeCodes(kept: seq<Code>, xs: seq<Code>, ghost prior: seq<Code>) returns (kept': seq<Code>)
    requires kept == MergedCodes(prior)
    ensures kept' == MergedCodes(prior + xs)
  {
    kept' := kept;
    assert prior + xs[..0] == prior;
    for n := 0 to |xs|
      invariant kept' == MergedCodes(prior + xs[..n])
    {
      var c := xs[n];
      ghost var sofar := prior + xs[..n];
      assert prior + xs[..n + 1] == sofar + [c];
      MergedCodesPush(sofar, c);
      var i := Find(kept', c.column);
      var entry := if i < |kept'| then kept'[i].values else [];
      var values := MergePlain(entry, c.values, ValuesOf(sofar, c.column));
      kept' := if i < |kept'| then kept'[i := Code(c.column, values)] else kept' + [Code(c.column, values)];
    }
    assert xs[..|xs|] == xs;
  }

  lemma GatherPush<T>(hs: seq<Hint>, n: nat, field: Hint -> seq<T>)
    requires n < |hs|
    ensures Gather(hs[..n + 1], field) == Gather(hs[..n], field) + field(hs[n])
  {
    assert hs[..n + 1][..n] == hs[..n];
  }

  lemma AnyPush(hs: seq<Hint>, n: nat, flag: Hint -> bool)
    requires n < |hs|
    ensures Any(hs[..n + 1], flag) <==> Any(hs[..n], flag) || flag(hs[n])
  {
    assert hs[..n + 1] == hs[..n] + [hs[n]];
    AnyConcat(hs[..n], [hs[n]], flag);
    assert [hs[n]][0] == hs[n];
  }

  method MergeHints(hs: seq<Hint>) returns (merged: Hint)
    ensures merged == Merge(hs)
  {
    hide Gather, Firsts, MergedCodes, Any, HasKey, NormalizeJoin, Upper;
    merged := NO_HINTS;
    var seenJoins: set<string> := {};
    var seenAggregates: set<string> := {};
    NothingMerged();
    assert hs[..0] == [];
    for n := 0 to |hs|
      invariant merged == Merge(hs[..n])
      invariant forall k :: k in seenJoins <==> HasKey(Gather(hs[..n], Joins), NormalizeJoin, k)
      invariant forall k :: k in seenAggregates <==> HasKey(Gather(hs[..n], Aggregates), Upper, k)
    {
      var h := hs[n];
      ghost var before := hs[..n];
      OneMore(hs, n);
      var joins, codes, aggregates;
      joins, seenJoins := MergeKeyed(merged.joins, seenJoins, h.joins, NormalizeJoin, Gather(before, Joins));
      codes := MergeCodes(merged.codes, h.codes, Gather(before, Codes));
      aggregates, seenAggregates := MergeKeyed(merged.aggregates, seenAggregates, h.aggregates, Upper,
        Gather(before, Aggregates));
      var dateFilters := MergePlain(merged.dateFilters, h.dateFilters, Gather(before, DateFilters));
      var tables := MergePlain(merged.tables, h.tables, Gather(before, Tables));
      var selects := MergePlain(merged.selects, h.selects, Gather(before, Selects));
      var groupBys := MergePlain(merged.groupBys, h.groupBys, Gather(before, GroupBys));
      var orderBys := MergePlain(merged.orderBys, h.orderBys, Gather(before, OrderBys));
      var limit := if h.limit.Some? && merged.limit.None? then h.limit else merged.limit;
      merged := Hint(joins, codes, aggregates, dateFilters, tables, selects, groupBys, orderBys, limit,
                     merged.distinct || h.distinct, merged.subquery || h.subquery, merged.having || h.having);
    }
    assert hs[..|hs|] == hs;
  }

  lemma NothingMerged()
    ensures Merge([]) == NO_HINTS
    ensures forall k :: !HasKey(Gather([], Joins), NormalizeJoin, k)
    ensures forall k :: !HasKey(Gather([], Aggregates), Upper, k)
  {
  }

  lemma OneMore(hs: seq<Hint>, n: nat)
    requires n < |hs|
    ensures
      var before, h := hs[..n], hs[n];
      Merge(hs[..n + 1]) == Hint(
        Firsts(Gather(before, Joins) + h.joins, NormalizeJoin),
        MergedCodes(Gather(before, Codes) + h.codes),
        Firsts(Gather(before, Aggregates) + h.aggregates, Upper),
        Firsts(Gather(before, DateFilters) + h.dateFilters, Same),
        Firsts(Gather(before, Tables) + h.tables, Same),
        Firsts(Gather(before, Selects) + h.selects, Same),
        Firsts(Gather(before, GroupBys) + h.groupBys, Same),
        Firsts(Gather(before, OrderBys) + h.orderBys, Same),
        if h.limit.Some? && FirstLimit(before).None? then h.limit else FirstLimit(before),
        Any(before, Distinct) || h.distinct,
        Any(before, Subquery) || h.subquery,
        Any(before, Having) || h.having)
    ensures Gather(hs[..n + 1], Joins) == Gather(hs[..n], Joins) + hs[n].joins
    ensures Gather(hs[..n + 1], Aggregates) == Gather(hs[..n], Aggregates) + hs[n].aggregates
  {
    hide Gather, Firsts, MergedCodes, Any;
    GatherPush(hs, n, Joins);
    GatherPush(hs, n, Codes);
    GatherPush(hs, n, Aggregates);
    GatherPush(hs, n, DateFilters);
    GatherPush(hs, n, Tables);
    GatherPush(hs, n, Selects);
    GatherPush(hs, n, GroupBys);
    GatherPush(hs, n, OrderBys);
    AnyPush(hs, n, Distinct);
    AnyPush(hs, n, Subquery);
    AnyPush(hs, n, Having);
    assert hs[..n + 1][..n] == hs[..n];
  }
}
