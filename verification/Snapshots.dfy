// Restoring the snapshots of the latest turns of a conversation.
module Snapshots {
  import opened Options

  datatype Role = User | Assistant | Other

  // A row of the message table; builds says whether its snapshot can be built.
  datatype Message = Message(seqNo: int, role: Role, normal: bool, success: bool, hasSql: bool, builds: bool)

  // A restored snapshot: the answer it comes from and the user message it is paired with.
  datatype Turn = Turn(answer: int, user: int)

  // The rows of one conversation by their number, which starts at 1.
  predicate IsTable(table: seq<Message>) {
    && (forall i :: 0 <= i < |table| ==> table[i].seqNo >= 1)
    && (forall i, j :: 0 <= i < j < |table| ==> table[i].seqNo < table[j].seqNo)
  }

  // ---------------------------------------------------------------------
  // The two queries
  // ---------------------------------------------------------------------

  predicate Qualifies(m: Message) {
    m.role.Assistant? && m.normal && m.success && m.hasSql
  }

  predicate Asks(m: Message) {
    m.role.User? && m.normal
  }

  function Qualifying(table: seq<Message>): (r: seq<Message>)
    ensures |r| <= |table|
  {
    if table == [] then []
    else Qualifying(table[..|table| - 1]) + (if Qualifies(table[|table| - 1]) then [table[|table| - 1]] else [])
  }

  function Reverse<T>(s: seq<T>): (r: seq<T>)
    ensures |r| == |s| && forall i :: 0 <= i < |s| ==> r[i] == s[|s| - 1 - i]
  {
    if s == [] then [] else Reverse(s[1..]) + [s[0]]
  }

  function Last<T>(s: seq<T>, n: nat): seq<T> {
    if |s| > n then s[|s| - n..] else s
  }

  // ORDER BY seq DESC LIMIT limit
  function AnswerRows(table: seq<Message>, limit: nat): seq<Message> {
    Reverse(Last(Qualifying(table), limit))
  }

  // SELECT MAX(seq) ... WHERE seq < a
  function UserSeq(table: seq<Message>, a: int): (r: Option<int>)
    ensures r.Some? ==> exists i :: 0 <= i < |table| && Asks(table[i]) && table[i].seqNo == r.value < a
  {
    if table == [] then None
    else
      var before, last := UserSeq(table[..|table| - 1], a), table[|table| - 1];
      if Asks(last) && last.seqNo < a && (before.None? || before.value < last.seqNo) then Some(last.seqNo) else before
  }

  // ---------------------------------------------------------------------
  // Building and sorting
  // ---------------------------------------------------------------------

  // The user message of an answer; 0 when there is none or the lookup failed.
  function Pairing(table: seq<Message>, found: bool, a: int): int {
    if found && UserSeq(table, a).Some? then UserSeq(table, a).value else 0
  }

  function Built(table: seq<Message>, found: bool, rows: seq<Message>): seq<Turn> {
    if rows == [] then []
    else
      var last := rows[|rows| - 1];
      Built(table, found, rows[..|rows| - 1]) +
      (if last.builds then [Turn(last.seqNo, Pairing(table, found, last.seqNo))] else [])
  }

  // list.sort is stable: a later element goes behind those with the same key.
  function Insert(sorted: seq<Turn>, t: Turn): seq<Turn> {
    if sorted == [] then [t]
    else if sorted[0].user <= t.user then [sorted[0]] + Insert(sorted[1..], t)
    else [t] + sorted
  }

  function StableSort(turns: seq<Turn>): seq<Turn> {
    if turns == [] then [] else Insert(StableSort(turns[..|turns| - 1]), turns[|turns| - 1])
  }

  function Restored(table: seq<Message>, limit: nat, found: bool): seq<Turn> {
    StableSort(Built(table, found, AnswerRows(table, limit)))
  }

  // What a caller expects: the newest qualifying turns that build, oldest first.
  function Expected(table: seq<Message>, limit: nat, found: bool): seq<Turn> {
    Built(table, found, Last(Qualifying(table), limit))
  }

  // ---------------------------------------------------------------------
  // Pairing
  // ---------------------------------------------------------------------

  lemma {:induction false} UserSeqIsLatest(table: seq<Message>, a: int)
    ensures forall i :: 0 <= i < |table| && Asks(table[i]) && table[i].seqNo < a ==>
      UserSeq(table, a).Some? && table[i].seqNo <= UserSeq(table, a).value
  {
    if table != [] {
      UserSeqIsLatest(table[..|table| - 1], a);
    }
  }

  predicate AskedBetween(table: seq<Message>, a: int, b: int) {
    exists i :: 0 <= i < |table| && Asks(table[i]) && a <= table[i].seqNo < b
  }

  // Later answers are paired with the same or a later user message; with a later one
  // exactly if the user wrote in between.
  lemma PairingGrows(table: seq<Message>, found: bool, a: int, b: int)
    requires IsTable(table) && a < b
    ensures Pairing(table, found, a) <= Pairing(table, found, b)
    ensures Pairing(table, found, a) < Pairing(table, found, b) <==> found && AskedBetween(table, a, b)
  {
    UserSeqIsLatest(table, a);
    UserSeqIsLatest(table, b);
    var x, y := UserSeq(table, a), UserSeq(table, b);
    if x.Some? {
      var i :| 0 <= i < |table| && Asks(table[i]) && table[i].seqNo == x.value < a;
      assert table[i].seqNo < b;
    }
    if y.Some? {
      var j :| 0 <= j < |table| && Asks(table[j]) && table[j].seqNo == y.value < b;
      assert y.value < a ==> x.Some? && y.value <= x.value;
      assert y.value >= a ==> AskedBetween(table, a, b);
    }
    if AskedBetween(table, a, b) {
      var i :| 0 <= i < |table| && Asks(table[i]) && a <= table[i].seqNo < b;
      assert y.Some? && table[i].seqNo <= y.value;
    }
  }

  // ---------------------------------------------------------------------
  // Order
  // ---------------------------------------------------------------------

  predicate UsersAscend(ts: seq<Turn>) {
    forall i, j :: 0 <= i < j < |ts| ==> ts[i].user <= ts[j].user
  }

  predicate AnswersAscend(ts: seq<Turn>) {
    forall i, j :: 0 <= i < j < |ts| ==> ts[i].answer < ts[j].answer
  }

  lemma {:induction false} InsertMembers(sorted: seq<Turn>, t: Turn)
    ensures multiset(Insert(sorted, t)) == multiset(sorted) + multiset{t}
  {
    if sorted != [] {
      InsertMembers(sorted[1..], t);
      assert sorted == [sorted[0]] + sorted[1..];
    }
  }

  lemma {:induction false} InsertSorts(sorted: seq<Turn>, t: Turn)
    requires UsersAscend(sorted)
    ensures UsersAscend(Insert(sorted, t))
    ensures sorted != [] && sorted[0].user <= t.user ==> Insert(sorted, t)[0] == sorted[0]
  {
    if sorted != [] && sorted[0].user <= t.user {
      InsertSorts(sorted[1..], t);
      var rest := Insert(sorted[1..], t);
      forall k | 0 <= k < |rest| ensures sorted[0].user <= rest[k].user {
        InsertMembers(sorted[1..], t);
        assert rest[k] in multiset(rest);
        assert rest[k] == t || rest[k] in sorted[1..];
      }
    }
  }

  lemma NoneAscend()
    ensures UsersAscend([])
  {
  }

  lemma {:induction false} StableSortSorts(ts: seq<Turn>)
    ensures UsersAscend(StableSort(ts)) && multiset(StableSort(ts)) == multiset(ts)
  {
    hide Insert, UsersAscend;
    if ts == [] {
      NoneAscend();
    } else {
      var before := ts[..|ts| - 1];
      StableSortSorts(before);
      InsertSorts(StableSort(before), ts[|ts| - 1]);
      InsertMembers(StableSort(before), ts[|ts| - 1]);
      assert ts == before + [ts[|ts| - 1]];
    }
  }

  predicate Strict(ts: seq<Turn>) {
    forall i :: 0 <= i < |ts| - 1 ==> ts[i].user < ts[i + 1].user
  }

  lemma StrictCons(x: Turn, rest: seq<Turn>)
    ensures Strict([x] + rest) <==> Strict(rest) && (rest == [] || x.user < rest[0].user)
  {
    var ts := [x] + rest;
    if Strict(ts) {
      assert rest != [] ==> ts[0].user < ts[0 + 1].user;
      forall i | 0 <= i < |rest| - 1 ensures rest[i].user < rest[i + 1].user {
        var k := i + 1;
        assert ts[k].user < ts[k + 1].user;
      }
    }
  }

  lemma SmallestFirst(a: seq<Turn>, b: seq<Turn>)
    requires UsersAscend(a) && UsersAscend(b) && multiset(a) == multiset(b) && b != []
    ensures a != [] && a[0] in b && a[0].user == b[0].user
  {
    assert |multiset(a)| == |a| && |multiset(b)| == |b|;
    assert a[0] in multiset(b) && b[0] in multiset(a);
    var k :| 0 <= k < |b| && b[k] == a[0];
    var m :| 0 <= m < |a| && a[m] == b[0];
  }

  // Sorting turns that come newest first restores their order exactly if no two
  // neighbours share a user message: equal keys keep the order they came in.
  lemma {:induction false} SortReversed(ts: seq<Turn>)
    requires UsersAscend(ts) && AnswersAscend(ts)
    ensures StableSort(Reverse(ts)) == ts <==> Strict(ts)
    decreases |ts|
  {
    hide Strict;
    if ts == [] {
      assert Strict(ts) by { StrictNone(); }
    } else {
      var x, rest := ts[0], ts[1..];
      SortReversed(rest);
      StrictCons(x, rest);
      assert [x] + rest == ts;
      assert Reverse(ts)[..|ts| - 1] == Reverse(rest);
      var sorted := StableSort(Reverse(rest));
      assert StableSort(Reverse(ts)) == Insert(sorted, x);
      StableSortSorts(Reverse(rest));
      ReverseMultiset(rest);
      if rest != [] {
        SmallestFirst(sorted, rest);
        InsertSorts(sorted, x);
        SameHead(ts, sorted);
      }
    }
  }

  lemma StrictNone()
    ensures Strict([])
  {
  }

  lemma SameHead(ts: seq<Turn>, sorted: seq<Turn>)
    requires |ts| > 1 && UsersAscend(ts) && AnswersAscend(ts)
    requires sorted != [] && sorted[0] in ts[1..] && sorted[0].user == ts[1].user
    requires sorted[0].user <= ts[0].user ==> Insert(sorted, ts[0])[0] == sorted[0]
    ensures Insert(sorted, ts[0]) == ts <==> sorted == ts[1..] && ts[0].user < ts[1].user
  {
    var k :| 0 <= k < |ts[1..]| && ts[1..][k] == sorted[0];
    assert ts[k + 1] == sorted[0] && sorted[0].answer != ts[0].answer;
    if sorted[0].user > ts[0].user {
      assert Insert(sorted, ts[0]) == [ts[0]] + sorted;
      assert ([ts[0]] + sorted)[1..] == sorted;
    }
  }

  lemma {:induction false} ReverseMultiset<T>(s: seq<T>)
    ensures multiset(Reverse(s)) == multiset(s)
  {
    if s != [] {
      ReverseMultiset(s[1..]);
      assert s == [s[0]] + s[1..];
    }
  }

  lemma {:induction false} BuiltPush(table: seq<Message>, found: bool, m: Message, rows: seq<Message>)
    ensures Built(table, found, [m] + rows) ==
      (if m.builds then [Turn(m.seqNo, Pairing(table, found, m.seqNo))] else []) + Built(table, found, rows)
    decreases |rows|
  {
    var all := [m] + rows;
    if rows == [] {
      assert all[..0] == [] && all[0] == m;
    } else {
      BuiltPush(table, found, m, rows[..|rows| - 1]);
      assert all[..|all| - 1] == [m] + rows[..|rows| - 1];
    }
  }

  lemma {:induction false} BuiltReverse(table: seq<Message>, found: bool, rows: seq<Message>)
    ensures Built(table, found, Reverse(rows)) == Reverse(Built(table, found, rows))
    decreases |rows|
  {
    if rows != [] {
      var x, rest := rows[0], rows[1..];
      BuiltReverse(table, found, rest);
      BuiltPush(table, found, x, rest);
      assert rows == [x] + rest;
      assert Reverse(rows)[..|rows| - 1] == Reverse(rest);
      var b := Built(table, found, rest);
      if x.builds {
        assert ([Turn(x.seqNo, Pairing(table, found, x.seqNo))] + b)[1..] == b;
      }
    }
  }

  predicate SeqNosAscend(rows: seq<Message>) {
    forall i, j :: 0 <= i < j < |rows| ==> rows[i].seqNo < rows[j].seqNo
  }

  lemma {:induction false} QualifyingAscends(table: seq<Message>)
    requires SeqNosAscend(table)
    ensures SeqNosAscend(Qualifying(table))
    ensures forall m :: m in Qualifying(table) <==> m in table && Qualifies(m)
  {
    if table != [] {
      QualifyingAscends(table[..|table| - 1]);
      assert table == table[..|table| - 1] + [table[|table| - 1]];
      forall m | m in table[..|table| - 1] ensures m.seqNo < table[|table| - 1].seqNo {
      }
    }
  }

  // The turn a row builds, if it builds one.
  ghost predicate BuiltFrom(table: seq<Message>, found: bool, rows: seq<Message>, t: Turn) {
    exists m :: m in rows && m.builds && t == Turn(m.seqNo, Pairing(table, found, m.seqNo))
  }

  lemma {:induction false} BuiltMembers(table: seq<Message>, found: bool, rows: seq<Message>, t: Turn)
    ensures t in Built(table, found, rows) <==> BuiltFrom(table, found, rows, t)
  {
    if rows != [] {
      var before, last := rows[..|rows| - 1], rows[|rows| - 1];
      BuiltMembers(table, found, before, t);
      assert rows == before + [last];
      if BuiltFrom(table, found, before, t) {
        var m :| m in before && m.builds && t == Turn(m.seqNo, Pairing(table, found, m.seqNo));
        assert m in rows;
      }
      if t in Built(table, found, rows) && t !in Built(table, found, before) {
        assert last in rows && last.builds && t == Turn(last.seqNo, Pairing(table, found, last.seqNo));
      }
    }
  }

  // The turns built from ascending rows.
  lemma {:induction false} BuiltAscends(table: seq<Message>, found: bool, rows: seq<Message>)
    requires IsTable(table) && SeqNosAscend(rows)
    ensures var ts := Built(table, found, rows);
      && AnswersAscend(ts) && UsersAscend(ts)
      && forall t :: t in ts <==> BuiltFrom(table, found, rows, t)
  {
    hide Pairing;
    forall t ensures t in Built(table, found, rows) <==> BuiltFrom(table, found, rows, t) {
      BuiltMembers(table, found, rows, t);
    }
    if rows != [] {
      var before, last := rows[..|rows| - 1], rows[|rows| - 1];
      BuiltAscends(table, found, before);
      var ts0 := Built(table, found, before);
      forall t | t in ts0 ensures t.answer < last.seqNo && t.user <= Pairing(table, found, last.seqNo) {
        var m :| m in before && m.builds && t == Turn(m.seqNo, Pairing(table, found, m.seqNo));
        assert m.seqNo < last.seqNo;
        PairingGrows(table, found, m.seqNo, last.seqNo);
      }
    }
  }

  // Consecutive restored answers have a user message in between, and it was found.
  ghost predicate Separated(table: seq<Message>, found: bool, ts: seq<Turn>) {
    |ts| <= 1 || (found && forall i :: 0 <= i < |ts| - 1 ==> AskedBetween(table, ts[i].answer, ts[i + 1].answer))
  }

  // The restored snapshots always are the newest qualifying turns that build, each once
  // and paired with the latest earlier user message. They come oldest first exactly if
  // the user messages were found and the user wrote between any two of those turns.
  lemma RestoreOrder(table: seq<Message>, limit: nat, found: bool)
    requires IsTable(table)
    ensures
      var r, e := Restored(table, limit, found), Expected(table, limit, found);
      && multiset(r) == multiset(e) && UsersAscend(r) && AnswersAscend(e)
      && (r == e <==> Separated(table, found, e))
  {
    hide Strict, Separated, Built, Qualifying;
    QualifyingAscends(table);
    var rows := Last(Qualifying(table), limit);
    assert SeqNosAscend(rows);
    var e := Expected(table, limit, found);
    BuiltAscends(table, found, rows);
    BuiltReverse(table, found, rows);
    StableSortSorts(Reverse(e));
    ReverseMultiset(e);
    SortReversed(e);
    StrictMeansSeparated(table, found, rows);
  }

  lemma StrictMeansSeparated(table: seq<Message>, found: bool, rows: seq<Message>)
    requires IsTable(table) && SeqNosAscend(rows)
    ensures var e := Built(table, found, rows); Strict(e) <==> Separated(table, found, e)
  {
    hide AskedBetween;
    var e := Built(table, found, rows);
    BuiltAscends(table, found, rows);
    forall i | 0 <= i < |e| - 1
      ensures e[i].user < e[i + 1].user <==> found && AskedBetween(table, e[i].answer, e[i + 1].answer)
    {
      assert e[i] in e && e[i + 1] in e;
      PairingGrows(table, found, e[i].answer, e[i + 1].answer);
    }
    if |e| > 1 && Strict(e) {
      assert e[0].user < e[0 + 1].user;
    }
  }

  // ---------------------------------------------------------------------
  // Which turns are restored
  // ---------------------------------------------------------------------

  // The positions of the successful normal answers with a statement behind number a.
  function Later(table: seq<Message>, a: int): set<nat> {
    set i: nat | i < |table| && table[i].role == Assistant && table[i].normal && table[i].success && table[i].hasSql &&
      table[i].seqNo > a
  }

  // A successful normal answer with a statement, behind which fewer than limit others come.
  ghost predicate IsNewest(table: seq<Message>, limit: nat, m: Message) {
    && m in table && m.role == Assistant && m.normal && m.success && m.hasSql
    && |Later(table, m.seqNo)| < limit
  }

  lemma LaterPush(table: seq<Message>, a: int)
    requires table != []
    ensures
      var n := |table| - 1;
      Later(table, a) == Later(table[..n], a) + if Qualifies(table[n]) && table[n].seqNo > a then {n} else {}
    ensures (forall m :: m in table ==> m.seqNo <= a) ==> Later(table, a) == {}
  {
    var n := |table| - 1;
    assert forall i: nat :: i < n ==> table[..n][i] == table[i];
  }

  lemma {:induction false} LaterCount(table: seq<Message>, k: nat)
    requires IsTable(table) && k < |Qualifying(table)|
    ensures |Later(table, Qualifying(table)[k].seqNo)| == |Qualifying(table)| - 1 - k
  {
    hide Later, Qualifying;
    var n := |table| - 1;
    QualifyingSplits(table);
    var before, last, q := table[..n], table[n], Qualifying(table);
    QualifyingAscends(before);
    LaterPush(table, q[k].seqNo);
    LaterBound(before, q[k].seqNo);
    if Qualifies(last) && k == |q| - 1 {
      assert forall m :: m in table ==> m.seqNo <= last.seqNo;
    } else {
      LaterCount(before, k);
      assert q[k] == Qualifying(before)[k] && q[k] in before;
      assert q[k].seqNo < last.seqNo;
    }
  }

  lemma LaterBound(table: seq<Message>, a: int)
    ensures forall i :: i in Later(table, a) ==> i < |table|
  {
  }

  lemma QualifyingSplits(table: seq<Message>)
    ensures table == [] ==> Qualifying(table) == []
    ensures table != [] ==>
      var n := |table| - 1;
      Qualifying(table) == Qualifying(table[..n]) + (if Qualifies(table[n]) then [table[n]] else [])
  {
  }

  lemma QualifyingIndex(table: seq<Message>, k: nat, j: nat)
    requires IsTable(table) && k < |Qualifying(table)| && j < |Qualifying(table)|
    ensures Qualifying(table)[k] == Qualifying(table)[j] ==> k == j
  {
    QualifyingAscends(table);
  }

  lemma NewestMembers(table: seq<Message>, limit: nat, m: Message)
    requires IsTable(table)
    ensures m in AnswerRows(table, limit) <==> IsNewest(table, limit, m)
  {
    hide Later, Qualifying, Reverse, Last;
    QualifyingAscends(table);
    var q := Qualifying(table);
    ReverseMembers(Last(q, limit), m);
    LastMembers(q, limit, m);
    if m in q {
      var k :| 0 <= k < |q| && q[k] == m;
      LaterCount(table, k);
      forall j | 0 <= j < |q| && q[j] == m ensures j == k {
        QualifyingIndex(table, k, j);
      }
    }
  }

  // The rows fetched: as many as there are, at most the limit, the newest first.
  lemma NewestRows(table: seq<Message>, limit: nat)
    requires IsTable(table)
    ensures
      var rows := AnswerRows(table, limit);
      && (forall m :: m in rows <==> IsNewest(table, limit, m))
      && (forall i, j :: 0 <= i < j < |rows| ==> rows[i].seqNo > rows[j].seqNo)
      && |rows| == if |Later(table, 0)| < limit then |Later(table, 0)| else limit
  {
    hide Later, Qualifying, IsNewest;
    forall m ensures m in AnswerRows(table, limit) <==> IsNewest(table, limit, m) {
      NewestMembers(table, limit, m);
    }
    QualifyingAscends(table);
    AllLater(table);
  }

  lemma {:induction false} AllLater(table: seq<Message>)
    requires IsTable(table)
    ensures |Later(table, 0)| == |Qualifying(table)|
  {
    hide Later, Qualifying;
    QualifyingSplits(table);
    if table == [] {
      NoneLater();
    } else {
      var n := |table| - 1;
      AllLater(table[..n]);
      LaterPush(table, 0);
      LaterBound(table[..n], 0);
      assert table[n].seqNo > 0;
    }
  }

  lemma NoneLater()
    ensures Later([], 0) == {}
  {
  }

  lemma ReverseMembers<T>(s: seq<T>, x: T)
    ensures x in Reverse(s) <==> x in s
  {
    ReverseMultiset(s);
    assert x in multiset(Reverse(s)) <==> x in multiset(s);
  }

  lemma LastMembers<T>(s: seq<T>, n: nat, x: T)
    ensures x in Last(s, n) <==> exists k :: 0 <= k < |s| && |s| - 1 - k < n && s[k] == x
  {
    var r := Last(s, n);
    if x in r {
      var i :| 0 <= i < |r| && r[i] == x;
      assert s[|s| - |r| + i] == x;
    }
    if k :| 0 <= k < |s| && |s| - 1 - k < n && s[k] == x {
      assert r[k - (|s| - |r|)] == x;
    }
  }

  // u is the greatest number of a normal user message before the answer a, or 0 when there
  // is none or the user messages were not found.
  ghost predicate AskedBy(table: seq<Message>, found: bool, a: int, u: int) {
    if found && exists i :: 0 <= i < |table| && table[i].role == User && table[i].normal && table[i].seqNo < a then
      && (exists i :: 0 <= i < |table| && table[i].role == User && table[i].normal && table[i].seqNo == u < a)
      && (forall i :: 0 <= i < |table| && table[i].role == User && table[i].normal && table[i].seqNo < a ==>
            table[i].seqNo <= u)
    else u == 0
  }

  lemma PairingAsks(table: seq<Message>, found: bool, a: int, u: int)
    ensures u == Pairing(table, found, a) <==> AskedBy(table, found, a, u)
  {
    UserSeqIsLatest(table, a);
    var x := UserSeq(table, a);
    if x.Some? {
      var i :| 0 <= i < |table| && Asks(table[i]) && table[i].seqNo == x.value < a;
      assert table[i].role == User && table[i].normal;
    } else {
      assert forall i :: 0 <= i < |table| && table[i].seqNo < a ==> !Asks(table[i]);
    }
  }

  // The turn of a newest answer whose snapshot can be built, paired with the latest user
  // message before it.
  ghost predicate ComesBack(table: seq<Message>, limit: nat, found: bool, t: Turn) {
    exists m :: IsNewest(table, limit, m) && m.builds && t.answer == m.seqNo && AskedBy(table, found, m.seqNo, t.user)
  }

  lemma RestoredAre(table: seq<Message>, limit: nat, found: bool, t: Turn)
    requires IsTable(table)
    ensures t in Restored(table, limit, found) <==> ComesBack(table, limit, found, t)
  {
    hide IsNewest, Built, Pairing, AskedBy, AnswerRows, StableSort;
    var rows := AnswerRows(table, limit);
    StableSortSorts(Built(table, found, rows));
    assert t in multiset(Restored(table, limit, found)) <==> t in multiset(Built(table, found, rows));
    NewestRows(table, limit);
    BuiltMembers(table, found, rows, t);
    if m :| m in rows && m.builds && t == Turn(m.seqNo, Pairing(table, found, m.seqNo)) {
      PairingAsks(table, found, m.seqNo, t.user);
    }
    if m :| IsNewest(table, limit, m) && m.builds && t.answer == m.seqNo && AskedBy(table, found, m.seqNo, t.user) {
      PairingAsks(table, found, m.seqNo, t.user);
      assert m in rows && t == Turn(m.seqNo, Pairing(table, found, m.seqNo));
    }
  }

  // ---------------------------------------------------------------------
  // The service
  // ---------------------------------------------------------------------

  // Without the rows there is nothing to restore; without the user messages every turn
  // is paired with 0; a turn that cannot be built is skipped.
  method RestoreFromDb(table: seq<Message>, limit: nat, fetched: bool, found: bool) returns (snapshots: seq<Turn>)
    requires IsTable(table)
    ensures snapshots == if fetched then Restored(table, limit, found) else []
    ensures fetched ==> multiset(snapshots) == multiset(Expected(table, limit, found))
    ensures fetched ==> (snapshots == Expected(table, limit, found) <==>
      Separated(table, found, Expected(table, limit, found)))
    ensures fetched ==> forall t :: t in snapshots <==> ComesBack(table, limit, found, t)
  {
    hide ComesBack;
    snapshots := [];
    if !fetched {
      return;
    }
    var rows := AnswerRows(table, limit);
    for k := 0 to |rows|
      invariant snapshots == Built(table, found, rows[..k])
    {
      assert rows[..k + 1][..k] == rows[..k];
      if rows[k].builds {
        snapshots := snapshots + [Turn(rows[k].seqNo, Pairing(table, found, rows[k].seqNo))];
      }
    }
    assert rows[..|rows|] == rows;
    snapshots := StableSort(snapshots);
    RestoreOrder(table, limit, found);
    forall t ensures t in snapshots <==> ComesBack(table, limit, found, t) {
      RestoredAre(table, limit, found, t);
    }
  }

  // One question answered twice: the two turns come back newest first.
  const ASKED_ONCE := [
    Message(1, User, true, true, false, true),
    Message(2, Assistant, true, true, true, true),
    Message(3, Assistant, true, true, true, true)]

  lemma AskedOnceReversed()
    ensures IsTable(ASKED_ONCE)
    ensures Expected(ASKED_ONCE, 10, true) == [Turn(2, 1), Turn(3, 1)]
    ensures Restored(ASKED_ONCE, 10, true) == [Turn(3, 1), Turn(2, 1)]
  {
    hide Built, StableSort, Qualifying, Pairing, Reverse;
    var t := ASKED_ONCE;
    assert Qualifying(t) == [t[1], t[2]] by { BothQualify(); }
    assert Reverse([t[1], t[2]]) == [t[2], t[1]];
    assert Pairing(t, true, 2) == 1 && Pairing(t, true, 3) == 1 by { AskedFirst(2); AskedFirst(3); }
    BuildTwo(t[1], t[2]);
    BuildTwo(t[2], t[1]);
    SortTwo(Turn(3, 1), Turn(2, 1));
  }

  lemma BothQualify()
    ensures Qualifying(ASKED_ONCE) == [ASKED_ONCE[1], ASKED_ONCE[2]]
  {
    var t := ASKED_ONCE;
    assert t[..2] == [t[0], t[1]] && t[..2][..1] == [t[0]] && t[..1] == [t[0]] && t[..1][..0] == [];
    assert Qualifying([t[0]]) == [];
    assert Qualifying(t[..2]) == [t[1]];
  }

  lemma AskedFirst(a: int)
    requires a > 1
    ensures Pairing(ASKED_ONCE, true, a) == 1
  {
    hide UserSeq;
    UserSeqIsLatest(ASKED_ONCE, a);
    assert Asks(ASKED_ONCE[0]) && ASKED_ONCE[0].seqNo < a;
  }

  lemma BuildTwo(x: Message, y: Message)
    requires x.builds && y.builds
    ensures Built(ASKED_ONCE, true, [x, y]) ==
      [Turn(x.seqNo, Pairing(ASKED_ONCE, true, x.seqNo)), Turn(y.seqNo, Pairing(ASKED_ONCE, true, y.seqNo))]
  {
    hide Pairing;
    assert [x, y][..1] == [x] && [x][..0] == [];
    assert Built(ASKED_ONCE, true, [x]) == [Turn(x.seqNo, Pairing(ASKED_ONCE, true, x.seqNo))];
    var ms := [x, y];
    assert ms[..|ms| - 1] == [x] && ms[|ms| - 1] == y;
  }

  lemma SortTwo(x: Turn, y: Turn)
    requires x.user == y.user
    ensures StableSort([x, y]) == [x, y]
  {
    assert [x, y][..1] == [x] && [x][..0] == [] && [x][1..] == [];
    assert StableSort([x]) == [x] && Insert([x], y) == [x, y];
    var ts := [x, y];
    assert ts[..|ts| - 1] == [x] && ts[|ts| - 1] == y;
  }
}
