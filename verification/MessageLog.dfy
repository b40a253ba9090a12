// The message log with its buffer of messages that could not be stored yet.
module MessageLog {
  import opened Options

  datatype Row<+M> = Row(seqNo: int, msg: M)

  // One conversation: its rows in the table and its unsaved messages.
  datatype Log<+M> = Log(rows: seq<Row<M>>, pending: seq<M>)

  // How a call fares: every insert works, or an error comes after k of them.
  datatype Outcome = Success | FailsAfter(k: nat)

  datatype Call<+M> = Call(msg: M, outcome: Outcome)

  // ---------------------------------------------------------------------
  // One call
  // ---------------------------------------------------------------------

  // COALESCE(MAX(seq) + 1, 1)
  function NextSeq<M>(rows: seq<Row<M>>): int {
    if rows == [] then 1
    else
      var before, last := NextSeq(rows[..|rows| - 1]), rows[|rows| - 1].seqNo + 1;
      if |rows| == 1 || last > before then last else before
  }

  function InsertAll<M>(rows: seq<Row<M>>, msgs: seq<M>): seq<Row<M>>
    decreases |msgs|
  {
    if msgs == [] then rows else InsertAll(rows + [Row(NextSeq(rows), msgs[0])], msgs[1..])
  }

  // Python's s[-n:], where -0 is 0 and a negative n cuts from the front.
  function Tail<M>(s: seq<M>, n: int): (r: seq<M>)
    ensures n >= 1 ==> r == if |s| > n then s[|s| - n..] else s
  {
    if n > 0 then (if |s| > n then s[|s| - n..] else s)
    else if -n > |s| then []
    else s[-n..]
  }

  function Capped<M>(unsaved: seq<M>, cap: int): seq<M> {
    if |unsaved| > cap then Tail(unsaved, cap) else unsaved
  }

  // Inserts that are done before the error, if any.
  function Done<M>(all: seq<M>, outcome: Outcome): (n: nat)
    ensures n <= |all|
  {
    if outcome.Success? || outcome.k > |all| then |all| else outcome.k
  }

  function Save<M>(log: Log<M>, call: Call<M>, cap: int): Log<M> {
    var all := log.pending + [call.msg];
    var done := Done(all, call.outcome);
    Log(InsertAll(log.rows, all[..done]), if call.outcome.Success? then [] else Capped(all[done..], cap))
  }

  // A conversation from its first message.
  function Run<M>(calls: seq<Call<M>>, cap: int): Log<M> {
    if calls == [] then Log([], []) else Save(Run(calls[..|calls| - 1], cap), calls[|calls| - 1], cap)
  }

  // ---------------------------------------------------------------------
  // Numbering
  // ---------------------------------------------------------------------

  function Messages<M>(rows: seq<Row<M>>): (ms: seq<M>)
    ensures |ms| == |rows|
  {
    seq(|rows|, i requires 0 <= i < |rows| => rows[i].msg)
  }

  predicate Numbered<M>(rows: seq<Row<M>>) {
    forall i :: 0 <= i < |rows| ==> rows[i].seqNo == i + 1
  }

  lemma {:induction false} NextIsLength<M>(rows: seq<Row<M>>)
    requires Numbered(rows)
    ensures NextSeq(rows) == |rows| + 1
  {
    if rows != [] {
      NextIsLength(rows[..|rows| - 1]);
    }
  }

  lemma {:induction false} InsertAllAppends<M>(rows: seq<Row<M>>, msgs: seq<M>)
    requires Numbered(rows)
    ensures Numbered(InsertAll(rows, msgs)) && Messages(InsertAll(rows, msgs)) == Messages(rows) + msgs
    ensures rows <= InsertAll(rows, msgs)
    decreases |msgs|
  {
    if msgs != [] {
      NextIsLength(rows);
      var rows1 := rows + [Row(NextSeq(rows), msgs[0])];
      InsertAllAppends(rows1, msgs[1..]);
      assert Messages(rows1) == Messages(rows) + [msgs[0]];
      assert msgs == [msgs[0]] + msgs[1..];
    }
  }

  // ---------------------------------------------------------------------
  // Whole conversations
  // ---------------------------------------------------------------------

  // Messages call i finds unsaved when it fails, its own included.
  function Unsaved<M>(calls: seq<Call<M>>, i: nat, cap: int): nat
    requires i < |calls|
  {
    var all := Run(calls[..i], cap).pending + [calls[i].msg];
    |all| - Done(all, calls[i].outcome)
  }

  // Call i drops message j: the call fails and leaves more than cap messages
  // unsaved, j among them, and cap of them newer than j.
  predicate Drops<M>(calls: seq<Call<M>>, i: nat, j: nat, cap: int)
    requires i < |calls|
  {
    calls[i].outcome.FailsAfter? && i + 1 - Unsaved(calls, i, cap) <= j < i + 1 - cap
  }

  // Kept lists the numbers of the messages stored or pending, in order; the pending
  // ones are the latest.
  ghost predicate Lines<M>(calls: seq<Call<M>>, log: Log<M>, kept: seq<nat>) {
    && |kept| == |log.rows| + |log.pending|
    && (forall i, j :: 0 <= i < j < |kept| ==> kept[i] < kept[j])
    && (forall i :: 0 <= i < |kept| ==>
          kept[i] < |calls| && (Messages(log.rows) + log.pending)[i] == calls[kept[i]].msg)
    && (forall i :: |log.rows| <= i < |kept| ==> kept[i] == |calls| - |kept| + i)
  }

  // A message is missing exactly if some later call dropped it.
  ghost predicate Accounts<M>(calls: seq<Call<M>>, cap: int, kept: seq<nat>) {
    forall j: nat :: j < |calls| ==> (j in kept <==> forall i: nat :: j <= i < |calls| ==> !Drops(calls, i, j, cap))
  }

  // No message is lost, duplicated or reordered: stored rows, then pending ones, are the
  // submitted messages in order without exactly those dropped for the cap. Rows are
  // numbered 1..n, and the buffer respects the cap.
  lemma {:induction false} Conversation<M>(calls: seq<Call<M>>, cap: int) returns (kept: seq<nat>)
    requires cap >= 1
    ensures Lines(calls, Run(calls, cap), kept)
    ensures Accounts(calls, cap, kept)
    ensures Numbered(Run(calls, cap).rows)
    ensures |Run(calls, cap).pending| <= cap
  {
    if calls == [] {
      kept := [];
    } else {
      var n := |calls| - 1;
      var before, call := calls[..n], calls[n];
      var kept0 := Conversation(before, cap);
      kept := Extend(before, call, cap, kept0);
      assert before + [call] == calls;
    }
  }

  // How many unsaved messages a call gives up.
  function Dropped<M>(log: Log<M>, call: Call<M>, cap: int): nat {
    var unsaved := |log.pending| + 1 - Done(log.pending + [call.msg], call.outcome);
    if call.outcome.FailsAfter? && 1 <= cap < unsaved then unsaved - cap else 0
  }

  function Without<T>(line: seq<T>, at: nat, drop: nat): seq<T>
    requires at + drop <= |line|
  {
    line[..at] + line[at + drop..]
  }

  // One call appends its message to the line of stored and pending ones and drops the
  // oldest unsaved beyond the cap.
  lemma SaveShape<M>(log: Log<M>, call: Call<M>, cap: int)
    requires cap >= 1 && Numbered(log.rows)
    ensures
      var after := Save(log, call, cap);
      var drop := Dropped(log, call, cap);
      && Numbered(after.rows) && log.rows <= after.rows && |after.pending| <= cap
      && |after.rows| == |log.rows| + Done(log.pending + [call.msg], call.outcome)
      && |after.rows| + drop + |after.pending| == |log.rows| + |log.pending| + 1
      && Messages(after.rows) + after.pending == Without(Messages(log.rows) + log.pending + [call.msg], |after.rows|,
        drop)
      && (call.outcome.Success? ==> after.pending == [] && drop == 0)
  {
    var after, all := Save(log, call, cap), log.pending + [call.msg];
    var done, drop := Done(all, call.outcome), Dropped(log, call, cap);
    InsertAllAppends(log.rows, all[..done]);
    assert after.pending == all[done + drop..];
    assert |Messages(after.rows)| == |after.rows| && Messages(after.rows) == Messages(log.rows) + all[..done];
    var line := Messages(log.rows) + log.pending + [call.msg];
    assert line == Messages(log.rows) + all;
    assert line[..|after.rows|] == Messages(after.rows);
    assert line[|after.rows| + drop..] == after.pending;
  }

  lemma Extend<M>(before: seq<Call<M>>, call: Call<M>, cap: int, kept0: seq<nat>) returns (kept: seq<nat>)
    requires cap >= 1 && Lines(before, Run(before, cap), kept0) && Accounts(before, cap, kept0) &&
      Numbered(Run(before, cap).rows)
    ensures Lines(before + [call], Run(before + [call], cap), kept) && Accounts(before + [call], cap, kept)
    ensures Numbered(Run(before + [call], cap).rows) && |Run(before + [call], cap).pending| <= cap
  {
    hide Save, Dropped, Drops, Done;
    var calls := before + [call];
    assert calls[..|before|] == before;
    var log0, log := Run(before, cap), Run(calls, cap);
    SaveShape(log0, call, cap);
    var stored, drop := |log.rows|, Dropped(log0, call, cap);
    kept := Without(kept0 + [|before|], stored, drop);
    ExtendLines(before, call, log0, log, kept0, drop);
    ExtendAccounts(before, call, cap, kept0, kept);
  }

  lemma ExtendLines<M>(before: seq<Call<M>>, call: Call<M>, log0: Log<M>, log: Log<M>, kept0: seq<nat>, drop: nat)
    requires Lines(before, log0, kept0)
    requires |log.rows| >= |log0.rows| && |log.rows| + drop + |log.pending| == |kept0| + 1
    requires Messages(log.rows) + log.pending == Without(Messages(log0.rows) + log0.pending + [call.msg], |log.rows|,
      drop)
    ensures Lines(before + [call], log, Without(kept0 + [|before|], |log.rows|, drop))
  {
    var at := |log.rows|;
    var line0 := Messages(log0.rows) + log0.pending;
    GrowNames(before, call, line0, kept0);
    WithoutNames(before + [call], line0 + [call.msg], kept0 + [|before|], at, drop);
    WithoutAscends(kept0, |before|, at, drop);
    WithoutPending(before, kept0, |log0.rows|, at, drop);
  }

  // The messages of a line are those of the calls named.
  ghost predicate Names<M>(calls: seq<Call<M>>, line: seq<M>, kept: seq<nat>) {
    |kept| == |line| && forall i :: 0 <= i < |kept| ==> kept[i] < |calls| && line[i] == calls[kept[i]].msg
  }

  lemma GrowNames<M>(before: seq<Call<M>>, call: Call<M>, line: seq<M>, kept: seq<nat>)
    requires Names(before, line, kept)
    ensures Names(before + [call], line + [call.msg], kept + [|before|])
  {
  }

  lemma WithoutNames<M>(calls: seq<Call<M>>, line: seq<M>, kept: seq<nat>, at: nat, drop: nat)
    requires Names(calls, line, kept) && at + drop <= |line|
    ensures Names(calls, Without(line, at, drop), Without(kept, at, drop))
  {
    forall i | 0 <= i < |Without(kept, at, drop)|
      ensures Without(kept, at, drop)[i] < |calls|
      ensures Without(line, at, drop)[i] == calls[Without(kept, at, drop)[i]].msg
    {
      WithoutAt(kept, at, drop, i);
      WithoutAt(line, at, drop, i);
    }
  }

  // The pending ones are the latest.
  lemma WithoutPending<M>(before: seq<Call<M>>, kept0: seq<nat>, stored0: nat, at: nat, drop: nat)
    requires stored0 <= at && at + drop <= |kept0| + 1
    requires forall i :: stored0 <= i < |kept0| ==> kept0[i] == |before| - |kept0| + i
    ensures
      var r := Without(kept0 + [|before|], at, drop);
      forall i :: at <= i < |r| ==> r[i] == |before| + 1 - |r| + i
  {
    var r := Without(kept0 + [|before|], at, drop);
    forall i | at <= i < |r| ensures r[i] == |before| + 1 - |r| + i {
      WithoutAt(kept0 + [|before|], at, drop, i);
    }
  }

  lemma WithoutAt<T>(line: seq<T>, at: nat, drop: nat, i: nat)
    requires at + drop <= |line| && i < |Without(line, at, drop)|
    ensures Without(line, at, drop)[i] == line[if i < at then i else i + drop]
  {
  }

  lemma WithoutAscends(kept: seq<nat>, n: nat, at: nat, drop: nat)
    requires forall i, j :: 0 <= i < j < |kept| ==> kept[i] < kept[j]
    requires (forall i :: 0 <= i < |kept| ==> kept[i] < n) && at + drop <= |kept| + 1
    ensures
      var r := Without(kept + [n], at, drop);
      forall i, j :: 0 <= i < j < |r| ==> r[i] < r[j]
  {
    var r, line := Without(kept + [n], at, drop), kept + [n];
    forall i, j | 0 <= i < j < |r| ensures r[i] < r[j] {
      WithoutAt(line, at, drop, i);
      WithoutAt(line, at, drop, j);
    }
  }

  lemma ExtendAccounts<M>(before: seq<Call<M>>, call: Call<M>, cap: int, kept0: seq<nat>, kept: seq<nat>)
    requires cap >= 1 && Lines(before, Run(before, cap), kept0) && Accounts(before, cap, kept0)
    requires
      var log0 := Run(before, cap);
      var stored, drop := |log0.rows| + Done(log0.pending + [call.msg], call.outcome), Dropped(log0, call, cap);
      stored + drop <= |kept0| + 1 && kept == Without(kept0 + [|before|], stored, drop)
    ensures Accounts(before + [call], cap, kept)
  {
    hide Drops, Run;
    var calls, n := before + [call], |before|;
    var log0 := Run(before, cap);
    var stored, drop := |log0.rows| + Done(log0.pending + [call.msg], call.outcome), Dropped(log0, call, cap);
    forall j: nat | j < |calls|
      ensures j in kept <==> forall i: nat :: j <= i < |calls| ==> !Drops(calls, i, j, cap)
    {
      DropsLast(before, call, j, cap);
      KeptMembers(kept0 + [n], stored, drop, n, j);
      assert (kept0 + [n])[|kept0|] == n;
      StillKept(before, call, kept0, kept, j, cap);
    }
  }

  lemma StillKept<M>(before: seq<Call<M>>, call: Call<M>, kept0: seq<nat>, kept: seq<nat>, j: nat, cap: int)
    requires j <= |before|
    requires forall k :: k in kept0 ==> k < |before|
    requires j < |before| ==> (j in kept0 <==> forall i: nat :: j <= i < |before| ==> !Drops(before, i, j, cap))
    requires j in kept <==> (j in kept0 || j == |before|) && !Drops(before + [call], |before|, j, cap)
    ensures j in kept <==> forall i: nat :: j <= i < |before + [call]| ==> !Drops(before + [call], i, j, cap)
  {
    hide Drops;
    var n, calls := |before|, before + [call];
    DropsBefore(before, call, j, cap);
    if j in kept {
      forall i: nat | j <= i < |calls| ensures !Drops(calls, i, j, cap) {
        assert i < n ==> !Drops(before, i, j, cap);
      }
    } else if j in kept0 || j == n {
      assert Drops(calls, n, j, cap);
    } else {
      var i: nat :| j <= i < n && Drops(before, i, j, cap);
      assert Drops(calls, i, j, cap);
    }
  }

  // What the last call drops, in numbers.
  lemma DropsLast<M>(before: seq<Call<M>>, call: Call<M>, j: nat, cap: int)
    requires cap >= 1
    ensures
      var n := |before|;
      var log0 := Run(before, cap);
      var rest := |log0.pending| + 1 - Done(log0.pending + [call.msg], call.outcome);
      Drops(before + [call], n, j, cap) <==> n + 1 - rest <= j < n + 1 - rest + Dropped(log0, call, cap)
  {
    assert (before + [call])[..|before|] == before;
  }

  // Cutting out numbers [stored, stored + drop) of a line whose end is consecutive.
  lemma KeptMembers(line: seq<nat>, stored: nat, drop: nat, n: nat, j: nat)
    requires stored + drop <= |line|
    requires forall a, b :: 0 <= a < b < |line| ==> line[a] < line[b]
    requires forall a :: stored <= a < |line| ==> line[a] == n + 1 - |line| + a
    ensures j in line[..stored] + line[stored + drop..] <==>
      j in line && !(n + 1 - |line| + stored <= j < n + 1 - |line| + stored + drop)
  {
    var cut := line[..stored] + line[stored + drop..];
    if j in line {
      var a :| 0 <= a < |line| && line[a] == j;
      if a < stored {
        assert cut[a] == j;
        assert stored < |line| ==> line[a] < line[stored];
      } else if a >= stored + drop {
        assert cut[a - drop] == j;
      } else {
        forall b | 0 <= b < |cut| ensures cut[b] != j {
          assert cut[b] == line[if b < stored then b else b + drop];
        }
      }
    }
    if j in cut {
      var b :| 0 <= b < |cut| && cut[b] == j;
      assert cut[b] == line[if b < stored then b else b + drop];
    }
  }

  lemma DropsBefore<M>(before: seq<Call<M>>, call: Call<M>, j: nat, cap: int)
    ensures forall i: nat :: i < |before| ==> (Drops(before + [call], i, j, cap) <==> Drops(before, i, j, cap))
  {
    forall i: nat | i < |before| ensures Drops(before + [call], i, j, cap) <==> Drops(before, i, j, cap) {
      assert (before + [call])[..i] == before[..i];
    }
  }

  // While no failure leaves more than cap messages unsaved, everything submitted is
  // stored or pending.
  lemma NothingLost<M>(calls: seq<Call<M>>, cap: int)
    requires cap >= 1
    requires forall i: nat :: i < |calls| && calls[i].outcome.FailsAfter? ==> Unsaved(calls, i, cap) <= cap
    ensures
      var log := Run(calls, cap);
      |log.rows| + |log.pending| == |calls| &&
      forall j :: 0 <= j < |calls| ==> (Messages(log.rows) + log.pending)[j] == calls[j].msg
  {
    var kept := Conversation(calls, cap);
    forall j: nat | j < |calls| ensures j in kept {
      forall i: nat | j <= i < |calls| ensures !Drops(calls, i, j, cap) {
      }
    }
    AllKept(kept, |calls|);
  }

  // A growing list of numbers below n that has all of them is 0, 1, ..., n - 1.
  lemma AllKept(kept: seq<nat>, n: nat)
    requires forall i, j :: 0 <= i < j < |kept| ==> kept[i] < kept[j]
    requires forall i :: 0 <= i < |kept| ==> kept[i] < n
    requires forall j: nat :: j < n ==> j in kept
    ensures |kept| == n && forall i :: 0 <= i < n ==> kept[i] == i
  {
    for m := 0 to |kept|
      invariant forall i :: 0 <= i < m ==> kept[i] >= i
    {
      assert m > 0 ==> kept[m - 1] < kept[m];
    }
    for m := 0 to n
      invariant m <= |kept| && forall i :: 0 <= i < m ==> kept[i] == i
    {
      assert m in kept;
      var k :| 0 <= k < |kept| && kept[k] == m;
      assert k >= m;
      assert kept[m] >= m;
      assert k == m;
    }
    assert |kept| > 0 ==> kept[|kept| - 1] >= |kept| - 1;
  }

  // The cap bounds the buffer exactly if it is at least one: with a cap of 0 the slice
  // keeps everything.
  lemma BufferBounded(cap: int)
    ensures (forall calls: seq<Call<int>> :: |Run(calls, cap).pending| <= cap) <==> cap >= 1
  {
    if cap >= 1 {
      forall calls: seq<Call<int>> ensures |Run(calls, cap).pending| <= cap {
        var kept := Conversation(calls, cap);
      }
    } else {
      var calls := [Call(0, FailsAfter(0))];
      assert calls[..0] == [];
      var empty: Log<int> := Run(calls[..0], cap);
      assert Run(calls, cap) == Save(empty, calls[0], cap);
      assert [] + [0] == [0] && [0][0..] == [0];
      assert |Run(calls, cap).pending| > cap;
    }
  }

  // ---------------------------------------------------------------------
  // The store
  // ---------------------------------------------------------------------

  type Thread = string

  class MessageStore<M> {
    const cap: int
    var table: map<Thread, seq<Row<M>>>
    var pending: map<Thread, seq<M>>

    constructor (cap: int)
      ensures this.cap == cap && forall t :: LogOf(t) == Log([], [])
    {
      this.cap := cap;
      table, pending := map[], map[];
    }

    function LogOf(t: Thread): Log<M>
      reads this
    {
      Log(if t in table then table[t] else [], if t in pending then pending[t] else [])
    }

    // One INSERT of its own transaction; an error leaves the table alone.
    method Insert(t: Thread, msg: M, works: bool) returns (seqNo: Option<int>)
      modifies `table
      ensures pending == old(pending) && forall u :: u != t ==> LogOf(u) == old(LogOf(u))
      ensures seqNo == if works then Some(NextSeq(old(LogOf(t)).rows)) else None
      ensures LogOf(t).rows == old(LogOf(t)).rows + if works then [Row(NextSeq(old(LogOf(t)).rows), msg)] else []
    {
      if works {
        var rows := LogOf(t).rows;
        table := table[t := rows + [Row(NextSeq(rows), msg)]];
        seqNo := Some(NextSeq(rows));
      } else {
        seqNo := None;
      }
    }

    // Inserts message after message until one fails; the connection answers that many.
    method InsertEach(t: Thread, all: seq<M>, answers: nat) returns (saved: nat, seqNo: Option<int>)
      modifies `table
      ensures saved == (if answers < |all| then answers else |all|) && pending == old(pending)
      ensures LogOf(t).rows == InsertAll(old(LogOf(t)).rows, all[..saved])
      ensures forall u :: u != t ==> LogOf(u) == old(LogOf(u))
      ensures saved > 0 ==>
        seqNo.Some? && LogOf(t).rows != [] && LogOf(t).rows[|LogOf(t).rows| - 1] == Row(seqNo.value, all[saved - 1])
    {
      hide InsertAll, NextSeq;
      saved, seqNo := 0, None;
      ghost var rows0 := LogOf(t).rows;
      InsertNone(rows0);
      while saved < |all|
        invariant 0 <= saved <= |all| && saved <= answers && pending == old(pending)
        invariant LogOf(t).rows == InsertAll(rows0, all[..saved])
        invariant forall u :: u != t ==> LogOf(u) == old(LogOf(u))
        invariant saved > 0 ==>
          seqNo.Some? && LogOf(t).rows != [] && LogOf(t).rows[|LogOf(t).rows| - 1] == Row(seqNo.value, all[saved - 1])
      {
        var inserted := Insert(t, all[saved], saved < answers);
        if inserted.None? {
          break;
        }
        InsertAllPush(rows0, all[..saved], all[saved]);
        assert all[..saved + 1] == all[..saved] + [all[saved]];
        seqNo := inserted;
        saved := saved + 1;
      }
    }

    // Stores the pending messages and the new one, in that order; on an error the unsaved
    // ones are kept for the next call, up to the cap. The outcome says what the connection
    // does: it answers everything, or so many inserts and then fails, the latest on the way out.
    method SaveMessage(t: Thread, msg: M, outcome: Outcome) returns (seqNo: Option<int>)
      modifies this
      ensures LogOf(t) == Save(old(LogOf(t)), Call(msg, outcome), cap)
      ensures forall u :: u != t ==> LogOf(u) == old(LogOf(u))
      ensures seqNo.Some? <==> outcome.Success?
      ensures seqNo.Some? ==> LogOf(t).rows != [] && LogOf(t).rows[|LogOf(t).rows| - 1] == Row(seqNo.value, msg)
      ensures seqNo.Some? && Numbered(old(LogOf(t)).rows) ==> seqNo.value == |LogOf(t).rows|
    {
      hide InsertAll, NextSeq, Tail, Numbered;
      var all := LogOf(t).pending + [msg];
      pending := pending - {t};
      assert forall u :: u != t ==> LogOf(u) == old(LogOf(u));
      var saved;
      saved, seqNo := InsertEach(t, all, if outcome.Success? then |all| else outcome.k);
      assert forall u :: u != t ==> LogOf(u) == old(LogOf(u));
      if outcome.FailsAfter? {
        seqNo := None;
        var unsaved := all[saved..];
        if |unsaved| > cap {
          unsaved := Tail(unsaved, cap);
        }
        if unsaved != [] {
          pending := pending[t := unsaved];
        }
      } else {
        assert all[..saved] == all;
        LastNumber(old(LogOf(t)).rows, all);
      }
    }
  }

  lemma InsertNone<M>(rows: seq<Row<M>>)
    ensures InsertAll(rows, []) == rows
  {
  }

  lemma LastNumber<M>(rows: seq<Row<M>>, msgs: seq<M>)
    requires msgs != []
    ensures Numbered(rows) ==>
      var after := InsertAll(rows, msgs);
      |after| > 0 && after[|after| - 1].seqNo == |after|
  {
    if Numbered(rows) {
      InsertAllAppends(rows, msgs);
      assert |Messages(InsertAll(rows, msgs))| == |rows| + |msgs|;
    }
  }

  lemma {:induction false} InsertAllPush<M>(rows: seq<Row<M>>, msgs: seq<M>, msg: M)
    ensures InsertAll(rows, msgs + [msg]) == InsertAll(rows, msgs) + [Row(NextSeq(InsertAll(rows, msgs)), msg)]
    decreases |msgs|
  {
    if msgs == [] {
      assert [msg][1..] == [];
    } else {
      assert (msgs + [msg])[1..] == msgs[1..] + [msg];
      InsertAllPush(rows + [Row(NextSeq(rows), msgs[0])], msgs[1..], msg);
    }
  }
}
