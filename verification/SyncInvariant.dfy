// What every step of the batch, of reconcile and of the environment keeps.
module SyncInvariant {
  import opened Options
  import opened SyncModel

  // ---------------------------------------------------------------------
  // Ownership of point ids
  // ---------------------------------------------------------------------

  // A recorded id was generated for the row that records it.
  ghost predicate Owned(s: State) {
    && (forall id :: id in s.pg && s.pg[id].pid.Some? ==> OwnedBy(s, s.pg[id].pid.value, id))
    && s.qd.Keys <= s.owner.Keys
    && (s.job.Syncing? ==>
          var b := s.job.batch;
          && (forall id :: id in b.rows && b.rows[id].pid.Some? ==> OwnedBy(s, b.rows[id].pid.value, id))
          && (forall e :: e in b.written + b.upsertQueue ==> OwnedBy(s, e.pid, e.id))
          && b.minted <= s.owner.Keys)
  }

  ghost predicate OwnedBy(s: State, p: PointId, id: Id) {
    p in s.owner && s.owner[p] == id
  }

  ghost predicate Recorded(s: State, p: PointId) {
    p in s.owner && s.owner[p] in s.pg && s.pg[s.owner[p]].pid == Some(p)
  }

  // Every point is recorded, or its origin explains why it is not.
  ghost predicate Accounted(s: State) {
    forall p :: p in s.qd ==>
      Recorded(s, p) || p in s.strays || p in s.dropped || (s.job.Syncing? && p in s.job.batch.minted)
  }

  // ---------------------------------------------------------------------
  // Rows in step with their points
  // ---------------------------------------------------------------------

  ghost predicate RowOk(row: Row, qd: map<PointId, Payload>) {
    if row.active then
      row.desc != "" ==> row.pid.Some? && row.pid.value in qd && qd[row.pid.value] == Payload(row.sql, row.desc)
    else row.pid.None?
  }

  // Everything up to the saved cursor is in step.
  ghost predicate Sound(s: State) {
    forall id :: id in s.pg && s.pg[id].at <= s.saved ==> RowOk(s.pg[id], s.qd)
  }

  // ---------------------------------------------------------------------
  // A batch at work
  // ---------------------------------------------------------------------

  function Find(es: seq<Entry>, id: Id): (r: Option<Entry>)
    ensures r.Some? ==> r.value in es && r.value.id == id
    ensures r.None? ==> forall e :: e in es ==> e.id != id
  {
    if es == [] then None else if es[0].id == id then Some(es[0]) else Find(es[1..], id)
  }

  ghost predicate DistinctIds(es: seq<Entry>) {
    forall i, j :: 0 <= i < j < |es| ==> es[i].id != es[j].id
  }

  // An entry carries what was fetched for its row.
  ghost predicate Matches(b: Batch, e: Entry) {
    && e.id in b.rows && e.id !in b.todo
    && b.rows[e.id].active
    && e.sql == b.rows[e.id].sql
    && (b.rows[e.id].desc != "" ==> e.desc == b.rows[e.id].desc)
    && (b.rows[e.id].pid.Some? ==> e.pid == b.rows[e.id].pid.value)
    && (b.rows[e.id].pid.None? && b.phase.Streaming? ==> e.pid in b.minted)
  }

  ghost predicate Entries(b: Batch) {
    && DistinctIds(b.written + b.upsertQueue)
    && (forall e :: e in b.written + b.upsertQueue ==> Matches(b, e))
  }

  // A generated id that reached the collection belongs to an entry written or being upserted.
  ghost predicate Traced(b: Batch, qd: map<PointId, Payload>) {
    && b.encoded <= |b.upsertQueue|
    && forall p :: p in b.minted && p in qd ==> exists e :: e in b.written + b.upsertQueue[..b.encoded] && e.pid == p
  }

  ghost predicate Deletions(b: Batch, qd: map<PointId, Payload>) {
    && (forall d :: d in b.deleteQueue ==>
          d.id in b.rows && d.id !in b.todo && !b.rows[d.id].active && d.pid == b.rows[d.id].pid)
    && (forall id :: id in b.removed ==>
          id in b.rows && id !in b.todo && !b.rows[id].active && b.rows[id].pid.Some? && b.rows[id].pid.value !in qd)
  }

  ghost predicate Written(b: Batch, qd: map<PointId, Payload>) {
    forall e :: e in b.written ==> e.pid in qd && qd[e.pid] == Payload(e.sql, e.desc)
  }

  // Fetched in order, each row once, above the cursor.
  ghost predicate Ordered(b: Batch) {
    && (forall i :: 0 <= i < |b.todo| ==> b.todo[i] in b.rows)
    && (forall i, j :: 0 <= i < j < |b.todo| ==> b.todo[i] != b.todo[j] && b.rows[b.todo[i]].at <= b.rows[b.todo[j]].at)
    && (forall id :: id in b.rows ==> b.rows[id].at > b.since)
    && (forall id :: id in b.rows ==> if id in b.todo then b.maxAt <= b.rows[id].at else b.rows[id].at <= b.maxAt)
    && b.maxAt >= b.since
    && (b.maxAt == b.since || exists id :: id in b.rows && b.rows[id].at == b.maxAt)
  }

  // The run embeds such a row, or counts a failure.
  predicate Embeddable(row: Row, mode: Mode) {
    row.desc != "" || (mode.Generate? && row.sql != "")
  }

  // Every fetched row that must be embedded or deleted is on its way, unless a failure was counted.
  ghost predicate Handled(b: Batch) {
    b.failed == 0 ==> forall id :: id in b.rows && id !in b.todo ==>
      && (b.rows[id].active && Embeddable(b.rows[id], b.mode) ==> Find(b.written + b.upsertQueue, id).Some?)
      && (!b.rows[id].active && b.rows[id].pid.Some? ==> Doomed(id, b.rows[id].pid) in b.deleteQueue || id in b.removed)
  }

  // A fetched row as the table shows it, if nobody edited it since.
  function Expected(b: Batch, id: Id): Row
    requires id in b.rows
  {
    var r := b.rows[id];
    var found := Find(b.written, id);
    if b.phase.Streaming? then r
    else if found.Some? then
      r.(pid := Some(found.value.pid), desc := if WritesDesc(b.mode) then found.value.desc else r.desc)
    else if b.phase.DeletesRecorded? && id in b.removed then r.(pid := None)
    else r
  }

  // Each row was edited after the fetch, or is as fetched, or lies below the cursor.
  ghost predicate Covered(s: State)
    requires s.job.Syncing?
  {
    var b := s.job.batch;
    forall id :: id in s.pg ==>
      Beyond(s, s.pg[id].at) || (if id in b.rows then s.pg[id] == Expected(b, id) else s.pg[id].at <= b.since)
  }

  // The id a row of the batch records is the one fetched or the one just recorded.
  ghost predicate PidsStable(s: State)
    requires s.job.Syncing?
  {
    var b := s.job.batch;
    && (forall id :: id in b.rows && id in s.pg && s.pg[id].pid.Some? ==>
          s.pg[id].pid == b.rows[id].pid || JustRecorded(b, id, s.pg[id].pid))
    && (!b.phase.DeletesRecorded? ==>
          forall id :: id in b.rows && b.rows[id].pid.Some? ==>
            Recorded(s, b.rows[id].pid.value) || b.rows[id].pid.value in s.dropped)
  }

  ghost predicate JustRecorded(b: Batch, id: Id, pid: Option<PointId>) {
    var found := Find(b.written, id);
    found.Some? && pid == Some(found.value.pid)
  }

  ghost predicate Counted(b: Batch) {
    && b.fetched == b.upserted + b.failed + b.skipped + b.deleted + b.noops + |b.upsertQueue| + |b.deleteQueue|
    && |b.written| == b.upserted
    && |b.removed| == b.deleted
  }

  ghost predicate AtWork(s: State)
    requires s.job.Syncing?
  {
    var b := s.job.batch;
    && (b.since == s.saved || b.since == EPOCH)
    && (!b.phase.Streaming? ==> Drained(b) && b.minted == {})
    && Entries(b) && Traced(b, s.qd) && Deletions(b, s.qd) && Written(b, s.qd) && Ordered(b) && Handled(b) && Counted(b)
    && Covered(s) && PidsStable(s)
  }

  // Reconcile never has an id in its sights that a row up to the cursor relies on.
  ghost predicate SweepsSafely(s: State)
    requires s.job.Sweeping?
  {
    && s.job.keep !! s.job.orphans
    && forall id :: id in s.pg && s.pg[id].active && s.pg[id].pid.Some? && s.pg[id].at <= s.saved ==>
      s.pg[id].pid.value in s.job.keep
  }

  ghost predicate Inv(s: State) {
    && s.saved >= EPOCH && (forall id :: id in s.pg ==> s.pg[id].at > EPOCH)
    && Owned(s) && Accounted(s) && Sound(s)
    && (s.job.Syncing? ==> AtWork(s))
    && (s.job.Sweeping? ==> SweepsSafely(s))
  }

  lemma InitInv(s: State)
    requires Init(s)
    ensures Inv(s)
  {
  }

  // ---------------------------------------------------------------------
  // Effects on the stores
  // ---------------------------------------------------------------------

  lemma {:induction false} PutEffect(qd: map<PointId, Payload>, es: seq<Entry>, applied: set<PointId>)
    requires forall i, j :: 0 <= i < j < |es| ==> es[i].pid != es[j].pid
    requires applied <= EntryPoints(es)
    ensures Put(qd, es, applied).Keys == qd.Keys + applied
    ensures forall p :: p in qd && p !in applied ==> Put(qd, es, applied)[p] == qd[p]
    ensures forall e :: e in es && e.pid in applied ==> Put(qd, es, applied)[e.pid] == Payload(e.sql, e.desc)
    decreases |es|
  {
    if es != [] {
      var e := es[0];
      var qd1 := if e.pid in applied then qd[e.pid := Payload(e.sql, e.desc)] else qd;
      var rest := applied - {e.pid};
      OthersApplied(es, applied);
      PutSame(qd1, es[1..], applied, rest);
      PutEffect(qd1, es[1..], rest);
      forall x | x in es && x.pid in applied ensures x == e || (x in es[1..] && x.pid in rest) {
      }
    }
  }

  // What is applied of the entries after the first.
  lemma OthersApplied(es: seq<Entry>, applied: set<PointId>)
    requires es != [] && (forall i, j :: 0 <= i < j < |es| ==> es[i].pid != es[j].pid) && applied <= EntryPoints(es)
    ensures
      var rest := applied - {es[0].pid};
      && (forall i, j :: 0 <= i < j < |es[1..]| ==> es[1..][i].pid != es[1..][j].pid)
      && rest <= EntryPoints(es[1..])
      && forall x :: x in es[1..] ==> x.pid != es[0].pid && (x.pid in applied <==> x.pid in rest)
  {
    forall p | p in applied - {es[0].pid} ensures p in EntryPoints(es[1..]) {
      var k :| 0 <= k < |es| && es[k].pid == p;
      assert es[1..][k - 1] == es[k];
    }
    forall x | x in es[1..] ensures x.pid != es[0].pid {
      var k :| 0 <= k < |es[1..]| && es[1..][k] == x;
      assert es[k + 1] == x && es[0].pid != es[k + 1].pid;
    }
  }

  lemma {:induction false} PutSame(qd: map<PointId, Payload>, es: seq<Entry>, a: set<PointId>, b: set<PointId>)
    requires forall e :: e in es ==> (e.pid in a <==> e.pid in b)
    ensures Put(qd, es, a) == Put(qd, es, b)
    decreases |es|
  {
    if es != [] {
      assert es[0] in es;
      PutSame(if es[0].pid in a then qd[es[0].pid := Payload(es[0].sql, es[0].desc)] else qd, es[1..], a, b);
    }
  }

  lemma FindFirst(es: seq<Entry>, e: Entry)
    requires DistinctIds(es) && e in es
    ensures Find(es, e.id) == Some(e)
  {
  }

  lemma {:induction false} RecordEffect(pg: map<Id, Row>, es: seq<Entry>, writeDesc: bool)
    requires DistinctIds(es)
    ensures RecordEntries(pg, es, writeDesc).Keys == pg.Keys
    ensures forall id :: id in pg ==>
      RecordEntries(pg, es, writeDesc)[id] ==
        var found := Find(es, id);
        if found.Some? then
          pg[id].(pid := Some(found.value.pid), desc := if writeDesc then found.value.desc else pg[id].desc)
        else pg[id]
    decreases |es|
  {
    if es != [] {
      var e := es[0];
      var pg1 := if e.id in pg
        then pg[e.id := pg[e.id].(pid := Some(e.pid), desc := if writeDesc then e.desc else pg[e.id].desc)]
        else pg;
      forall i, j | 0 <= i < j < |es[1..]| ensures es[1..][i].id != es[1..][j].id {
        assert es[1..][i] == es[i + 1] && es[1..][j] == es[j + 1];
      }
      RecordEffect(pg1, es[1..], writeDesc);
      forall x | x in es[1..] ensures x.id != e.id {
        var k :| 0 <= k < |es[1..]| && es[1..][k] == x;
        assert es[k + 1] == x && es[0].id != es[k + 1].id;
      }
    }
  }

  lemma {:induction false} DoomEffect(q: seq<Doomed>)
    ensures forall id :: id in Doom(q) <==> exists k :: 0 <= k < |q| && q[k].id == id && q[k].pid.Some?
    ensures |Doom(q)| <= |q|
  {
    if q != [] {
      DoomEffect(q[1..]);
      forall id | id in Doom(q) ensures exists k :: 0 <= k < |q| && q[k].id == id && q[k].pid.Some? {
        if q[0].pid.Some? && q[0].id == id {
          assert q[0].id == id;
        } else {
          var k :| 0 <= k < |q[1..]| && q[1..][k].id == id && q[1..][k].pid.Some?;
          assert q[k + 1] == q[1..][k];
        }
      }
      forall id | exists k :: 0 <= k < |q| && q[k].id == id && q[k].pid.Some? ensures id in Doom(q) {
        var k :| 0 <= k < |q| && q[k].id == id && q[k].pid.Some?;
        if k > 0 {
          assert q[1..][k - 1] == q[k];
        }
      }
    }
  }

  // ---------------------------------------------------------------------
  // The steps, one by one
  // ---------------------------------------------------------------------

  lemma BeginKeeps(s: State, full: bool, mode: Mode, order: seq<Id>)
    requires Inv(s) && Enabled(s, Begin(full, mode, order))
    ensures Inv(Apply(s, Begin(full, mode, order)))
  {
    var s' := Apply(s, Begin(full, mode, order));
    var b := s'.job.batch;
    assert Ordered(b);
    assert forall id :: id in b.rows ==> id in order;
    assert Handled(b);
    assert PidsStable(s') by {
      forall id | id in b.rows && b.rows[id].pid.Some? ensures Recorded(s', b.rows[id].pid.value) {
        assert OwnedBy(s, s.pg[id].pid.value, id);
      }
    }
    assert Covered(s');
  }

  lemma TakeKeeps(s: State, generated: Option<string>, mint: PointId)
    requires Inv(s) && Enabled(s, Take(generated, mint))
    ensures Inv(Apply(s, Take(generated, mint)))
  {
    hide Owned, Accounted, Sound, Entries, Deletions, Written, Ordered, Handled, Counted, Covered, PidsStable,
      Describe;
    var e := Take(generated, mint);
    HeadOnce(s.job.batch);
    TakeOrdered(s.job.batch, generated, mint);
    TakeCounted(s.job.batch, generated, mint);
    TakeOwned(s, e);
    TakeEntries(s.job.batch, generated, mint, s.qd);
    TakeHandled(s.job.batch, generated, mint);
    TakeCovered(s, e);
    TakeKeepsShape(s.job.batch, generated, mint);
    TakeTraced(s, e);
  }

  lemma TakeTraced(s: State, e: Event)
    requires Inv(s) && e.Take? && Enabled(s, e)
    ensures Traced(Apply(s, e).job.batch, s.qd)
  {
    hide Accounted, Sound, Entries, Deletions, Written, Ordered, Handled, Counted, Covered, PidsStable, Describe;
    var b, b' := s.job.batch, Apply(s, e).job.batch;
    assert b'.encoded == 0 && b'.upsertQueue[..0] == [] && b.upsertQueue[..0] == [];
    assert b'.minted <= b.minted + {e.mint};
  }

  lemma TakeKeepsShape(b: Batch, generated: Option<string>, mint: PointId)
    requires b.todo != [] && b.todo[0] in b.rows
    ensures var b' := TakeRow(b, generated, mint);
      b'.since == b.since && b'.phase == b.phase && b'.mode == b.mode && b'.rows == b.rows && b'.written == b.written &&
        b'.removed == b.removed && b'.encoded == b.encoded
  {
  }

  lemma HeadOnce(b: Batch)
    requires b.todo != [] && Ordered(b)
    ensures b.todo[0] !in b.todo[1..] && forall x :: x in b.todo <==> x == b.todo[0] || x in b.todo[1..]
  {
    var rest := b.todo[1..];
    assert b.todo == [b.todo[0]] + rest;
    forall k | 0 <= k < |rest| ensures rest[k] != b.todo[0] {
      assert rest[k] == b.todo[k + 1];
    }
  }

  lemma TakeOrdered(b: Batch, generated: Option<string>, mint: PointId)
    requires b.todo != [] && Ordered(b)
    ensures Ordered(TakeRow(b, generated, mint))
  {
    var b', head := TakeRow(b, generated, mint), b.todo[0];
    HeadOnce(b);
    TakeKeepsShape(b, generated, mint);
    assert b'.todo == b.todo[1..] && b'.maxAt == b.rows[head].at by { TakeFields(b, generated, mint); }
    forall i | 0 <= i < |b'.todo| ensures b'.todo[i] == b.todo[i + 1] {
    }
    forall x | x in b.rows ensures if x in b'.todo then b'.maxAt <= b.rows[x].at else b.rows[x].at <= b'.maxAt {
      if x in b'.todo {
        var k :| 0 <= k < |b'.todo| && b'.todo[k] == x;
        assert b.rows[b.todo[0]].at <= b.rows[b.todo[k + 1]].at;
      }
    }
  }

  lemma TakeFields(b: Batch, generated: Option<string>, mint: PointId)
    requires b.todo != [] && b.todo[0] in b.rows
    ensures var b' := TakeRow(b, generated, mint);
      b'.todo == b.todo[1..] && b'.maxAt == b.rows[b.todo[0]].at
  {
  }

  lemma TakeCounted(b: Batch, generated: Option<string>, mint: PointId)
    requires b.todo != [] && b.todo[0] in b.rows && Counted(b)
    ensures Counted(TakeRow(b, generated, mint))
  {
  }

  lemma TakeOwned(s: State, e: Event)
    requires Inv(s) && e.Take? && Enabled(s, e)
    ensures Owned(Apply(s, e)) && Accounted(Apply(s, e)) && PidsStable(Apply(s, e))
  {
    hide Sound, Entries, Traced, Deletions, Written, Ordered, Handled, Counted, Covered, Describe;
    var s' := Apply(s, e);
    var b, b' := s.job.batch, s'.job.batch;
    forall p, id | OwnedBy(s, p, id) ensures OwnedBy(s', p, id) {
    }
    forall p | Recorded(s, p) ensures Recorded(s', p) {
    }
    forall x | x in b'.written + b'.upsertQueue ensures OwnedBy(s', x.pid, x.id) {
      if x in b.written + b.upsertQueue {
        assert OwnedBy(s, x.pid, x.id);
      }
    }
  }

  lemma TakeEntries(b: Batch, generated: Option<string>, mint: PointId, qd: map<PointId, Payload>)
    requires b.todo != [] && Ordered(b) && Entries(b) && Deletions(b, qd) && b.phase.Streaming?
    ensures Entries(TakeRow(b, generated, mint)) && Deletions(TakeRow(b, generated, mint), qd)
  {
    var b', id := TakeRow(b, generated, mint), b.todo[0];
    HeadOnce(b);
    TakeKeepsShape(b, generated, mint);
    TakeFields(b, generated, mint);
    var all, all' := b.written + b.upsertQueue, b'.written + b'.upsertQueue;
    forall x | x in all ensures x.id != id && Matches(b', x) {
      assert Matches(b, x);
    }
    if b'.upsertQueue != b.upsertQueue {
      var x := b'.upsertQueue[|b.upsertQueue|];
      assert all' == all + [x];
      assert Matches(b', x) && x.id == id;
      DistinctPush(all, x);
    }
  }

  lemma DistinctPush(es: seq<Entry>, x: Entry)
    requires DistinctIds(es) && forall e :: e in es ==> e.id != x.id
    ensures DistinctIds(es + [x])
  {
  }

  lemma TakeHandled(b: Batch, generated: Option<string>, mint: PointId)
    requires b.todo != [] && Ordered(b) && Handled(b)
    ensures Handled(TakeRow(b, generated, mint))
  {
    var b' := TakeRow(b, generated, mint);
    var all, all' := b.written + b.upsertQueue, b'.written + b'.upsertQueue;
    HeadOnce(b);
    TakeKeepsShape(b, generated, mint);
    TakeFields(b, generated, mint);
    assert all <= all' && b.deleteQueue <= b'.deleteQueue;
    if b'.failed == 0 {
      forall id | id in b'.rows && id !in b'.todo
        ensures b'.rows[id].active && Embeddable(b'.rows[id], b'.mode) ==> Find(all', id).Some?
        ensures !b'.rows[id].active && b'.rows[id].pid.Some? ==>
          Doomed(id, b'.rows[id].pid) in b'.deleteQueue || id in b'.removed
      {
        if id != b.todo[0] {
          if Find(all, id).Some? {
            var k :| 0 <= k < |all| && all[k] == Find(all, id).value;
            assert all'[k] == all[k];
          }
        } else if b.rows[id].active && Embeddable(b.rows[id], b.mode) {
          assert b'.upsertQueue[|b.upsertQueue|].id == id;
          assert b'.upsertQueue[|b.upsertQueue|] in all';
        }
      }
    }
  }

  lemma TakeCovered(s: State, e: Event)
    requires Inv(s) && e.Take? && Enabled(s, e)
    ensures Covered(Apply(s, e)) && Written(Apply(s, e).job.batch, s.qd) && Sound(Apply(s, e))
  {
    var s' := Apply(s, e);
    var b, b' := s.job.batch, s'.job.batch;
    forall id | id in s'.pg ensures Beyond(s', s'.pg[id].at) ||
      (if id in b'.rows then s'.pg[id] == Expected(b', id) else s'.pg[id].at <= b'.since) {
      assert Beyond(s, s.pg[id].at) ==> Beyond(s', s'.pg[id].at);
    }
  }

  lemma EncodeFailsKeeps(s: State, k: nat)
    requires Inv(s) && Enabled(s, EncodeFails(k))
    ensures Inv(Apply(s, EncodeFails(k)))
  {
    hide Sound, Accounted, Ordered, Covered, PidsStable;
    var s' := Apply(s, EncodeFails(k));
    assert s'.job.batch.upsertQueue[..0] == [] && s.job.batch.upsertQueue[..0] == [];
    var b, b' := s.job.batch, s'.job.batch;
    var all, all' := b.written + b.upsertQueue, b'.written + b'.upsertQueue;
    forall x | x in all' ensures x in all {
      if x in b'.upsertQueue {
        assert x in b.upsertQueue;
      }
    }
    assert Entries(b') by {
      DropMiddle(b.written, b.upsertQueue, k);
      forall x | x in all' ensures Matches(b', x) {
        assert Matches(b, x);
      }
    }
    BatchOnly(s, s');
    assert Deletions(b', s'.qd) && Handled(b') && Counted(b');
    assert Traced(b', s'.qd) by {
      forall p | p in b.minted && p in s.qd ensures exists e :: e in b'.written + b'.upsertQueue[..0] && e.pid == p {
        var e :| e in b.written + b.upsertQueue[..0] && e.pid == p;
        assert e in b'.written + b'.upsertQueue[..0];
      }
    }
    assert Owned(s') by {
      forall p, id | OwnedBy(s, p, id) ensures OwnedBy(s', p, id) {
      }
    }
  }

  lemma DropMiddle(w: seq<Entry>, q: seq<Entry>, k: nat)
    requires k <= |q| && DistinctIds(w + q)
    ensures DistinctIds(w + q[k..])
  {
    var all, all' := w + q, w + q[k..];
    forall i, j | 0 <= i < j < |all'| ensures all'[i].id != all'[j].id {
      var i', j' := if i < |w| then i else i + k, if j < |w| then j else j + k;
      assert all'[i] == all[i'] && all'[j] == all[j'];
    }
  }

  // Steps that only move entries about leave the stores and what is said of them alone.
  lemma BatchOnly(s: State, s': State)
    requires s.job.Syncing? && s'.job.Syncing? && s' == s.(job := s'.job)
    requires
      var b, b' := s.job.batch, s'.job.batch;
      b' == b.(upsertQueue := b'.upsertQueue, encoded := b'.encoded, deleteQueue := b'.deleteQueue,
        upserted := b'.upserted, failed := b'.failed,
               deleted := b'.deleted, noops := b'.noops)
    requires Inv(s)
    ensures Sound(s') && Accounted(s') && Covered(s') && PidsStable(s') && Ordered(s'.job.batch) &&
      Written(s'.job.batch, s'.qd)
  {
    hide Owned, Entries, Deletions, Handled, Counted, Traced;
    var b, b' := s.job.batch, s'.job.batch;
    forall id | id in s'.pg
      ensures Beyond(s', s'.pg[id].at) ||
        (if id in b'.rows then s'.pg[id] == Expected(b', id) else s'.pg[id].at <= b'.since)
    {
      assert Beyond(s, s.pg[id].at) ==> Beyond(s', s'.pg[id].at);
    }
    forall p | Recorded(s, p) ensures Recorded(s', p) {
    }
  }

  lemma DistinctPids(s: State, es: seq<Entry>)
    requires DistinctIds(es) && forall e :: e in es ==> OwnedBy(s, e.pid, e.id)
    ensures forall i, j :: 0 <= i < j < |es| ==> es[i].pid != es[j].pid
  {
    forall i, j | 0 <= i < j < |es| ensures es[i].pid != es[j].pid {
      assert OwnedBy(s, es[i].pid, es[i].id) && OwnedBy(s, es[j].pid, es[j].id);
    }
  }

  lemma PrefixDistinct(w: seq<Entry>, q: seq<Entry>, k: nat)
    requires k <= |q| && DistinctIds(w + q)
    ensures DistinctIds(q[..k])
    ensures forall x, y :: x in q[..k] && y in w ==> x.id != y.id
  {
    var all := w + q;
    forall i, j | 0 <= i < j < k ensures q[..k][i].id != q[..k][j].id {
      assert q[..k][i] == all[|w| + i] && q[..k][j] == all[|w| + j];
    }
    forall x, y | x in q[..k] && y in w ensures x.id != y.id {
      var i :| 0 <= i < k && q[..k][i] == x;
      var j :| 0 <= j < |w| && w[j] == y;
      assert x == all[|w| + i] && y == all[j];
    }
  }

  lemma EncodeKeeps(s: State, k: nat)
    requires Inv(s) && Enabled(s, Encode(k))
    ensures Inv(Apply(s, Encode(k)))
  {
    hide Sound, Accounted, Deletions, Ordered, Covered, PidsStable;
    var s' := Apply(s, Encode(k));
    var b, b' := s.job.batch, s'.job.batch;
    forall x | x in b.written + b.upsertQueue ensures Matches(b', x) {
      assert Matches(b, x);
    }
    forall p | p in b.minted && p in s.qd ensures exists e :: e in b'.written + b'.upsertQueue[..k] && e.pid == p {
      var e :| e in b.written + b.upsertQueue[..0] && e.pid == p;
      assert e in b'.written + b'.upsertQueue[..k];
    }
    BatchOnly(s, s');
    OnlyEncoded(b, b', s.qd);
  }

  lemma OnlyEncoded(b: Batch, b': Batch, qd: map<PointId, Payload>)
    requires b' == b.(encoded := b'.encoded) && Deletions(b, qd)
    ensures Deletions(b', qd)
  {
  }

  // Writing any part of a batch of entries, at any time, harms nothing.
  lemma UpsertTriedKeeps(s: State, applied: set<PointId>)
    requires Inv(s) && Enabled(s, UpsertTried(applied))
    ensures Inv(Apply(s, UpsertTried(applied)))
    ensures
      var qd' := Apply(s, UpsertTried(applied)).qd;
      forall e :: e in s.job.batch.upsertQueue[..s.job.batch.encoded] && e.pid in applied ==>
        e.pid in qd' && qd'[e.pid] == Payload(e.sql, e.desc)
  {
    hide Ordered, Handled, Counted, Covered, PidsStable, Traced, Put, Owned, Accounted, Sound, Deletions, Written;
    var s' := Apply(s, UpsertTried(applied));
    var b, k := s.job.batch, s.job.batch.encoded;
    var es := b.upsertQueue[..k];
    AppliedEffect(s, applied);
    UpsertOwned(s, s', es, applied);
    UpsertSound(s, s', es, applied);
    UpsertApart(s, s', es, applied);
    SameTable(s, s');
    AppliedTraced(b, s.qd, s'.qd, applied);
  }

  // What writing part of a batch does to the collection.
  lemma AppliedEffect(s: State, applied: set<PointId>)
    requires Inv(s) && Enabled(s, UpsertTried(applied))
    ensures
      var es := s.job.batch.upsertQueue[..s.job.batch.encoded];
      var qd' := Put(s.qd, es, applied);
      && (forall e :: e in es ==> e in s.job.batch.written + s.job.batch.upsertQueue)
      && (forall x, y :: x in es && y in s.job.batch.written ==> x.id != y.id)
      && (forall p :: p in applied ==> exists e :: e in es && e.pid == p)
      && qd'.Keys == s.qd.Keys + applied
      && (forall p :: p in s.qd && p !in applied ==> qd'[p] == s.qd[p])
      && (forall e :: e in es && e.pid in applied ==> qd'[e.pid] == Payload(e.sql, e.desc))
  {
    hide Ordered, Handled, Counted, Covered, PidsStable, Traced, Put, Accounted, Sound, Deletions, Written;
    var b, k := s.job.batch, s.job.batch.encoded;
    var es := b.upsertQueue[..k];
    forall e | e in es ensures e in b.written + b.upsertQueue {
    }
    PrefixDistinct(b.written, b.upsertQueue, k);
    DistinctPids(s, es);
    PutEffect(s.qd, es, applied);
    AppliedEntries(es, applied);
  }

  lemma AppliedEntries(es: seq<Entry>, applied: set<PointId>)
    requires applied <= EntryPoints(es)
    ensures forall p :: p in applied ==> exists e :: e in es && e.pid == p
  {
    forall p | p in applied ensures exists e :: e in es && e.pid == p {
      var i :| 0 <= i < |es| && es[i].pid == p;
      assert es[i] in es;
    }
  }

  lemma AppliedTraced(b: Batch, qd: map<PointId, Payload>, qd': map<PointId, Payload>, applied: set<PointId>)
    requires Traced(b, qd) && applied <= EntryPoints(b.upsertQueue[..b.encoded]) && qd'.Keys == qd.Keys + applied
    ensures Traced(b, qd')
  {
    var es := b.upsertQueue[..b.encoded];
    AppliedEntries(es, applied);
    forall p | p in applied ensures exists e :: e in b.written + es && e.pid == p {
      var e :| e in es && e.pid == p;
      assert e in b.written + es;
    }
  }

  lemma UpsertOwned(s: State, s': State, es: seq<Entry>, applied: set<PointId>)
    requires Inv(s) && Streams(s) && s' == s.(qd := s'.qd) && s'.qd.Keys == s.qd.Keys + applied
    requires forall e :: e in es ==> e in s.job.batch.written + s.job.batch.upsertQueue
    requires forall p :: p in applied ==> exists e :: e in es && e.pid == p
    ensures Owned(s') && Accounted(s')
  {
    hide Ordered, Handled, Counted, Covered, Deletions, Written, Sound;
    var b := s.job.batch;
    forall p, id | OwnedBy(s, p, id) ensures OwnedBy(s', p, id) {
    }
    forall p | Recorded(s, p) ensures Recorded(s', p) {
    }
    forall p | p in applied
      ensures p in s.owner && (Recorded(s, p) || p in s.dropped || p in b.minted)
    {
      var e :| e in es && e.pid == p;
      assert Matches(b, e) && OwnedBy(s, e.pid, e.id);
      if b.rows[e.id].pid.Some? { assert Recorded(s, p) || p in s.dropped; }
    }
    forall p | p in applied ensures p in s.owner.Keys {
      var e :| e in es && e.pid == p;
      assert OwnedBy(s, e.pid, e.id);
    }
    forall e | e in b.written + b.upsertQueue ensures OwnedBy(s', e.pid, e.id) {
      assert OwnedBy(s, e.pid, e.id);
    }
    forall id | id in s'.pg && s'.pg[id].pid.Some? ensures OwnedBy(s', s'.pg[id].pid.value, id) {
      assert OwnedBy(s, s.pg[id].pid.value, id);
    }
    forall id | id in b.rows && b.rows[id].pid.Some? ensures OwnedBy(s', b.rows[id].pid.value, id) {
      assert OwnedBy(s, b.rows[id].pid.value, id);
    }
  }

  lemma UpsertSound(s: State, s': State, es: seq<Entry>, applied: set<PointId>)
    requires Inv(s) && Streams(s) && s' == s.(qd := s'.qd) && s'.qd.Keys == s.qd.Keys + applied
    requires forall e :: e in es ==> e in s.job.batch.written + s.job.batch.upsertQueue
    requires forall p :: p in applied ==> exists e :: e in es && e.pid == p
    requires forall p :: p in s.qd && p !in applied ==> s'.qd[p] == s.qd[p]
    requires forall e :: e in es && e.pid in applied ==> s'.qd[e.pid] == Payload(e.sql, e.desc)
    ensures Sound(s')
  {
    hide Ordered, Handled, Counted, Deletions, Written, PidsStable, Accounted;
    var b := s.job.batch;
    forall id | id in s'.pg && s'.pg[id].at <= s'.saved ensures RowOk(s'.pg[id], s'.qd) {
      var row := s.pg[id];
      assert RowOk(row, s.qd);
      if row.active && row.desc != "" && row.pid.value in applied {
        var e :| e in es && e.pid == row.pid.value;
        assert Matches(b, e) && OwnedBy(s, e.pid, e.id) && OwnedBy(s, row.pid.value, id);
        assert !Beyond(s, row.at);
      }
    }
  }

  lemma UpsertApart(s: State, s': State, es: seq<Entry>, applied: set<PointId>)
    requires Inv(s) && Streams(s) && s' == s.(qd := s'.qd) && s'.qd.Keys == s.qd.Keys + applied
    requires forall e :: e in es ==> e in s.job.batch.written + s.job.batch.upsertQueue
    requires forall x, y :: x in es && y in s.job.batch.written ==> x.id != y.id
    requires forall p :: p in applied ==> exists e :: e in es && e.pid == p
    requires forall p :: p in s.qd && p !in applied ==> s'.qd[p] == s.qd[p]
    ensures Deletions(s.job.batch, s'.qd) && Written(s.job.batch, s'.qd)
  {
    hide Ordered, Handled, Counted, Sound, PidsStable, Accounted, Covered;
    var b := s.job.batch;
    forall id | id in b.removed ensures b.rows[id].pid.value !in s'.qd {
      forall e | e in es ensures e.pid != b.rows[id].pid.value {
        assert Matches(b, e) && OwnedBy(s, e.pid, e.id) && OwnedBy(s, b.rows[id].pid.value, id);
      }
    }
    forall y | y in b.written ensures y.pid in s'.qd && s'.qd[y.pid] == Payload(y.sql, y.desc) {
      assert y in b.written + b.upsertQueue;
      forall e | e in es ensures e.pid != y.pid {
        assert OwnedBy(s, e.pid, e.id) && OwnedBy(s, y.pid, y.id);
      }
    }
  }

  // Only the collection changed.
  lemma SameTable(s: State, s': State)
    requires s.job.Syncing? && s' == s.(qd := s'.qd) && Covered(s) && PidsStable(s)
    ensures Covered(s') && PidsStable(s')
  {
    forall p | Recorded(s, p) ensures Recorded(s', p) {
    }
    forall id | id in s'.pg
      ensures Beyond(s', s'.pg[id].at) ||
        (if id in s'.job.batch.rows then s'.pg[id] == Expected(s'.job.batch, id)
         else s'.pg[id].at <= s'.job.batch.since)
    {
      assert Beyond(s, s.pg[id].at) ==> Beyond(s', s'.pg[id].at);
    }
  }

  lemma UpsertKeeps(s: State)
    requires Inv(s) && Enabled(s, Upsert)
    ensures Inv(Apply(s, Upsert))
  {
    hide Sound, Accounted, Ordered, Covered, PidsStable, Deletions;
    var b := s.job.batch;
    var es := b.upsertQueue[..b.encoded];
    UpsertTriedKeeps(s, EntryPoints(es));
    var s1, s' := Apply(s, UpsertTried(EntryPoints(es))), Apply(s, Upsert);
    var b' := s'.job.batch;
    assert b'.written + b'.upsertQueue == b.written + b.upsertQueue;
    assert b'.written + b'.upsertQueue[..0] == b.written + es;
    forall e | e in es ensures e.pid in EntryPoints(es) {
    }
    assert Entries(b') by {
      forall x | x in b.written + b.upsertQueue ensures Matches(b', x) {
        assert Matches(b, x);
      }
    }
    assert s'.qd == s1.qd;
    assert Written(b', s'.qd);
    UpsertShift(s1, s');
  }

  lemma UpsertShift(s: State, s': State)
    requires Inv(s) && Streams(s) && s'.job.Syncing? && s' == s.(job := s'.job)
    requires
      var b, b' := s.job.batch, s'.job.batch;
      b' == b.(upsertQueue := b'.upsertQueue, encoded := b'.encoded, upserted := b'.upserted, written := b'.written) &&
        b.written <= b'.written
    ensures Sound(s') && Accounted(s') && Covered(s') && PidsStable(s') && Ordered(s'.job.batch) &&
      Deletions(s'.job.batch, s'.qd)
  {
    hide Owned, Entries, Handled, Counted, Traced;
    forall p | Recorded(s, p) ensures Recorded(s', p) {
    }
    var b, b' := s.job.batch, s'.job.batch;
    forall id | id in s'.pg
      ensures Beyond(s', s'.pg[id].at) ||
        (if id in b'.rows then s'.pg[id] == Expected(b', id) else s'.pg[id].at <= b'.since)
    {
      assert Beyond(s, s.pg[id].at) ==> Beyond(s', s'.pg[id].at);
    }
    assert PidsStable(s') by {
      forall id | id in b.rows && id in s.pg && s.pg[id].pid.Some? && JustRecorded(b, id, s.pg[id].pid)
        ensures JustRecorded(b', id, s'.pg[id].pid)
      {
        FindPrefix(b.written, b'.written, id);
      }
    }
  }

  lemma {:induction false} FindPrefix(a: seq<Entry>, b: seq<Entry>, id: Id)
    requires a <= b && Find(a, id).Some?
    ensures Find(b, id) == Find(a, id)
  {
    if a[0].id != id {
      FindPrefix(a[1..], b[1..], id);
    }
  }

  // Deleting any part of the doomed points harms nothing.
  lemma DeleteTriedKeeps(s: State, applied: set<PointId>)
    requires Inv(s) && Enabled(s, DeleteTried(applied))
    ensures Inv(Apply(s, DeleteTried(applied)))
  {
    hide Ordered, Handled, Counted;
    var s' := Apply(s, DeleteTried(applied));
    var b := s.job.batch;
    forall p | p in applied ensures exists id :: id in b.rows && !b.rows[id].active && OwnedBy(s, p, id) {
      var k :| 0 <= k < |b.deleteQueue| && b.deleteQueue[k].pid == Some(p);
      assert b.deleteQueue[k] in b.deleteQueue;
      assert OwnedBy(s, p, b.deleteQueue[k].id);
    }
    forall p | Recorded(s, p) ensures Recorded(s', p) {
    }
    forall p, id | OwnedBy(s, p, id) ensures OwnedBy(s', p, id) {
    }
    forall id | id in s'.pg && s'.pg[id].at <= s'.saved ensures RowOk(s'.pg[id], s'.qd) {
      assert RowOk(s.pg[id], s.qd) && !Beyond(s, s.pg[id].at);
      if s.pg[id].pid.Some? { assert OwnedBy(s, s.pg[id].pid.value, id); }
    }
    forall e | e in b.written ensures e.pid in s'.qd {
      assert e in b.written + b.upsertQueue;
      assert Matches(b, e) && OwnedBy(s, e.pid, e.id);
    }
    SameTable(s, s');
  }

  lemma DeleteKeeps(s: State)
    requires Inv(s) && Enabled(s, Delete)
    ensures Inv(Apply(s, Delete))
  {
    hide Sound, Accounted, Ordered, Covered, PidsStable, Entries;
    var b := s.job.batch;
    var points := DoomedPoints(b.deleteQueue);
    DeleteTriedKeeps(s, points);
    var s1, s' := Apply(s, DeleteTried(points)), Apply(s, Delete);
    var b' := s'.job.batch;
    DoomEffect(b.deleteQueue);
    forall id | id in b'.removed && id !in b.removed
      ensures id in b.rows && id !in b.todo && !b.rows[id].active && b.rows[id].pid.Some? &&
        b.rows[id].pid.value !in s'.qd
    {
      var k :| 0 <= k < |b.deleteQueue| && b.deleteQueue[k].id == id && b.deleteQueue[k].pid.Some?;
      assert b.deleteQueue[k] in b.deleteQueue;
      assert b.deleteQueue[k].pid.value in points;
    }
    DeleteShift(s1, s');
    assert Handled(b') by {
      if b'.failed == 0 {
        forall id | id in b.rows && id !in b.todo && !b.rows[id].active && b.rows[id].pid.Some?
          ensures id in b'.removed {
          if Doomed(id, b.rows[id].pid) in b.deleteQueue {
            var k :| 0 <= k < |b.deleteQueue| && b.deleteQueue[k] == Doomed(id, b.rows[id].pid);
          }
        }
      }
    }
  }

  lemma DeleteShift(s: State, s': State)
    requires Inv(s) && Streams(s) && s'.job.Syncing? && s' == s.(job := s'.job)
    requires
      var b, b' := s.job.batch, s'.job.batch;
      b' == b.(deleteQueue := [], deleted := b'.deleted, removed := b'.removed, noops := b'.noops, failed := b'.failed)
    ensures Owned(s') && Sound(s') && Accounted(s') && Covered(s') && PidsStable(s') && Ordered(s'.job.batch)
    ensures Entries(s'.job.batch) && Written(s'.job.batch, s'.qd)
  {
    hide Handled, Counted, Deletions;
    forall p | Recorded(s, p) ensures Recorded(s', p) {
    }
    forall p, id | OwnedBy(s, p, id) ensures OwnedBy(s', p, id) {
    }
    var b, b' := s.job.batch, s'.job.batch;
    forall x | x in b.written + b.upsertQueue ensures Matches(b', x) {
      assert Matches(b, x);
    }
    forall id | id in s'.pg
      ensures Beyond(s', s'.pg[id].at) ||
        (if id in b'.rows then s'.pg[id] == Expected(b', id) else s'.pg[id].at <= b'.since)
    {
      assert Beyond(s, s.pg[id].at) ==> Beyond(s', s'.pg[id].at);
    }
  }

  lemma DeleteGivenUpKeeps(s: State)
    requires Inv(s) && Enabled(s, DeleteGivenUp)
    ensures Inv(Apply(s, DeleteGivenUp))
  {
    hide Owned, Sound, Accounted, Ordered, Covered, PidsStable, Entries, Written;
    DeleteShift(s, Apply(s, DeleteGivenUp));
    assert |s.job.batch.deleteQueue| > 0;
  }

  // ---------------------------------------------------------------------
  // Recording
  // ---------------------------------------------------------------------

  lemma CommitUpsertsKeeps(s: State)
    requires Inv(s) && Enabled(s, RecordUpserts)
    ensures Inv(CommitUpserts(s))
  {
    hide Ordered, Handled, Counted, Deletions, Sound, Accounted, Owned, PidsStable, Covered;
    var s' := CommitUpserts(s);
    var b, b' := s.job.batch, s'.job.batch;
    assert b.written + b.upsertQueue == b.written == b'.written + b'.upsertQueue;
    RecordEffect(s.pg, b.written, WritesDesc(b.mode));
    assert Entries(b') by {
      forall x | x in b.written ensures Matches(b', x) {
        assert Matches(b, x);
      }
    }
    assert Ordered(b') && Handled(b') && Counted(b') && Deletions(b', s'.qd) by { RecordedShape(b, b', s.qd); }
    CommitUpsertsOwned(s);
    CommitUpsertsAccounted(s);
    CommitUpsertsCovered(s);
    CommitUpsertsSound(s);
    CommitUpsertsStable(s);
    assert forall id :: id in s'.pg ==> s'.pg[id].at > EPOCH;
  }

  lemma RecordedShape(b: Batch, b': Batch, qd: map<PointId, Payload>)
    requires b' == b.(phase := b'.phase, minted := b'.minted)
    requires Ordered(b) && Handled(b) && Counted(b) && Deletions(b, qd)
    ensures Ordered(b') && Handled(b') && Counted(b') && Deletions(b', qd)
  {
  }

  lemma CommitUpsertsOwned(s: State)
    requires Inv(s) && Enabled(s, RecordUpserts)
    ensures Owned(CommitUpserts(s))
  {
    hide Ordered, Handled, Counted, Deletions, Sound, Accounted, PidsStable, Covered, Written;
    var s' := CommitUpserts(s);
    var b := s.job.batch;
    assert b.written + b.upsertQueue == b.written;
    RecordEffect(s.pg, b.written, WritesDesc(b.mode));
    forall p, id | OwnedBy(s, p, id) ensures OwnedBy(s', p, id) {
    }
    forall id | id in s'.pg && s'.pg[id].pid.Some? ensures OwnedBy(s', s'.pg[id].pid.value, id) {
      var found := Find(b.written, id);
      if found.Some? { assert OwnedBy(s, found.value.pid, id); }
    }
  }

  lemma CommitUpsertsAccounted(s: State)
    requires Inv(s) && Enabled(s, RecordUpserts)
    ensures Accounted(CommitUpserts(s))
  {
    hide Ordered, Handled, Counted, Deletions, Sound, Covered, Written;
    var s' := CommitUpserts(s);
    var b := s.job.batch;
    assert b.written + b.upsertQueue == b.written;
    RecordEffect(s.pg, b.written, WritesDesc(b.mode));
    RecordedStays(s);
    forall p | p in s'.qd ensures Recorded(s', p) || p in s'.strays || p in s'.dropped {
      if p in b.minted && !Recorded(s, p) && p !in s.strays && p !in s.dropped {
        MintedIsWritten(s, p);
      }
    }
  }

  // What was recorded still is: a row only ever records its own entry's id.
  lemma RecordedStays(s: State)
    requires Inv(s) && Enabled(s, RecordUpserts)
    ensures forall p :: Recorded(s, p) ==> Recorded(CommitUpserts(s), p)
  {
    hide Ordered, Handled, Counted, Deletions, Sound, Covered, Accounted;
    var s' := CommitUpserts(s);
    var b := s.job.batch;
    assert b.written + b.upsertQueue == b.written;
    RecordEffect(s.pg, b.written, WritesDesc(b.mode));
    forall p | Recorded(s, p) ensures Recorded(s', p) {
      var id := s.owner[p];
      var found := Find(b.written, id);
      if found.Some? {
        assert Matches(b, found.value);
      }
    }
  }

  // Ids minted by the run that reached the collection belong to written entries.
  lemma MintedIsWritten(s: State, p: PointId)
    requires Inv(s) && Enabled(s, RecordUpserts) && p in s.qd && p in s.job.batch.minted
    ensures Recorded(CommitUpserts(s), p) || p in CommitUpserts(s).dropped
  {
    hide Ordered, Handled, Counted, Deletions, Sound, Covered, Accounted, PidsStable, Written;
    var b := s.job.batch;
    assert b.written + b.upsertQueue == b.written;
    var e :| e in b.written + b.upsertQueue[..b.encoded] && e.pid == p;
    assert e in b.written && OwnedBy(s, p, e.id);
    RecordEffect(s.pg, b.written, WritesDesc(b.mode));
    FindFirst(b.written, e);
    if e.id !in s.pg {
      var k :| 0 <= k < |b.written| && b.written[k] == e;
    }
  }

  lemma CommitUpsertsCovered(s: State)
    requires Inv(s) && Enabled(s, RecordUpserts)
    ensures Covered(CommitUpserts(s)) && Written(CommitUpserts(s).job.batch, s.qd)
  {
    hide Ordered, Handled, Counted, Deletions, Sound, Accounted, PidsStable, Owned, Traced;
    var s' := CommitUpserts(s);
    var b, b' := s.job.batch, s'.job.batch;
    assert b.written + b.upsertQueue == b.written;
    RecordEffect(s.pg, b.written, WritesDesc(b.mode));
    forall id | id in s'.pg
      ensures Beyond(s', s'.pg[id].at) ||
        (if id in b'.rows then s'.pg[id] == Expected(b', id) else s'.pg[id].at <= b'.since)
    {
      assert Beyond(s, s.pg[id].at) ==> Beyond(s', s'.pg[id].at);
      var found := Find(b.written, id);
      if found.Some? { assert Matches(b, found.value); }
    }
  }

  lemma CommitUpsertsSound(s: State)
    requires Inv(s) && Enabled(s, RecordUpserts)
    ensures Sound(CommitUpserts(s))
  {
    hide Ordered, Handled, Counted, Deletions, Accounted, PidsStable, Owned, Traced;
    var s' := CommitUpserts(s);
    var b := s.job.batch;
    assert b.written + b.upsertQueue == b.written;
    RecordEffect(s.pg, b.written, WritesDesc(b.mode));
    forall id | id in s'.pg && s'.pg[id].at <= s'.saved ensures RowOk(s'.pg[id], s'.qd) {
      assert RowOk(s.pg[id], s.qd) && !Beyond(s, s.pg[id].at);
      var found := Find(b.written, id);
      if found.Some? {
        assert Matches(b, found.value);
      }
    }
  }

  lemma CommitUpsertsStable(s: State)
    requires Inv(s) && Enabled(s, RecordUpserts)
    ensures PidsStable(CommitUpserts(s))
  {
    hide Ordered, Handled, Counted, Deletions, Accounted, Covered, Traced, Sound, Written;
    var s' := CommitUpserts(s);
    var b := s.job.batch;
    assert b.written + b.upsertQueue == b.written;
    RecordEffect(s.pg, b.written, WritesDesc(b.mode));
    RecordedStays(s);
  }

  lemma CommitDeletesKeeps(s: State)
    requires Inv(s) && Enabled(s, RecordDeletes)
    ensures Inv(CommitDeletes(s))
  {
    hide Handled, Counted, Traced, Ordered;
    var s' := CommitDeletes(s);
    var b, b' := s.job.batch, s'.job.batch;
    assert b.written + b.upsertQueue == b.written == b'.written + b'.upsertQueue;
    assert Entries(b') by {
      forall x | x in b.written ensures Matches(b', x) {
        assert Matches(b, x);
      }
    }
    assert Handled(b') && Counted(b') && Ordered(b') && Traced(b', s.qd) by { DeletesShape(b, b', s.qd); }
    forall p, id | OwnedBy(s, p, id) ensures OwnedBy(s', p, id) {
    }
    CommitDeletesAccounted(s);
    CommitDeletesCovered(s);
    CommitDeletesSound(s);
  }

  lemma DeletesShape(b: Batch, b': Batch, qd: map<PointId, Payload>)
    requires b' == b.(phase := b'.phase) && Handled(b) && Counted(b) && Ordered(b) && Traced(b, qd)
    ensures Handled(b') && Counted(b') && Ordered(b') && Traced(b', qd)
  {
  }

  lemma CommitDeletesAccounted(s: State)
    requires Inv(s) && Enabled(s, RecordDeletes)
    ensures Accounted(CommitDeletes(s)) && PidsStable(CommitDeletes(s))
  {
    hide Ordered, Handled, Counted, Covered, Traced, Sound, Written;
    var s' := CommitDeletes(s);
    var b := s.job.batch;
    assert b.written + b.upsertQueue == b.written;
    RemovedNotWritten(b, s.qd);
    forall id | id in b.removed && id in s.pg && s.pg[id].pid.Some? ensures s.pg[id].pid.value !in s.qd {
      assert s.pg[id].pid == b.rows[id].pid;
    }
    forall p | p in s.qd && Recorded(s, p) ensures Recorded(s', p) {
    }
  }

  lemma RemovedNotWritten(b: Batch, qd: map<PointId, Payload>)
    requires Entries(b) && Deletions(b, qd)
    ensures forall id :: id in b.removed ==> Find(b.written, id).None?
  {
    forall e | e in b.written ensures e.id !in b.removed {
      assert e in b.written + b.upsertQueue;
      assert Matches(b, e);
    }
  }

  lemma CommitDeletesCovered(s: State)
    requires Inv(s) && Enabled(s, RecordDeletes)
    ensures Covered(CommitDeletes(s))
  {
    hide Ordered, Handled, Counted, Accounted, Traced, Sound, Written, PidsStable, Owned;
    var s' := CommitDeletes(s);
    var b, b' := s.job.batch, s'.job.batch;
    RemovedNotWritten(b, s.qd);
    forall id | id in s'.pg
      ensures Beyond(s', s'.pg[id].at) ||
        (if id in b'.rows then s'.pg[id] == Expected(b', id) else s'.pg[id].at <= b'.since)
    {
      assert Beyond(s, s.pg[id].at) ==> Beyond(s', s'.pg[id].at);
    }
  }

  lemma CommitDeletesSound(s: State)
    requires Inv(s) && Enabled(s, RecordDeletes)
    ensures Sound(CommitDeletes(s))
  {
    hide Ordered, Handled, Counted, Accounted, Traced, Written, PidsStable, Owned;
    var s' := CommitDeletes(s);
    var b := s.job.batch;
    RemovedNotWritten(b, s.qd);
    forall id | id in s'.pg && s'.pg[id].at <= s'.saved ensures RowOk(s'.pg[id], s'.qd) {
      assert RowOk(s.pg[id], s.qd) && !Beyond(s, s.pg[id].at);
    }
  }

  // ---------------------------------------------------------------------
  // The end of a run, reconcile, and the environment
  // ---------------------------------------------------------------------

  // Advancing the cursor is safe: all below it was handled and recorded.
  lemma FinishKeeps(s: State)
    requires Inv(s) && Enabled(s, Finish)
    ensures Inv(Apply(s, Finish))
  {
    hide Counted, Accounted, Traced, PidsStable, Owned;
    var s' := Apply(s, Finish);
    var b := s.job.batch;
    assert b.written + b.upsertQueue == b.written;
    forall id | id in s'.pg && s'.pg[id].at <= s'.saved ensures RowOk(s'.pg[id], s'.qd) {
      assert !Beyond(s, s.pg[id].at) by {
        if b.maxAt != b.since {
          var x :| x in b.rows && b.rows[x].at == b.maxAt;
        }
      }
      if id in b.rows {
        var found := Find(b.written, id);
        if found.Some? { assert Matches(b, found.value); }
      } else {
        assert s.pg[id].at <= s.saved;
      }
    }
    assert Owned(s') && Accounted(s') by { IdleOwned(s, s'); }
  }

  lemma IdleOwned(s: State, s': State)
    requires Owned(s) && Accounted(s) && s'.job.Idle?
    requires s' == s.(saved := s'.saved, job := Idle, strays := s'.strays)
    requires s.strays + (if s.job.Syncing? then s.job.batch.minted else {}) <= s'.strays
    ensures Owned(s') && Accounted(s')
  {
    forall p, id | OwnedBy(s, p, id) ensures OwnedBy(s', p, id) {
    }
    forall p | Recorded(s, p) ensures Recorded(s', p) {
    }
  }

  // Stopping anywhere is safe.
  lemma StopKeeps(s: State, e: Event)
    requires Inv(s) && (e.Crash? || e.SweepEnd?) && Enabled(s, e)
    ensures Inv(Apply(s, e))
  {
    hide AtWork, SweepsSafely;
    IdleOwned(s, Apply(s, e));
  }

  lemma SweepKeeps(s: State, e: Event)
    requires Inv(s) && (e.SweepBegin? || e.SweepDelete?) && Enabled(s, e)
    ensures Inv(Apply(s, e))
  {
    var s' := Apply(s, e);
    forall p, id | OwnedBy(s, p, id) ensures OwnedBy(s', p, id) {
    }
    forall p | Recorded(s, p) ensures Recorded(s', p) {
    }
    forall id | id in s'.pg && s'.pg[id].at <= s'.saved ensures RowOk(s'.pg[id], s'.qd) {
      assert RowOk(s.pg[id], s.qd);
    }
  }

  // The environment may edit, insert and delete rows at any moment.
  lemma EditKeeps(s: State, id: Id, row: Row)
    requires Inv(s) && Enabled(s, Edit(id, row))
    ensures Inv(Apply(s, Edit(id, row)))
  {
    hide Entries, Traced, Deletions, Written, Ordered, Handled, Counted;
    var s' := Apply(s, Edit(id, row));
    forall p, x | OwnedBy(s, p, x) ensures OwnedBy(s', p, x) {
    }
    forall p | Recorded(s, p) ensures Recorded(s', p) {
    }
    if s.job.Syncing? {
      assert Beyond(s', row.at);
      EnvironmentCovered(s, s', id);
    }
  }

  lemma EnvironmentCovered(s: State, s': State, id: Id)
    requires s.job.Syncing? && Covered(s) && s' == s.(pg := s'.pg, dropped := s'.dropped)
    requires forall x :: x in s'.pg && x != id ==> x in s.pg && s'.pg[x] == s.pg[x]
    requires id in s'.pg ==> Beyond(s', s'.pg[id].at)
    ensures Covered(s')
  {
    var b := s.job.batch;
    forall x | x in s'.pg
      ensures Beyond(s', s'.pg[x].at) || (if x in b.rows then s'.pg[x] == Expected(b, x) else s'.pg[x].at <= b.since)
    {
      if x != id {
        assert Beyond(s, s.pg[x].at) ==> Beyond(s', s'.pg[x].at);
      }
    }
  }

  lemma RemoveKeeps(s: State, id: Id)
    requires Inv(s) && Enabled(s, Remove(id))
    ensures Inv(Apply(s, Remove(id)))
  {
    hide Entries, Traced, Deletions, Written, Ordered, Handled, Counted;
    var s' := Apply(s, Remove(id));
    forall p, x | OwnedBy(s, p, x) ensures OwnedBy(s', p, x) {
    }
    forall p | Recorded(s, p) ensures Recorded(s', p) || p in s'.dropped {
    }
    if s.job.Syncing? {
      EnvironmentCovered(s, s', id);
    }
  }

  // ---------------------------------------------------------------------
  // Every step, every history
  // ---------------------------------------------------------------------

  lemma StepKeeps(s: State, e: Event)
    requires Inv(s) && Enabled(s, e)
    ensures Inv(Apply(s, e))
  {
    hide Inv, Apply, Enabled;
    match e
    case Begin(full, mode, order) => BeginKeeps(s, full, mode, order);
    case Take(generated, mint) => TakeKeeps(s, generated, mint);
    case Encode(k) => EncodeKeeps(s, k);
    case EncodeFails(k) => EncodeFailsKeeps(s, k);
    case UpsertTried(applied) => UpsertTriedKeeps(s, applied);
    case Upsert => UpsertKeeps(s);
    case DeleteTried(applied) => DeleteTriedKeeps(s, applied);
    case Delete => DeleteKeeps(s);
    case DeleteGivenUp => DeleteGivenUpKeeps(s);
    case RecordUpsertsTried(committed) => RecordKeeps(s, e);
    case RecordUpserts => RecordKeeps(s, e);
    case RecordDeletesTried(committed) => RecordKeeps(s, e);
    case RecordDeletes => RecordKeeps(s, e);
    case Finish => FinishKeeps(s);
    case Crash => StopKeeps(s, e);
    case SweepBegin => SweepKeeps(s, e);
    case SweepDelete(_) => SweepKeeps(s, e);
    case SweepEnd => StopKeeps(s, e);
    case Edit(id, row) => EditKeeps(s, id, row);
    case Remove(id) => RemoveKeeps(s, id);
  }

  lemma RecordKeeps(s: State, e: Event)
    requires Inv(s) && Enabled(s, e)
    requires e.RecordUpsertsTried? || e.RecordUpserts? || e.RecordDeletesTried? || e.RecordDeletes?
    ensures Inv(Apply(s, e))
  {
    hide Inv, CommitUpserts, CommitDeletes;
    if e.RecordUpsertsTried? || e.RecordUpserts? {
      CommitUpsertsKeeps(s);
    } else {
      CommitDeletesKeeps(s);
    }
  }

  // Whatever the batch, reconcile, crashes and edits did so far.
  lemma {:induction false} HistoryKeeps(s: State, es: seq<Event>)
    requires Inv(s) && Legal(s, es)
    ensures Inv(Replay(s, es))
    decreases |es|
  {
    hide Inv, Apply, Enabled;
    if es != [] {
      StepKeeps(s, es[0]);
      HistoryKeeps(Apply(s, es[0]), es[1..]);
    }
  }
}
