// The guarantees of the batch over whole histories of runs, crashes, retries,
// reconciles and edits.
module SyncTheorems {
  import opened Options
  import opened SyncModel
  import opened SyncInvariant
  import opened SyncFresh

  // ---------------------------------------------------------------------
  // Cursor soundness and ownership
  // ---------------------------------------------------------------------

  // After any history, every described active row up to the saved cursor has its
  // recorded point in the collection with its own text; so has, wherever the cursor is,
  // every row whose present version was embedded and recorded, with its statement and
  // its description if it has one. Every inactive row up to the cursor records no point;
  // points once generated for that row are leftovers of runs that ended before recording
  // them, or of a deleted row.
  lemma CursorSoundness(s0: State, es: seq<Event>)
    requires Init(s0) && Legal(s0, es)
    ensures
      var s := Replay(s0, es);
      && (forall id :: id in s.pg && s.pg[id].at <= s.saved && s.pg[id].active && s.pg[id].desc != "" ==>
            && s.pg[id].pid.Some? && s.pg[id].pid.value in s.qd
            && s.qd[s.pg[id].pid.value] == Payload(s.pg[id].sql, s.pg[id].desc))
      && (forall id :: id in FreshAfter(s0, es, {}) ==> id in s.pg && Shown(s.pg[id], s.qd))
      && (forall id :: id in s.pg && s.pg[id].at <= s.saved && !s.pg[id].active ==> s.pg[id].pid.None?)
      && (forall p :: p in s.qd && p in s.owner && s.owner[p] in s.pg
                      && !s.pg[s.owner[p]].active && s.pg[s.owner[p]].at <= s.saved ==>
            p in s.strays || p in s.dropped || (s.job.Syncing? && p in s.job.batch.minted))
  {
    hide Legal, Replay, FreshAfter;
    InitInv(s0);
    HistoryKeeps(s0, es);
    FreshAreShown(s0, es);
    var s := Replay(s0, es);
    forall id | id in s.pg && s.pg[id].at <= s.saved ensures RowOk(s.pg[id], s.qd) {
    }
  }

  // No two rows ever record the same point, and a point recorded by no row comes
  // from a run that ended before recording it, from a hard-deleted row, or from
  // the run at work.
  lemma PointOwnership(s0: State, es: seq<Event>)
    requires Init(s0) && Legal(s0, es)
    ensures
      var s := Replay(s0, es);
      && (forall a, b :: a in s.pg && b in s.pg && s.pg[a].pid.Some? && s.pg[a].pid == s.pg[b].pid ==> a == b)
      && (forall p :: p in s.qd && (forall id :: id in s.pg ==> s.pg[id].pid != Some(p)) ==>
            p in s.strays || p in s.dropped || (s.job.Syncing? && p in s.job.batch.minted))
  {
    hide Legal, Replay;
    InitInv(s0);
    HistoryKeeps(s0, es);
    var s := Replay(s0, es);
    forall a, b | a in s.pg && b in s.pg && s.pg[a].pid.Some? && s.pg[a].pid == s.pg[b].pid ensures a == b {
      assert OwnedBy(s, s.pg[a].pid.value, a) && OwnedBy(s, s.pg[b].pid.value, b);
    }
  }

  // Throughout every run, each fetched row is in exactly one account.
  lemma Conservation(s0: State, es: seq<Event>)
    requires Init(s0) && Legal(s0, es) && Replay(s0, es).job.Syncing?
    ensures
      var b := Replay(s0, es).job.batch;
      b.fetched == b.upserted + b.failed + b.skipped + b.deleted + b.noops + |b.upsertQueue| + |b.deleteQueue|
  {
    hide Legal, Replay;
    InitInv(s0);
    HistoryKeeps(s0, es);
  }

  // ---------------------------------------------------------------------
  // Reconcile
  // ---------------------------------------------------------------------

  function Reconciled(pg: map<Id, Row>, qd: map<PointId, Payload>): map<PointId, Payload> {
    map p | p in qd && p in ActiveIds(pg) :: qd[p]
  }

  // Some active row records the point.
  predicate InUse(pg: map<Id, Row>, p: PointId) {
    exists id :: id in pg && pg[id].active && pg[id].pid == Some(p)
  }

  lemma ActiveAreInUse(pg: map<Id, Row>)
    ensures forall p :: p in ActiveIds(pg) <==> InUse(pg, p)
  {
    forall p ensures p in ActiveIds(pg) <==> InUse(pg, p) {
      if p in ActiveIds(pg) {
        var id :| id in pg && pg[id].active && pg[id].pid.Some? && pg[id].pid.value == p;
        assert pg[id].pid == Some(p);
      }
      if id :| id in pg && pg[id].active && pg[id].pid == Some(p) {
        assert pg[id].pid.value in ActiveIds(pg);
      }
    }
  }

  function Union(chunks: seq<set<PointId>>): set<PointId> {
    if chunks == [] then {} else chunks[0] + Union(chunks[1..])
  }

  function Deletes(chunks: seq<set<PointId>>): seq<Event> {
    if chunks == [] then [] else [SweepDelete(chunks[0])] + Deletes(chunks[1..])
  }

  lemma {:induction false} DeletesRemove(s: State, chunks: seq<set<PointId>>)
    requires s.job.Sweeping? && Legal(s, Deletes(chunks))
    ensures Replay(s, Deletes(chunks)) == s.(qd := s.qd - Union(chunks))
    ensures Union(chunks) <= s.job.orphans
    decreases |chunks|
  {
    if chunks == [] {
      assert s.qd - {} == s.qd;
    } else {
      var es := Deletes(chunks);
      assert es[0] == SweepDelete(chunks[0]) && es[1..] == Deletes(chunks[1..]);
      var s1 := Apply(s, es[0]);
      DeletesRemove(s1, chunks[1..]);
      assert s1.qd - Union(chunks[1..]) == s.qd - Union(chunks);
    }
  }

  // A reconcile, complete or cut short, only ever deletes points that no active
  // row records; a complete one leaves exactly the recorded ones.
  lemma ReconcileRestricts(s: State, chunks: seq<set<PointId>>)
    requires s.job.Idle? && Legal(s, [SweepBegin] + Deletes(chunks))
    ensures
      var s' := Replay(s, [SweepBegin] + Deletes(chunks));
      && s'.pg == s.pg && s'.job.Sweeping?
      && (forall p :: p in s.qd && InUse(s.pg, p) ==> p in s'.qd && s'.qd[p] == s.qd[p])
      && (s'.job.orphans <= Union(chunks) ==>
            && s'.qd == Reconciled(s.pg, s.qd)
            && forall p :: p in s'.qd <==> p in s.qd && InUse(s.pg, p))
  {
    ActiveAreInUse(s.pg);
    var es := [SweepBegin] + Deletes(chunks);
    assert es[0] == SweepBegin && es[1..] == Deletes(chunks);
    var s1 := Apply(s, SweepBegin);
    DeletesRemove(s1, chunks);
  }

  lemma ReconciledKeys(pg: map<Id, Row>, qd: map<PointId, Payload>)
    ensures Reconciled(pg, qd).Keys == qd.Keys * ActiveIds(pg)
  {
  }

  // A whole pass: the listing, the deletions, the end.
  function Sweep(chunks: seq<set<PointId>>): seq<Event> {
    [SweepBegin] + Deletes(chunks) + [SweepEnd]
  }

  lemma WholeSweep(s: State, chunks: seq<set<PointId>>)
    requires s.job.Idle? && Legal(s, Sweep(chunks))
    ensures Replay(s, Sweep(chunks)) == s.(qd := s.qd - Union(chunks))
    ensures Union(chunks) <= s.qd.Keys - ActiveIds(s.pg)
  {
    hide Legal, Replay;
    var listed := [SweepBegin] + Deletes(chunks);
    LegalSplit(s, listed, [SweepEnd]);
    LegalSplit(s, [SweepBegin], Deletes(chunks));
    OneStep(s, SweepBegin);
    var s1 := Apply(s, SweepBegin);
    DeletesRemove(s1, chunks);
    var s2 := Replay(s, listed);
    OneStep(s2, SweepEnd);
  }

  // After a complete pass a second one, complete or not, finds nothing to delete and
  // changes nothing at all.
  lemma ReconcileIdempotent(s: State, first: seq<set<PointId>>, second: seq<set<PointId>>)
    requires s.job.Idle? && Legal(s, Sweep(first)) && s.qd.Keys - ActiveIds(s.pg) <= Union(first)
    requires Legal(Replay(s, Sweep(first)), Sweep(second))
    ensures Replay(s, Sweep(first)) == s.(qd := Reconciled(s.pg, s.qd))
    ensures Replay(Replay(s, Sweep(first)), Sweep(second)) == Replay(s, Sweep(first))
    ensures Union(second) == {}
  {
    hide Legal, Replay, Sweep, Union, ActiveIds;
    WholeSweep(s, first);
    var s1 := Replay(s, Sweep(first));
    assert s1.qd == Reconciled(s.pg, s.qd);
    WholeSweep(s1, second);
    ReconciledKeys(s.pg, s.qd);
    assert s1.qd.Keys - ActiveIds(s1.pg) == {};
    assert s1.qd - {} == s1.qd;
  }

  // ---------------------------------------------------------------------
  // Descriptions edited during a run
  // ---------------------------------------------------------------------

  // Recording puts back the description an entry was embedded with: a description edited
  // after the fetch is lost exactly if the run writes descriptions, the row is recorded
  // and the two differ; if the row had a description when it was fetched, that one is back.
  lemma EditedDescriptionLost(s: State, id: Id)
    requires Inv(s) && Enabled(s, RecordUpserts) && id in s.pg && id in s.job.batch.rows
    requires s.pg[id].at > s.job.batch.rows[id].at
    ensures
      var b, pg' := s.job.batch, Apply(s, RecordUpserts).pg;
      && id in pg' && pg'[id].at == s.pg[id].at && pg'[id].sql == s.pg[id].sql
      && (pg'[id].desc != s.pg[id].desc <==>
            b.mode == Generate(true) && exists e :: e in b.written && e.id == id && e.desc != s.pg[id].desc)
      && (b.mode == Generate(true) && Find(b.written, id).Some? && b.rows[id].desc != "" ==>
            pg'[id].desc == b.rows[id].desc)
  {
    hide Owned, Accounted, Sound, Traced, Deletions, Written, Ordered, Handled, Counted, Covered, PidsStable;
    var b := s.job.batch;
    assert b.written + b.upsertQueue == b.written;
    RecordEffect(s.pg, b.written, WritesDesc(b.mode));
    var found := Find(b.written, id);
    if found.Some? {
      assert Matches(b, found.value);
    }
    forall e | e in b.written && e.id == id ensures found == Some(e) {
      FindFirst(b.written, e);
    }
  }

  // A run that writes descriptions, and an edit between the upsert and the write-back.
  const UNDESCRIBED := Row("q", "", true, 1, None)
  const EDITED := Row("q", "mine", true, 2, None)
  const BEFORE := State(map[1 := UNDESCRIBED], map[], EPOCH, Idle, map[], {}, {})
  const OVERTAKEN: seq<Event> := [
    Begin(true, Generate(true), [1]), Take(Some("d"), 7), Encode(1), Upsert, Edit(1, EDITED), RecordUpserts]

  lemma OneEvent(s: State, es: seq<Event>, s': State)
    requires es != [] && Enabled(s, es[0]) && Apply(s, es[0]) == s' && Legal(s', es[1..])
    ensures Legal(s, es) && Replay(s, es) == Replay(s', es[1..])
  {
  }

  lemma OneTaken(b: Batch)
    requires b.todo == [1] && b.rows == map[1 := UNDESCRIBED] && b.mode.Generate? && b.upsertQueue == []
    ensures Mints(b, Some("d"))
    ensures TakeRow(b, Some("d"), 7) == b.(todo := [], fetched := b.fetched + 1, maxAt := 1,
        upsertQueue := [Entry(1, 7, "q", "q | d")], minted := b.minted + {7})
  {
    assert "q" + " | " + "d" == "q | d";
  }

  lemma OneRecorded(pg: map<Id, Row>, e: Entry)
    requires e.id in pg
    ensures RecordEntries(pg, [e], true) == pg[e.id := pg[e.id].(pid := Some(e.pid), desc := e.desc)]
  {
    assert [e][1..] == [];
  }

  lemma DescriptionOverwritten()
    ensures Init(BEFORE) && Legal(BEFORE, OVERTAKEN)
    ensures Replay(BEFORE, OVERTAKEN).pg == map[1 := EDITED.(pid := Some(7), desc := "q | d")]
  {
    hide Legal, Replay, Put, RecordEntries, Enabled, Apply;
    var es, entry := OVERTAKEN, Entry(1, 7, "q", "q | d");
    var s1, s2, s3 := UntilEncoded();
    var s4, s5 := UntilEdited(s3);
    OneRecorded(s5.pg, entry);
    assert Enabled(s5, es[5]) && Apply(s5, es[5]).pg == RecordEntries(s5.pg, [entry], true) by { Recording(s5); }
    SixEvents(BEFORE, es, s1, s2, s3, s4, s5);
  }

  lemma UntilEncoded() returns (s1: State, s2: State, s3: State)
    ensures Enabled(BEFORE, OVERTAKEN[0]) && s1 == Apply(BEFORE, OVERTAKEN[0])
    ensures Enabled(s1, OVERTAKEN[1]) && s2 == Apply(s1, OVERTAKEN[1])
    ensures Enabled(s2, OVERTAKEN[2]) && s3 == Apply(s2, OVERTAKEN[2])
    ensures s3.pg == map[1 := UNDESCRIBED] && s3.saved == EPOCH && Upserts(s3) && s3.job.batch.encoded == 1
    ensures
      var b := s3.job.batch;
      && b.upsertQueue == [Entry(1, 7, "q", "q | d")] && b.rows == map[1 := UNDESCRIBED] && b.since == EPOCH
      && b.mode == Generate(true) && b.todo == [] && b.written == [] && b.deleteQueue == []
  {
    hide TakeRow, Mints;
    s1 := AfterBegin();
    OneTaken(s1.job.batch);
    s2 := Apply(s1, OVERTAKEN[1]);
    s3 := Apply(s2, OVERTAKEN[2]);
  }

  lemma UntilEdited(s3: State) returns (s4: State, s5: State)
    requires s3.pg == map[1 := UNDESCRIBED] && s3.saved == EPOCH && Upserts(s3) && s3.job.batch.encoded == 1
    requires
      var b := s3.job.batch;
      && b.upsertQueue == [Entry(1, 7, "q", "q | d")] && b.rows == map[1 := UNDESCRIBED] && b.since == EPOCH
      && b.mode == Generate(true) && b.todo == [] && b.written == [] && b.deleteQueue == []
    ensures Enabled(s3, OVERTAKEN[3]) && s4 == Apply(s3, OVERTAKEN[3])
    ensures Enabled(s4, OVERTAKEN[4]) && s5 == Apply(s4, OVERTAKEN[4])
    ensures s5.pg == map[1 := EDITED] && Streams(s5) && Drained(s5.job.batch)
    ensures s5.job.batch.written == [Entry(1, 7, "q", "q | d")] && s5.job.batch.mode == Generate(true)
  {
    hide Put, EntryPoints;
    var entry := Entry(1, 7, "q", "q | d");
    assert s3.job.batch.upsertQueue[..1] == [entry] && s3.job.batch.upsertQueue[1..] == [];
    s4 := Apply(s3, OVERTAKEN[3]);
    assert s4.job.batch.written == [entry] && s4.pg == map[1 := UNDESCRIBED];
    assert Beyond(s4, EDITED.at);
    s5 := Apply(s4, OVERTAKEN[4]);
    assert map[1 := UNDESCRIBED][1 := EDITED] == map[1 := EDITED];
  }

  lemma Recording(s: State)
    requires Streams(s) && Drained(s.job.batch)
    ensures Enabled(s, RecordUpserts)
    ensures Apply(s, RecordUpserts).pg == RecordEntries(s.pg, s.job.batch.written, WritesDesc(s.job.batch.mode))
  {
    hide RecordEntries;
  }

  lemma AfterBegin() returns (s1: State)
    ensures Enabled(BEFORE, OVERTAKEN[0]) && s1 == Apply(BEFORE, OVERTAKEN[0])
    ensures s1 == BEFORE.(job := Syncing(Start(BEFORE.pg, EPOCH, Generate(true), [1])))
    ensures s1.job.batch.rows == map[1 := UNDESCRIBED]
  {
    var rows := Fetched(BEFORE.pg, EPOCH);
    assert rows == map[1 := UNDESCRIBED] && InOrder(rows, [1]) by { assert [1][0] == 1; }
    s1 := Apply(BEFORE, OVERTAKEN[0]);
  }

  lemma SixEvents(s: State, es: seq<Event>, s1: State, s2: State, s3: State, s4: State, s5: State)
    requires |es| == 6
    requires Enabled(s, es[0]) && s1 == Apply(s, es[0]) && Enabled(s1, es[1]) && s2 == Apply(s1, es[1])
    requires Enabled(s2, es[2]) && s3 == Apply(s2, es[2]) && Enabled(s3, es[3]) && s4 == Apply(s3, es[3])
    requires Enabled(s4, es[4]) && s5 == Apply(s4, es[4]) && Enabled(s5, es[5])
    ensures Legal(s, es) && Replay(s, es) == Apply(s5, es[5])
  {
    hide Enabled, Apply, Legal, Replay;
    assert es[1..][1..] == es[2..] && es[2..][1..] == es[3..] && es[3..][1..] == es[4..] && es[4..][1..] == es[5..];
    assert es[5..][1..] == [];
    NoEvents(Apply(s5, es[5]));
    OneEvent(s5, es[5..], Apply(s5, es[5]));
    OneEvent(s4, es[4..], s5);
    OneEvent(s3, es[3..], s4);
    OneEvent(s2, es[2..], s3);
    OneEvent(s1, es[1..], s2);
    OneEvent(s, es, s1);
  }

  lemma NoEvents(s: State)
    ensures Legal(s, []) && Replay(s, []) == s
  {
  }

  // ---------------------------------------------------------------------
  // Convergence
  // ---------------------------------------------------------------------

  // What a batch does between its begin and its end when nothing interferes.
  predicate IsWork(e: Event) {
    !e.Begin? && !e.Finish? && !e.Crash? && !e.SweepBegin? && !e.SweepDelete? && !e.SweepEnd? && !e.Edit? && !e.Remove?
  }

  predicate AllWork(es: seq<Event>) {
    forall k :: 0 <= k < |es| ==> IsWork(es[k])
  }

  // A full run that nobody disturbs sees the whole table.
  ghost predicate Quiet(s: State) {
    && s.job.Syncing? && s.job.batch.since == EPOCH
    && s.pg.Keys == s.job.batch.rows.Keys
    && forall id :: id in s.pg ==> s.pg[id].at == s.job.batch.rows[id].at
  }

  lemma WorkKeepsQuiet(s: State, e: Event)
    requires Inv(s) && Quiet(s) && IsWork(e) && Enabled(s, e)
    ensures Quiet(Apply(s, e))
  {
    hide Accounted, Sound, Owned, Traced, Deletions, Written, Ordered, Handled, Counted, Covered, PidsStable;
    if e.RecordUpserts? || e.RecordUpsertsTried? {
      var b := s.job.batch;
      assert b.written + b.upsertQueue == b.written;
      RecordEffect(s.pg, b.written, WritesDesc(b.mode));
    }
  }

  lemma {:induction false} WorkStaysQuiet(s: State, es: seq<Event>)
    requires Inv(s) && Quiet(s) && AllWork(es) && Legal(s, es)
    ensures Quiet(Replay(s, es)) && Inv(Replay(s, es))
    decreases |es|
  {
    hide Inv, Quiet, Apply, Enabled;
    if es != [] {
      assert IsWork(es[0]);
      WorkKeepsQuiet(s, es[0]);
      StepKeeps(s, es[0]);
      forall k | 0 <= k < |es[1..]| ensures IsWork(es[1..][k]) {
        assert es[1..][k] == es[k + 1];
      }
      WorkStaysQuiet(Apply(s, es[0]), es[1..]);
    }
  }

  // An undisturbed full run that succeeds leaves no row above the cursor.
  lemma FullRunCoversAll(s: State, mode: Mode, order: seq<Id>, work: seq<Event>)
    requires Inv(s) && AllWork(work)
    requires Legal(s, [Begin(true, mode, order)] + work + [Finish])
    ensures
      var s' := Replay(s, [Begin(true, mode, order)] + work + [Finish]);
      Inv(s') && s'.job.Idle? && forall id :: id in s'.pg ==> s'.pg[id].at <= s'.saved
  {
    hide Inv, Legal, Replay;
    var begin := Begin(true, mode, order);
    LegalSplit(s, [begin], work + [Finish]);
    assert [begin] + work + [Finish] == [begin] + (work + [Finish]);
    OneStep(s, begin);
    StepKeeps(s, begin);
    var s1 := Apply(s, begin);
    FullStartQuiet(s, mode, order);
    LegalSplit(s1, work, [Finish]);
    WorkStaysQuiet(s1, work);
    var s2 := Replay(s1, work);
    OneStep(s2, Finish);
    StepKeeps(s2, Finish);
    FinishCovers(s2);
  }

  lemma FullStartQuiet(s: State, mode: Mode, order: seq<Id>)
    requires Inv(s) && Enabled(s, Begin(true, mode, order))
    ensures Quiet(Apply(s, Begin(true, mode, order)))
  {
    hide Owned, Accounted, Sound, AtWork, SweepsSafely, InOrder;
    var s' := Apply(s, Begin(true, mode, order));
    assert s'.job.batch.rows == Fetched(s.pg, EPOCH);
    var fetched := Fetched(s.pg, EPOCH);
    forall id | id in s.pg ensures id in fetched && fetched[id] == s.pg[id] {
      assert s.pg[id].at > EPOCH;
    }
    assert fetched.Keys == s.pg.Keys;
  }

  lemma FinishCovers(s: State)
    requires Inv(s) && Quiet(s) && Enabled(s, Finish)
    ensures forall id :: id in s.pg ==> s.pg[id].at <= s.job.batch.maxAt
  {
    hide Accounted, Sound, Owned, Traced, Deletions, Written, Handled, Counted, Covered, PidsStable;
  }

  lemma OneStep(s: State, e: Event)
    requires Legal(s, [e])
    ensures Enabled(s, e) && Replay(s, [e]) == Apply(s, e)
  {
    hide Apply, Enabled;
    assert [e][1..] == [];
    assert Replay(Apply(s, e), []) == Apply(s, e);
  }

  lemma {:induction false} LegalSplit(s: State, a: seq<Event>, b: seq<Event>)
    requires Legal(s, a + b)
    ensures Legal(s, a) && Legal(Replay(s, a), b) && Replay(s, a + b) == Replay(Replay(s, a), b)
    decreases |a|
  {
    hide Apply, Enabled;
    if a == [] {
      assert a + b == b;
    } else {
      assert (a + b)[1..] == a[1..] + b;
      LegalSplit(Apply(s, a[0]), a[1..], b);
    }
  }

  // From whatever crashes left behind, one undisturbed successful full run and a
  // complete reconcile make the collection exactly the points of the active rows,
  // one each, with their text - if every active row has a description by then.
  lemma Convergence(s: State, mode: Mode, order: seq<Id>, work: seq<Event>, chunks: seq<set<PointId>>)
    requires Inv(s) && AllWork(work)
    requires Legal(s, [Begin(true, mode, order)] + work + [Finish])
    requires Legal(Replay(s, [Begin(true, mode, order)] + work + [Finish]), [SweepBegin] + Deletes(chunks))
    requires
      var s1 := Replay(s, [Begin(true, mode, order)] + work + [Finish]);
      var s2 := Replay(s1, [SweepBegin] + Deletes(chunks));
      && (s2.job.Sweeping? ==> s2.job.orphans <= Union(chunks))
      && (forall id :: id in s1.pg && s1.pg[id].active ==> s1.pg[id].desc != "")
    ensures
      var s1 := Replay(s, [Begin(true, mode, order)] + work + [Finish]);
      var s2 := Replay(s1, [SweepBegin] + Deletes(chunks));
      && (forall p :: p in s2.qd <==> InUse(s2.pg, p))
      && (forall id :: id in s2.pg && s2.pg[id].active ==>
            && s2.pg[id].pid.Some? && s2.pg[id].pid.value in s2.qd
            && s2.qd[s2.pg[id].pid.value] == Payload(s2.pg[id].sql, s2.pg[id].desc))
      && (forall a, b :: a in s2.pg && b in s2.pg && s2.pg[a].pid.Some? && s2.pg[a].pid == s2.pg[b].pid ==> a == b)
      && (forall id :: id in s2.pg && !s2.pg[id].active ==> s2.pg[id].pid.None?)
  {
    hide Legal, Replay, AtWork, SweepsSafely;
    FullRunCoversAll(s, mode, order, work);
    var s1 := Replay(s, [Begin(true, mode, order)] + work + [Finish]);
    var s2 := Replay(s1, [SweepBegin] + Deletes(chunks));
    ReconcileRestricts(s1, chunks);
    forall id | id in s1.pg ensures RowOk(s1.pg[id], s1.qd) {
    }
    forall a, b | a in s1.pg && b in s1.pg && s1.pg[a].pid.Some? && s1.pg[a].pid == s1.pg[b].pid ensures a == b {
      assert OwnedBy(s1, s1.pg[a].pid.value, a) && OwnedBy(s1, s1.pg[b].pid.value, b);
    }
    assert s2 == Replay(s1, [SweepBegin] + Deletes(chunks)) && s2.pg == s1.pg;
    forall p | InUse(s1.pg, p) ensures p in s1.qd {
    }
  }
}
