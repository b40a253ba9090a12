// The rows whose present version was embedded and recorded, whether or not the table
// shows a description for them.
module SyncFresh {
  import opened Options
  import opened SyncModel
  import opened SyncInvariant

  // ---------------------------------------------------------------------
  // A history variable
  // ---------------------------------------------------------------------

  // The ids of the written entries whose row was not edited since it was fetched.
  function Refreshed(s: State): set<Id>
    requires s.job.Syncing?
  {
    var b := s.job.batch;
    set k | 0 <= k < |b.written| && b.written[k].id in b.rows && b.written[k].id in s.pg
            && s.pg[b.written[k].id].at == b.rows[b.written[k].id].at :: b.written[k].id
  }

  predicate Records(e: Event) {
    e.RecordUpserts? || (e.RecordUpsertsTried? && e.committed)
  }

  // Recording makes the unedited rows it records fresh; editing or deleting a row ends it.
  function FreshNext(s: State, e: Event, current: set<Id>): set<Id>
    requires Enabled(s, e)
  {
    if Records(e) then current + Refreshed(s)
    else if e.Edit? || e.Remove? then current - {e.id}
    else current
  }

  function FreshAfter(s: State, es: seq<Event>, current: set<Id>): set<Id>
    requires Legal(s, es)
    decreases |es|
  {
    if es == [] then current else FreshAfter(Apply(s, es[0]), es[1..], FreshNext(s, es[0], current))
  }

  // ---------------------------------------------------------------------
  // What is known of fresh rows
  // ---------------------------------------------------------------------

  // The recorded point shows the row: its statement, and its description when it has one.
  ghost predicate Shown(row: Row, qd: map<PointId, Payload>) {
    && row.active && row.pid.Some? && row.pid.value in qd
    && qd[row.pid.value].sql == row.sql
    && (row.desc != "" ==> qd[row.pid.value].desc == row.desc)
  }

  ghost predicate FreshShown(s: State, current: set<Id>) {
    forall id :: id in current ==> id in s.pg && Shown(s.pg[id], s.qd)
  }

  // A fresh row of the batch at work is as it was fetched; once recorded, every unedited
  // written row is fresh.
  ghost predicate FreshInBatch(s: State, current: set<Id>)
    requires s.job.Syncing?
  {
    var b := s.job.batch;
    && (forall id :: id in current && id in b.rows && id in s.pg ==> s.pg[id].at == b.rows[id].at)
    && (!b.phase.Streaming? ==> Refreshed(s) <= current)
  }

  ghost predicate FreshKept(s: State, current: set<Id>)
    requires s.job.Sweeping?
  {
    s.job.keep !! s.job.orphans
    && forall id :: id in current && id in s.pg && s.pg[id].pid.Some? ==> s.pg[id].pid.value in s.job.keep
  }

  ghost predicate FreshInv(s: State, current: set<Id>) {
    && FreshShown(s, current)
    && (s.job.Syncing? ==> FreshInBatch(s, current))
    && (s.job.Sweeping? ==> FreshKept(s, current))
  }

  // A row of the batch that was not edited shows what the batch expects.
  lemma Unedited(s: State, id: Id)
    requires s.job.Syncing? && Covered(s) && id in s.pg && id in s.job.batch.rows
    requires s.pg[id].at == s.job.batch.rows[id].at
    ensures s.pg[id] == Expected(s.job.batch, id)
  {
    assert !Beyond(s, s.pg[id].at);
  }

  lemma RefreshedAre(s: State, id: Id)
    requires s.job.Syncing?
    ensures id in Refreshed(s) <==>
      Find(s.job.batch.written, id).Some? && id in s.job.batch.rows && id in s.pg &&
        s.pg[id].at == s.job.batch.rows[id].at
  {
    var b := s.job.batch;
    var found := Find(b.written, id);
    if found.Some? {
      var k :| 0 <= k < |b.written| && b.written[k] == found.value;
    }
    if id in Refreshed(s) {
      var k :| 0 <= k < |b.written| && b.written[k].id == id;
      assert b.written[k] in b.written;
    }
  }

  // ---------------------------------------------------------------------
  // The steps
  // ---------------------------------------------------------------------

  lemma RecordFresh(s: State, current: set<Id>)
    requires Inv(s) && FreshInv(s, current) && Enabled(s, RecordUpserts)
    ensures FreshInv(CommitUpserts(s), current + Refreshed(s))
  {
    hide Ordered, Handled, Counted, Deletions, Sound, Accounted, Owned, PidsStable, Covered, Traced, Find,
      Refreshed;
    var s' := CommitUpserts(s);
    var b := s.job.batch;
    assert b.written + b.upsertQueue == b.written;
    RecordEffect(s.pg, b.written, WritesDesc(b.mode));
    forall id | id in current + Refreshed(s) ensures id in s'.pg && Shown(s'.pg[id], s'.qd) {
      RefreshedAre(s, id);
      RecordShown(s, id, current);
    }
    forall id | id in Refreshed(s') ensures id in Refreshed(s) {
      RefreshedAre(s, id);
      RefreshedAre(s', id);
    }
    forall id | id in Refreshed(s) ensures id in s'.pg && id in b.rows && s'.pg[id].at == b.rows[id].at {
      RefreshedAre(s, id);
    }
  }

  lemma RecordShown(s: State, id: Id, current: set<Id>)
    requires Inv(s) && FreshInv(s, current) && Enabled(s, RecordUpserts) && id in s.pg
    requires id in current ||
      (Find(s.job.batch.written, id).Some? && id in s.job.batch.rows && s.pg[id].at == s.job.batch.rows[id].at)
    ensures CommitUpserts(s).pg.Keys == s.pg.Keys && Shown(CommitUpserts(s).pg[id], s.qd)
  {
    hide Ordered, Handled, Counted, Deletions, Sound, Accounted, Owned, PidsStable, Covered, Traced, Refreshed;
    var b := s.job.batch;
    assert b.written + b.upsertQueue == b.written;
    RecordEffect(s.pg, b.written, WritesDesc(b.mode));
    var found := Find(b.written, id);
    if found.Some? {
      assert found.value in b.written + b.upsertQueue && Matches(b, found.value);
      Unedited(s, id);
    }
  }

  lemma DeletesFresh(s: State, current: set<Id>)
    requires Inv(s) && FreshInv(s, current) && Enabled(s, RecordDeletes)
    ensures FreshInv(CommitDeletes(s), current)
  {
    hide Ordered, Handled, Counted, Sound, Accounted, Owned, PidsStable, Covered, Traced, Written, Entries,
      Refreshed;
    var s' := CommitDeletes(s);
    var b := s.job.batch;
    forall id | id in current ensures s'.pg[id] == s.pg[id] {
      if id in b.removed {
        Unedited(s, id);
      }
    }
    forall id | id in Refreshed(s') ensures id in Refreshed(s) {
      RefreshedAre(s, id);
      RefreshedAre(s', id);
    }
  }

  // Points written belong to entries that show the fresh row they are of.
  lemma UpsertFresh(s: State, applied: set<PointId>, current: set<Id>)
    requires Inv(s) && FreshInv(s, current) && Enabled(s, UpsertTried(applied))
    ensures FreshShown(Apply(s, UpsertTried(applied)), current)
  {
    hide Ordered, Handled, Counted, Deletions, Sound, Accounted, PidsStable, Covered, Traced, Written, Refreshed,
      Put, Owned;
    var b := s.job.batch;
    var es := b.upsertQueue[..b.encoded];
    PrefixDistinct(b.written, b.upsertQueue, b.encoded);
    QueueOwned(s);
    DistinctPids(s, es);
    PutEffect(s.qd, es, applied);
    AppliedEntries(es, applied);
    forall id | id in current ensures Shown(s.pg[id], Apply(s, UpsertTried(applied)).qd) {
      assert Shown(s.pg[id], s.qd);
      var p := s.pg[id].pid.value;
      if p in applied {
        var e :| e in es && e.pid == p;
        RecordedOwned(s, id);
        assert OwnedBy(s, e.pid, e.id);
        assert e in b.written + b.upsertQueue && Matches(b, e);
        Unedited(s, id);
      }
    }
  }

  lemma QueueOwned(s: State)
    requires Owned(s) && s.job.Syncing? && s.job.batch.encoded <= |s.job.batch.upsertQueue|
    ensures forall e :: e in s.job.batch.upsertQueue[..s.job.batch.encoded] ==> OwnedBy(s, e.pid, e.id)
  {
    var b := s.job.batch;
    forall e | e in b.upsertQueue[..b.encoded] ensures OwnedBy(s, e.pid, e.id) {
      assert e in b.written + b.upsertQueue;
    }
  }

  lemma RecordedOwned(s: State, id: Id)
    requires Owned(s) && id in s.pg && s.pg[id].pid.Some?
    ensures OwnedBy(s, s.pg[id].pid.value, id)
  {
  }

  lemma DeleteFresh(s: State, applied: set<PointId>, current: set<Id>)
    requires Inv(s) && FreshInv(s, current) && Waits(s) && applied <= DoomedPoints(s.job.batch.deleteQueue)
    ensures FreshShown(s.(qd := s.qd - applied), current)
  {
    hide Ordered, Handled, Counted, Sound, Accounted, PidsStable, Covered, Traced, Written, Entries, Refreshed,
      Owned;
    var b := s.job.batch;
    forall id | id in current ensures s.pg[id].pid.value !in applied {
      var p := s.pg[id].pid.value;
      if p in applied {
        var k :| 0 <= k < |b.deleteQueue| && b.deleteQueue[k].pid == Some(p);
        var d := b.deleteQueue[k];
        assert d in b.deleteQueue;
        RecordedOwned(s, id);
        FetchedOwned(s, d.id);
        assert d.id == id;
        Unedited(s, id);
      }
    }
  }

  lemma FetchedOwned(s: State, id: Id)
    requires Owned(s) && s.job.Syncing? && id in s.job.batch.rows && s.job.batch.rows[id].pid.Some?
    ensures OwnedBy(s, s.job.batch.rows[id].pid.value, id)
  {
  }

  // Steps that leave the table and the collection alone, while or after streaming.
  lemma StillFresh(s: State, s': State, current: set<Id>)
    requires FreshInv(s, current) && s.job.Syncing? && s'.job.Syncing?
    requires FreshShown(s', current) && s'.pg == s.pg && s'.job.batch.rows == s.job.batch.rows
    requires s'.job.batch.phase.Streaming?
    ensures FreshInv(s', current)
  {
  }

  lemma BatchFresh(s: State, e: Event, current: set<Id>)
    requires Inv(s) && FreshInv(s, current) && Enabled(s, e)
    requires e.Take? || e.Encode? || e.EncodeFails? || e.UpsertTried? || e.Upsert? || e.DeleteTried? || e.Delete? ||
      e.DeleteGivenUp?
    ensures FreshInv(Apply(s, e), current)
  {
    hide Inv, FreshInv, FreshShown, Put, Describe;
    var s' := Apply(s, e);
    var b := s.job.batch;
    if e.UpsertTried? {
      UpsertFresh(s, e.applied, current);
    } else if e.Upsert? {
      var all := EntryPoints(b.upsertQueue[..b.encoded]);
      UpsertFresh(s, all, current);
      SameStores(Apply(s, UpsertTried(all)), s', current);
    } else if e.DeleteTried? {
      DeleteFresh(s, e.applied, current);
    } else if e.Delete? {
      DeleteFresh(s, DoomedPoints(b.deleteQueue), current);
      SameStores(s.(qd := s.qd - DoomedPoints(b.deleteQueue)), s', current);
    } else {
      FreshInvShown(s, current);
      SameStores(s, s', current);
    }
    StillFresh(s, s', current);
  }

  lemma FreshInvShown(s: State, current: set<Id>)
    requires FreshInv(s, current)
    ensures FreshShown(s, current)
  {
  }

  lemma SameStores(s: State, s': State, current: set<Id>)
    requires FreshShown(s, current) && s'.pg == s.pg && s'.qd == s.qd
    ensures FreshShown(s', current)
  {
  }

  lemma EnvironmentFresh(s: State, e: Event, current: set<Id>)
    requires Inv(s) && FreshInv(s, current) && Enabled(s, e) && (e.Edit? || e.Remove?)
    ensures FreshInv(Apply(s, e), current - {e.id})
  {
    hide Owned, Accounted, Sound, AtWork, SweepsSafely, Refreshed, Find;
    var s' := Apply(s, e);
    if s.job.Syncing? {
      forall id | id in Refreshed(s') ensures id in Refreshed(s) && id != e.id {
        RefreshedAre(s, id);
        RefreshedAre(s', id);
      }
    }
  }

  lemma SweepFresh(s: State, e: Event, current: set<Id>)
    requires Inv(s) && FreshInv(s, current) && Enabled(s, e) && (e.SweepBegin? || e.SweepDelete? || e.SweepEnd?)
    ensures FreshInv(Apply(s, e), current)
  {
    hide Owned, Accounted, Sound, SweepsSafely;
  }

  lemma RunFresh(s: State, e: Event, current: set<Id>)
    requires Inv(s) && FreshInv(s, current) && Enabled(s, e) && (e.Begin? || e.Finish? || e.Crash?)
    ensures FreshInv(Apply(s, e), current)
  {
    hide Owned, Accounted, Sound, AtWork, SweepsSafely, InOrder;
  }

  lemma StepFresh(s: State, e: Event, current: set<Id>)
    requires Inv(s) && FreshInv(s, current) && Enabled(s, e)
    ensures FreshInv(Apply(s, e), FreshNext(s, e, current))
  {
    hide Inv, FreshInv, CommitUpserts, CommitDeletes, Refreshed;
    match e
    case RecordUpsertsTried(_) => RecordFresh(s, current);
    case RecordUpserts => RecordFresh(s, current);
    case RecordDeletesTried(_) => DeletesFresh(s, current);
    case RecordDeletes => DeletesFresh(s, current);
    case Edit(_, _) => EnvironmentFresh(s, e, current);
    case Remove(_) => EnvironmentFresh(s, e, current);
    case SweepBegin => SweepFresh(s, e, current);
    case SweepDelete(_) => SweepFresh(s, e, current);
    case SweepEnd => SweepFresh(s, e, current);
    case Begin(_, _, _) => RunFresh(s, e, current);
    case Finish => RunFresh(s, e, current);
    case Crash => RunFresh(s, e, current);
    case _ => BatchFresh(s, e, current);
  }

  lemma {:induction false} HistoryFresh(s: State, es: seq<Event>, current: set<Id>)
    requires Inv(s) && FreshInv(s, current) && Legal(s, es)
    ensures FreshInv(Replay(s, es), FreshAfter(s, es, current))
    decreases |es|
  {
    hide Inv, FreshInv, Apply, Enabled, FreshNext;
    if es != [] {
      StepKeeps(s, es[0]);
      StepFresh(s, es[0], current);
      HistoryFresh(Apply(s, es[0]), es[1..], FreshNext(s, es[0], current));
    }
  }

  // After any history, every active row whose present version was embedded and recorded
  // has its point in the collection, with its statement and with its description when it
  // has one: also the rows a generating run embeds without writing descriptions back.
  lemma FreshAreShown(s0: State, es: seq<Event>)
    requires Init(s0) && Legal(s0, es)
    ensures forall id :: id in FreshAfter(s0, es, {}) ==>
      id in Replay(s0, es).pg && Shown(Replay(s0, es).pg[id], Replay(s0, es).qd)
  {
    hide Legal, Replay, FreshAfter;
    InitInv(s0);
    HistoryFresh(s0, es, {});
  }

  // When a run is about to end successfully, every row it fetched is fresh if it is
  // active, has something to embed and was not edited meanwhile.
  lemma FinishedAreFresh(s0: State, es: seq<Event>)
    requires Init(s0) && Legal(s0, es) && Enabled(Replay(s0, es), Finish)
    ensures
      var s := Replay(s0, es);
      var b := s.job.batch;
      forall id :: id in b.rows && id in s.pg && s.pg[id].at == b.rows[id].at && b.rows[id].active &&
        Embeddable(b.rows[id], b.mode)
        ==> id in FreshAfter(s0, es, {})
  {
    hide Legal, Replay, FreshAfter, Inv;
    InitInv(s0);
    NothingFresh(s0);
    HistoryKeeps(s0, es);
    HistoryFresh(s0, es, {});
    FinishCoversRows(Replay(s0, es), FreshAfter(s0, es, {}));
  }

  lemma NothingFresh(s: State)
    requires s.job.Idle?
    ensures FreshInv(s, {})
  {
  }

  lemma FinishCoversRows(s: State, current: set<Id>)
    requires Inv(s) && FreshInv(s, current) && Enabled(s, Finish)
    ensures
      var b := s.job.batch;
      forall id :: id in b.rows && id in s.pg && s.pg[id].at == b.rows[id].at && b.rows[id].active &&
        Embeddable(b.rows[id], b.mode)
        ==> id in current
  {
    hide Owned, Accounted, Sound, Entries, Traced, Deletions, Written, Ordered, Counted, Covered, PidsStable,
      Refreshed, Find;
    var b := s.job.batch;
    assert b.written + b.upsertQueue == b.written;
    forall id | id in b.rows && id in s.pg && s.pg[id].at == b.rows[id].at && b.rows[id].active &&
      Embeddable(b.rows[id], b.mode)
      ensures id in current
    {
      RefreshedAre(s, id);
    }
  }

  // ---------------------------------------------------------------------
  // Generating runs only
  // ---------------------------------------------------------------------

  predicate AllGenerate(es: seq<Event>) {
    forall k :: 0 <= k < |es| && es[k].Begin? ==> es[k].mode.Generate?
  }

  predicate HasText(row: Row) {
    row.sql != "" || row.desc != ""
  }

  // Up to the cursor, everything that can be embedded is fresh.
  ghost predicate Complete(s: State, current: set<Id>) {
    && (s.job.Syncing? ==> s.job.batch.mode.Generate?)
    && forall id :: id in s.pg && s.pg[id].at <= s.saved && s.pg[id].active && HasText(s.pg[id]) ==> id in current
  }

  lemma StepComplete(s: State, e: Event, current: set<Id>)
    requires Inv(s) && FreshInv(s, current) && Complete(s, current) && Enabled(s, e)
    requires e.Begin? ==> e.mode.Generate?
    ensures Complete(Apply(s, e), FreshNext(s, e, current))
  {
    hide Inv, FreshInv, CommitUpserts, CommitDeletes, Refreshed, HasText;
    match e
    case RecordUpsertsTried(_) => RecordComplete(s, current);
    case RecordUpserts => RecordComplete(s, current);
    case RecordDeletesTried(_) => DeletesComplete(s, current);
    case RecordDeletes => DeletesComplete(s, current);
    case Finish => FinishComplete(s, current);
    case Take(_, _) => TakeKeepsShape(s.job.batch, e.generated, e.mint);
    case _ =>
  }

  lemma RecordComplete(s: State, current: set<Id>)
    requires Inv(s) && Complete(s, current) && Enabled(s, RecordUpserts)
    ensures Complete(CommitUpserts(s), current + Refreshed(s))
  {
    hide Ordered, Handled, Counted, Deletions, Sound, Accounted, Owned, PidsStable, Traced, Written, Find,
      Refreshed;
    var b := s.job.batch;
    assert b.written + b.upsertQueue == b.written;
    RecordEffect(s.pg, b.written, WritesDesc(b.mode));
    var s' := CommitUpserts(s);
    forall id | id in s'.pg && s'.pg[id].at <= s'.saved && s'.pg[id].active && HasText(s'.pg[id])
      ensures id in current + Refreshed(s)
    {
      var found := Find(b.written, id);
      if found.Some? {
        assert Matches(b, found.value);
        assert !Beyond(s, s.pg[id].at);
        assert s.pg[id].at == b.rows[id].at by { ExpectedAt(b, id); }
        RefreshedAre(s, id);
      }
    }
  }

  lemma ExpectedAt(b: Batch, id: Id)
    requires id in b.rows
    ensures Expected(b, id).at == b.rows[id].at
    ensures Expected(b, id).active == b.rows[id].active && Expected(b, id).sql == b.rows[id].sql
  {
  }

  lemma DeletesComplete(s: State, current: set<Id>)
    requires Complete(s, current) && Enabled(s, RecordDeletes)
    ensures Complete(CommitDeletes(s), current)
  {
  }

  lemma FinishComplete(s: State, current: set<Id>)
    requires Inv(s) && FreshInv(s, current) && Complete(s, current) && Enabled(s, Finish)
    ensures Complete(Apply(s, Finish), current)
  {
    hide Counted, Accounted, Traced, PidsStable, Owned, Entries, Deletions, Written, Sound, Handled, FreshInv;
    var b := s.job.batch;
    FinishCoversRows(s, current);
    forall id | id in s.pg && s.pg[id].at <= b.maxAt && s.pg[id].active && HasText(s.pg[id]) ensures id in current {
      assert !Beyond(s, s.pg[id].at) by {
        if b.maxAt != b.since {
          var x :| x in b.rows && b.rows[x].at == b.maxAt;
        }
      }
      if id in b.rows {
        ExpectedAt(b, id);
        ExpectedText(b, id);
        RefreshedAre(s, id);
        BatchKnown(s, current);
        assert s.pg[id] == Expected(b, id);
      }
    }
  }

  lemma BatchKnown(s: State, current: set<Id>)
    requires FreshInv(s, current) && s.job.Syncing?
    ensures FreshInBatch(s, current)
  {
  }

  // A row recorded with some text had something to embed, or was written.
  lemma ExpectedText(b: Batch, id: Id)
    requires id in b.rows && HasText(Expected(b, id))
    ensures HasText(b.rows[id]) || Find(b.written, id).Some?
  {
  }

  lemma {:induction false} HistoryComplete(s: State, es: seq<Event>, current: set<Id>)
    requires Inv(s) && FreshInv(s, current) && Complete(s, current) && Legal(s, es) && AllGenerate(es)
    ensures Complete(Replay(s, es), FreshAfter(s, es, current))
    decreases |es|
  {
    hide Inv, FreshInv, Complete, Apply, Enabled, FreshNext;
    if es != [] {
      StepKeeps(s, es[0]);
      StepFresh(s, es[0], current);
      StepComplete(s, es[0], current);
      forall k | 0 <= k < |es[1..]| && es[1..][k].Begin? ensures es[1..][k].mode.Generate? {
        assert es[1..][k] == es[k + 1];
      }
      HistoryComplete(Apply(s, es[0]), es[1..], FreshNext(s, es[0], current));
    }
  }

  // If all runs generate descriptions, every active row with any text up to the saved
  // cursor has its point in the collection, whatever crashes, edits and retries came
  // between.
  lemma GeneratingRunsCover(s0: State, es: seq<Event>)
    requires Init(s0) && Legal(s0, es) && AllGenerate(es)
    ensures
      var s := Replay(s0, es);
      forall id :: id in s.pg && s.pg[id].at <= s.saved && s.pg[id].active && HasText(s.pg[id]) ==>
        Shown(s.pg[id], s.qd)
  {
    hide Legal, Replay, FreshAfter, Inv;
    InitInv(s0);
    NothingFresh(s0);
    HistoryFresh(s0, es, {});
    HistoryComplete(s0, es, {});
  }
}
