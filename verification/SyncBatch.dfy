// The batch and the reconcile pass as they run: loops over queues, retried store
// operations that may fail half way, and edits by other clients in between. Every
// step is an event of the state machine, so its guarantees hold of the stores.
module SyncBatch {
  import opened Options
  import opened SyncModel
  import opened SyncInvariant
  import opened SyncTheorems

  // ---------------------------------------------------------------------
  // Batches of a queue
  // ---------------------------------------------------------------------

  // The consecutive batches a flush takes off a queue.
  function Batches(q: seq<Entry>, size: nat, force: bool): seq<seq<Entry>>
    requires size >= 1
    decreases |q|
  {
    if q == [] || !(force || |q| >= size) then []
    else
      var k := if |q| < size then |q| else size;
      [q[..k]] + Batches(q[k..], size, force)
  }

  // What a flush leaves in the queue.
  function Rest(q: seq<Entry>, size: nat, force: bool): seq<Entry>
    requires size >= 1
    decreases |q|
  {
    if q == [] || !(force || |q| >= size) then q
    else Rest(q[if |q| < size then |q| else size..], size, force)
  }

  function Flatten(bs: seq<seq<Entry>>): seq<Entry> {
    if bs == [] then [] else bs[0] + Flatten(bs[1..])
  }

  // The entries of the batches that came through.
  function Kept(bs: seq<seq<Entry>>, outcomes: seq<bool>): seq<Entry>
    requires |bs| == |outcomes|
  {
    if bs == [] then [] else (if outcomes[0] then bs[0] else []) + Kept(bs[1..], outcomes[1..])
  }

  // They are disjoint, in order, and full except perhaps the last of a forced flush.
  lemma {:induction false} BatchesPartition(q: seq<Entry>, size: nat, force: bool)
    requires size >= 1
    ensures
      var bs := Batches(q, size, force);
      && Flatten(bs) + Rest(q, size, force) == q
      && (forall b :: b in bs ==> 1 <= |b| <= size)
      && (forall i :: 0 <= i < |bs| - 1 ==> |bs[i]| == size)
    ensures if force then Rest(q, size, force) == [] else |Rest(q, size, force)| < size
    decreases |q|
  {
    hide Batches, Rest, Flatten;
    BatchesStep(q, size, force);
    FlattenStep([]);
    if q != [] && (force || |q| >= size) {
      var k := if |q| < size then |q| else size;
      BatchesPartition(q[k..], size, force);
      var rest := Batches(q[k..], size, force);
      BatchesStep(q[k..], size, force);
      var bs := [q[..k]] + rest;
      FlattenStep(bs);
      assert bs[1..] == rest && q[..k] + q[k..] == q;
      Regroup(q[..k], Flatten(rest), Rest(q[k..], size, force));
      OneMoreFull(q[..k], rest, size);
    }
  }

  // A full batch in front of others, or a last one.
  lemma OneMoreFull(first: seq<Entry>, rest: seq<seq<Entry>>, size: nat)
    requires 1 <= |first| <= size && (rest != [] ==> |first| == size)
    requires forall b :: b in rest ==> 1 <= |b| <= size
    requires forall i :: 0 <= i < |rest| - 1 ==> |rest[i]| == size
    ensures forall b :: b in [first] + rest ==> 1 <= |b| <= size
    ensures forall i :: 0 <= i < |rest| ==> |([first] + rest)[i]| == size
  {
    var bs := [first] + rest;
    forall i | 0 <= i < |rest| ensures |bs[i]| == size {
      if i > 0 {
        assert bs[i] == rest[i - 1];
      }
    }
  }

  lemma Regroup(a: seq<Entry>, b: seq<Entry>, c: seq<Entry>)
    ensures (a + b) + c == a + (b + c)
  {
  }

  lemma BatchesStep(q: seq<Entry>, size: nat, force: bool)
    requires size >= 1
    ensures
      if q == [] || !(force || |q| >= size) then Batches(q, size, force) == [] && Rest(q, size, force) == q
      else
        var k := if |q| < size then |q| else size;
        Batches(q, size, force) == [q[..k]] + Batches(q[k..], size, force) &&
          Rest(q, size, force) == Rest(q[k..], size, force)
  {
  }

  lemma FlattenStep(bs: seq<seq<Entry>>)
    ensures Flatten(bs) == if bs == [] then [] else bs[0] + Flatten(bs[1..])
  {
  }

  lemma NonEmpty(s: set<int>)
    requires s != {}
    ensures exists x :: x in s
  {
    assert (forall x :: x !in s) ==> s == {};
  }

  lemma {:induction false} KeptPush(bs: seq<seq<Entry>>, outcomes: seq<bool>, b: seq<Entry>, ok: bool)
    requires |bs| == |outcomes|
    ensures Kept(bs + [b], outcomes + [ok]) == Kept(bs, outcomes) + (if ok then b else [])
  {
    if bs == [] {
      assert [b][1..] == [] && [ok][1..] == [];
    } else {
      assert (bs + [b])[1..] == bs[1..] + [b] && (outcomes + [ok])[1..] == outcomes[1..] + [ok];
      KeptPush(bs[1..], outcomes[1..], b, ok);
    }
  }

  lemma NextBatch(done: seq<seq<Entry>>, b: seq<Entry>, rest: seq<seq<Entry>>)
    ensures done + ([b] + rest) == (done + [b]) + rest
    ensures (done + ([b] + rest))[..|done|] == done && (done + ([b] + rest))[|done|] == b
  {
  }

  // A flush loses nobody: each entry is kept or belongs to a batch that failed.
  lemma {:induction false} KeptFlatten(bs: seq<seq<Entry>>, outcomes: seq<bool>)
    requires |bs| == |outcomes|
    ensures |Kept(bs, outcomes)| <= |Flatten(bs)|
    ensures (forall k :: 0 <= k < |outcomes| ==> outcomes[k]) ==> Kept(bs, outcomes) == Flatten(bs)
    ensures (forall k :: 0 <= k < |outcomes| ==> !outcomes[k]) ==> Kept(bs, outcomes) == []
  {
    if bs != [] {
      KeptFlatten(bs[1..], outcomes[1..]);
    }
  }

  lemma {:induction false} FlattenPush(bs: seq<seq<Entry>>, b: seq<Entry>)
    ensures Flatten(bs + [b]) == Flatten(bs) + b
  {
    if bs == [] {
      assert [b][1..] == [];
    } else {
      assert (bs + [b])[1..] == bs[1..] + [b];
      FlattenPush(bs[1..], b);
    }
  }

  lemma KeptNone()
    ensures Kept([], []) == [] && Flatten([]) == []
  {
  }

  lemma DoomNone()
    ensures Doom([]) == [] && DoomedPoints([]) == {}
  {
  }

  lemma RecordNothing(pg: map<Id, Row>, writeDesc: bool)
    ensures RecordEntries(pg, [], writeDesc) == pg && Unrecordable(pg, []) == {}
  {
  }

  lemma {:induction false} DoomPush(q: seq<Doomed>, d: Doomed)
    ensures Doom(q + [d]) == Doom(q) + (if d.pid.Some? then [d.id] else [])
    ensures DoomedPoints(q + [d]) == DoomedPoints(q) + (if d.pid.Some? then {d.pid.value} else {})
  {
    var all := q + [d];
    forall p ensures p in DoomedPoints(all) <==> p in DoomedPoints(q) || (d.pid.Some? && p == d.pid.value) {
      if p in DoomedPoints(q) {
        var k :| 0 <= k < |q| && q[k].pid.Some? && q[k].pid.value == p;
        assert all[k] == q[k];
      } else if d.pid.Some? && p == d.pid.value {
        assert all[|q|] == d;
      }
    }
    if q == [] {
      assert all == [d] && [d][1..] == [];
    } else {
      assert all[1..] == q[1..] + [d];
      DoomPush(q[1..], d);
    }
  }

  // What flushing does not touch.
  ghost predicate RunFrame(a: Batch, b: Batch) {
    && b.since == a.since && b.mode == a.mode && b.rows == a.rows && b.todo == a.todo
    && b.fetched == a.fetched && b.skipped == a.skipped && b.maxAt == a.maxAt
  }

  lemma OrderListsRows(rows: map<Id, Row>, order: seq<Id>)
    requires InOrder(rows, order)
    ensures forall k :: 0 <= k < |order| ==> order[k] in rows
  {
  }

  // The stream moved one row on.
  ghost predicate Advanced(a: Batch, b: Batch)
    requires a.todo != []
  {
    b.todo == a.todo[1..] && b.rows == a.rows && b.mode == a.mode && b.since == a.since
  }

  ghost predicate Reading(b: Batch, rows: map<Id, Row>, todo: seq<Id>, mode: Mode) {
    b.todo == todo && b.rows == rows && b.mode == mode
  }

  // ---------------------------------------------------------------------
  // The events, one at a time
  // ---------------------------------------------------------------------

  lemma BeginEffect(s: State, full: bool, mode: Mode, order: seq<Id>)
    requires s.job.Idle? && InOrder(Fetched(s.pg, if full then EPOCH else s.saved), order)
    ensures Enabled(s, Begin(full, mode, order))
    ensures Apply(s, Begin(full, mode, order)) ==
      s.(job := Syncing(Start(s.pg, if full then EPOCH else s.saved, mode, order)))
  {
  }

  lemma TakeEffect(s: State, generated: Option<string>, mint: PointId)
    requires Waits(s) && s.job.batch.todo != [] && s.job.batch.todo[0] in s.job.batch.rows && mint !in s.owner
    ensures Enabled(s, Take(generated, mint))
    ensures Apply(s, Take(generated, mint)).job == Syncing(TakeRow(s.job.batch, generated, mint))
    ensures Apply(s, Take(generated, mint)) == s.(job := Syncing(TakeRow(s.job.batch, generated, mint)),
      owner := Apply(s, Take(generated, mint)).owner)
    ensures Apply(s, Take(generated, mint)).owner.Keys <= s.owner.Keys +
      (if Mints(s.job.batch, generated) then {mint} else {})
  {
  }

  lemma TakeShape(b: Batch, generated: Option<string>, mint: PointId)
    requires b.todo != [] && b.todo[0] in b.rows
    ensures
      var id, row := b.todo[0], b.rows[b.todo[0]];
      var b' := TakeRow(b, generated, mint);
      var b0 := b.(todo := b.todo[1..], fetched := b.fetched + 1, maxAt := row.at);
      var e := Describe(row, b.mode, generated);
      if !row.active then b' == b0.(deleteQueue := b.deleteQueue + [Doomed(id, row.pid)])
      else if e.Skip? then b' == b0.(skipped := b.skipped + 1)
      else if e.Fail? then b' == b0.(failed := b.failed + 1)
      else b' == b0.(upsertQueue := b.upsertQueue +
                       [Entry(id, if row.pid.Some? then row.pid.value else mint, row.sql, e.desc)],
                     minted := b'.minted)
    ensures Mints(b, generated) <==>
      b.rows[b.todo[0]].active && b.rows[b.todo[0]].pid.None? && Describe(b.rows[b.todo[0]], b.mode, generated).Embed?
  {
  }

  lemma EncodeEffect(s: State, k: nat)
    requires Waits(s) && 1 <= k <= |s.job.batch.upsertQueue|
    ensures Enabled(s, Encode(k)) && Apply(s, Encode(k)) == s.(job := Syncing(s.job.batch.(encoded := k)))
    ensures
      var b := s.job.batch;
      Enabled(s, EncodeFails(k)) &&
      Apply(s, EncodeFails(k)) == s.(job := Syncing(b.(upsertQueue := b.upsertQueue[k..], failed := b.failed + k)))
  {
  }

  lemma UpsertTriedEffect(s: State, applied: set<PointId>)
    requires Upserts(s) && applied <= EntryPoints(s.job.batch.upsertQueue[..s.job.batch.encoded])
    ensures Enabled(s, UpsertTried(applied))
    ensures Apply(s, UpsertTried(applied)) == s.(qd := Put(s.qd, s.job.batch.upsertQueue[..s.job.batch.encoded],
      applied))
  {
  }

  lemma UpsertEffect(s: State)
    requires Upserts(s)
    ensures
      var b := s.job.batch;
      var batch := b.upsertQueue[..b.encoded];
      Enabled(s, Upsert) &&
      Apply(s, Upsert) == s.(qd := Put(s.qd, batch, EntryPoints(batch)),
                             job := Syncing(b.(upsertQueue := b.upsertQueue[b.encoded..], encoded := 0,
                                               upserted := b.upserted + b.encoded, written := b.written + batch)))
  {
  }

  lemma DeleteEffect(s: State)
    requires Waits(s) && s.job.batch.deleteQueue != []
    ensures |Doom(s.job.batch.deleteQueue)| <= |s.job.batch.deleteQueue|
    ensures
      var b := s.job.batch;
      var gone := Doom(b.deleteQueue);
      Enabled(s, Delete) &&
      Apply(s, Delete) == s.(qd := s.qd - DoomedPoints(b.deleteQueue),
                             job := Syncing(b.(deleteQueue := [], deleted := b.deleted + |gone|,
                               removed := b.removed + gone,
                                               noops := b.noops + |b.deleteQueue| - |gone|)))
  {
    DoomLength(s.job.batch.deleteQueue);
  }

  lemma DeleteFailsEffect(s: State, applied: set<PointId>)
    requires Waits(s) && applied <= DoomedPoints(s.job.batch.deleteQueue) && DoomedPoints(s.job.batch.deleteQueue) != {}
    ensures Enabled(s, DeleteTried(applied)) && Apply(s, DeleteTried(applied)) == s.(qd := s.qd - applied)
    ensures
      var b := s.job.batch;
      Enabled(s, DeleteGivenUp) &&
      Apply(s, DeleteGivenUp) == s.(job := Syncing(b.(deleteQueue := [], failed := b.failed + |b.deleteQueue|)))
  {
  }

  lemma RecordUpsertsEffect(s: State, committed: bool)
    requires s.job.Syncing? && s.job.batch.phase != DeletesRecorded && Drained(s.job.batch)
    ensures Enabled(s, RecordUpserts) && Apply(s, RecordUpserts) == CommitUpserts(s)
    ensures Enabled(s, RecordUpsertsTried(committed)) && Apply(s, RecordUpsertsTried(committed)) ==
      if committed then CommitUpserts(s) else s
  {
  }

  lemma RecordDeletesEffect(s: State, committed: bool)
    requires s.job.Syncing? && s.job.batch.phase != Phase.Streaming
    ensures Enabled(s, RecordDeletes) && Apply(s, RecordDeletes) == CommitDeletes(s)
    ensures Enabled(s, RecordDeletesTried(committed)) && Apply(s, RecordDeletesTried(committed)) ==
      if committed then CommitDeletes(s) else s
  {
  }

  lemma StopEffect(s: State)
    requires !s.job.Idle?
    ensures Enabled(s, Crash) && Apply(s, Crash) == s.(job := Job.Idle, strays := Apply(s, Crash).strays)
    ensures s.job.Syncing? && s.job.batch.phase == DeletesRecorded && s.job.batch.failed == 0 ==>
      Enabled(s, Finish) && Apply(s, Finish) == s.(saved := s.job.batch.maxAt, job := Job.Idle)
    ensures s.job.Sweeping? ==> Enabled(s, SweepEnd) && Apply(s, SweepEnd) == s.(job := Job.Idle)
  {
  }

  lemma SweepEffect(s: State, chunk: set<PointId>)
    ensures s.job.Idle? ==>
      Enabled(s, SweepBegin) && Apply(s, SweepBegin) ==
        s.(job := Sweeping(ActiveIds(s.pg), s.qd.Keys - ActiveIds(s.pg)))
    ensures s.job.Sweeping? && chunk <= s.job.orphans ==>
      Enabled(s, SweepDelete(chunk)) && Apply(s, SweepDelete(chunk)) == s.(qd := s.qd - chunk)
  {
  }

  lemma EditEffect(s: State, id: Id, row: Row)
    ensures Beyond(s, row.at) && row.pid == (if id in s.pg then s.pg[id].pid else None) ==>
      Enabled(s, Edit(id, row)) && Apply(s, Edit(id, row)) == s.(pg := s.pg[id := row])
    ensures id in s.pg ==>
      Enabled(s, Remove(id)) && Apply(s, Remove(id)) == s.(pg := s.pg - {id}, dropped := Apply(s, Remove(id)).dropped)
  {
  }

  // ---------------------------------------------------------------------
  // The job
  // ---------------------------------------------------------------------

  // Anything that may happen between the begin and the end of a batch.
  ghost predicate MidRun(e: Event) {
    IsWork(e) || e.Edit? || e.Remove?
  }

  ghost predicate Grown(before: Trace, after: Trace) {
    && after.start == before.start && before.log <= after.log
    && forall i :: |before.log| <= i < |after.log| ==> MidRun(after.log[i])
  }

  // Every row up to the cursor is in step, and no two rows share a point.
  ghost predicate InStep(pg: map<Id, Row>, qd: map<PointId, Payload>, saved: int) {
    && (forall id :: id in pg && pg[id].at <= saved ==> RowOk(pg[id], qd))
    && (forall a, b :: a in pg && b in pg && pg[a].pid.Some? && pg[a].pid == pg[b].pid ==> a == b)
  }

  lemma ReconciledIs(pg: map<Id, Row>, before: map<PointId, Payload>, after: map<PointId, Payload>)
    requires forall p :: p in after ==> p in before && after[p] == before[p]
    requires forall p :: p in before ==> (p in after <==> p in ActiveIds(pg))
    ensures after == Reconciled(pg, before)
  {
    var r := Reconciled(pg, before);
    assert forall p :: p in r <==> p in after;
    forall p | p in r ensures r[p] == after[p] {
      assert r[p] == before[p];
    }
    assert r.Keys == after.Keys;
  }

  // ---------------------------------------------------------------------
  // Traces
  // ---------------------------------------------------------------------

  // A history and the state it leads to.
  datatype Trace = Trace(start: State, log: seq<Event>, now: State)

  ghost predicate Lawful(t: Trace) {
    Init(t.start) && Legal(t.start, t.log) && t.now == Replay(t.start, t.log)
  }

  lemma GrownAfter(since: Trace, t: Trace, e: Event)
    requires Grown(since, t) && MidRun(e) && Enabled(t.now, e)
    ensures Grown(since, After(t, e))
  {
    hide Enabled, Apply;
  }

  lemma GrownBy(a: Trace, b: Trace) returns (work: seq<Event>)
    requires Grown(a, b)
    ensures a.log + work == b.log && b.start == a.start && forall e :: e in work ==> MidRun(e)
  {
    work := b.log[|a.log|..];
    forall e | e in work ensures MidRun(e) {
      var k :| 0 <= k < |work| && work[k] == e;
      assert b.log[|a.log| + k] == e;
    }
  }

  lemma GrownNone(a: Trace)
    ensures Grown(a, a)
  {
  }

  ghost function After(t: Trace, e: Event): Trace
    requires Enabled(t.now, e)
  {
    Trace(t.start, t.log + [e], Apply(t.now, e))
  }

  lemma AfterLawful(t: Trace, e: Event)
    requires Lawful(t) && Enabled(t.now, e)
    ensures Lawful(After(t, e))
  {
    hide Apply, Enabled, Init, Legal, Replay;
    ReplayPush(t.start, t.log, e);
  }

  lemma LawfulSettled(t: Trace)
    requires Lawful(t)
    ensures Inv(t.now)
  {
    hide Legal, Replay, Inv, Init;
    InitInv(t.start);
    HistoryKeeps(t.start, t.log);
  }

  // A successful full run nobody disturbed leaves no row above the cursor.
  lemma FullCovers(before: Trace, after: Trace, mode: Mode, order: seq<Id>, work: seq<Event>)
    requires Lawful(before) && Lawful(after) && after.start == before.start && AllWork(work)
    requires after.log == before.log + [Begin(true, mode, order)] + work + [Finish]
    ensures forall id :: id in after.now.pg ==> after.now.pg[id].at <= after.now.saved
  {
    hide Legal, Replay, Inv, Init, AllWork;
    var run := [Begin(true, mode, order)] + work + [Finish];
    assert after.log == before.log + run;
    LegalSplit(before.start, before.log, run);
    LawfulSettled(before);
    FullRunCoversAll(before.now, mode, order, work);
  }

  // The clock of the database is past everything seen so far.
  ghost predicate Timely(clock: int, s: State) {
    && clock >= s.saved
    && (forall id :: id in s.pg ==> clock >= s.pg[id].at)
    && (s.job.Syncing? ==>
          && clock >= s.job.batch.since && clock >= s.job.batch.maxAt
          && forall id :: id in s.job.batch.rows ==> clock >= s.job.batch.rows[id].at)
  }

  // Identifiers from here on are fresh.
  ghost predicate Fresh(next: PointId, s: State) {
    forall p :: p in s.owner ==> p < next
  }

  // A step of the run that leaves the table and the rows in flight alone.
  lemma SameTimes(clock: int, s: State, s': State)
    requires Timely(clock, s) && s'.pg == s.pg && s'.saved == s.saved
    requires s'.job == s.job || (s.job.Syncing? && s'.job.Syncing? && RunFrame(s.job.batch, s'.job.batch))
    ensures Timely(clock, s')
  {
  }

  lemma TakeTimes(clock: int, s: State, e: Event, next: PointId)
    requires Timely(clock, s) && e.Take? && Enabled(s, e) && Fresh(next, s)
    requires Mints(s.job.batch, e.generated) ==> e.mint < next
    ensures Timely(clock, Apply(s, e)) && Fresh(next, Apply(s, e))
  {
  }

  lemma TableTimes(clock: int, s: State, s': State)
    requires Timely(clock, s) && s'.saved == s.saved && s'.pg.Keys == s.pg.Keys
    requires s.job.Syncing? && s'.job.Syncing? && RunFrame(s.job.batch, s'.job.batch)
    requires forall id :: id in s.pg ==> s'.pg[id].at == s.pg[id].at
    ensures Timely(clock, s')
  {
  }

  // ---------------------------------------------------------------------
  // The job
  // ---------------------------------------------------------------------

  class SyncJob {
    const batchSize: nat
    const attempts: nat
    const chunkSize: nat
    // whether the stores, the encoder and the language model answer every call and nothing
    // kills the process
    const healthy: bool

    // the two stores, the state file, the clock of the database and the source of fresh ids
    var pg: map<Id, Row>
    var qd: map<PointId, Payload>
    var saved: int
    var clock: int
    var nextPoint: PointId

    // the run
    var upsertQueue: seq<Entry>
    var deleteQueue: seq<Doomed>
    var written: seq<Entry>
    var removed: seq<Id>
    var fetched: nat
    var upserted: nat
    var deleted: nat
    var skipped: nat
    var failed: nat
    var maxAt: int

    // everything that happened so far
    ghost var trace: Trace
    // the trace when the current run began
    ghost var begun: Trace

    // Nothing fails, and there is an attempt for it.
    predicate NothingFails() {
      healthy && attempts >= 1
    }

    ghost predicate Ledger()
      reads this
    {
      && batchSize >= 1 && chunkSize >= 1
      && Lawful(trace) && trace.now.pg == pg && trace.now.saved == saved
      && Fresh(nextPoint, trace.now) && Timely(clock, trace.now)
      && (trace.now.job.Syncing? ==> Grown(begun, trace))
    }

    ghost predicate Idle()
      reads this
    {
      Ledger() && qd == trace.now.qd && trace.now.job.Idle?
    }

    // The locals of the run, with the entries and the deletions taken off the queues.
    ghost predicate Local(inHand: seq<Entry>, doomed: seq<Doomed>)
      reads this
    {
      && trace.now.job.Syncing?
      && var b := trace.now.job.batch;
      && b.upsertQueue == inHand + upsertQueue && b.deleteQueue == doomed + deleteQueue
      && b.written == written && b.removed == removed
      && b.fetched == fetched && b.upserted == upserted && b.deleted == deleted && b.skipped == skipped &&
        b.failed == failed
      && b.maxAt == maxAt
    }

    ghost predicate Running(inHand: seq<Entry>, doomed: seq<Doomed>)
      reads this
    {
      Ledger() && qd == trace.now.qd && Local(inHand, doomed)
    }

    // The run is over, one way or the other.
    ghost predicate Stopped()
      reads this
    {
      Ledger() && qd == trace.now.qd && trace.now.job.Syncing?
    }

    ghost predicate Streaming()
      reads this
    {
      Running([], []) && trace.now.job.batch.encoded == 0 && trace.now.job.batch.phase.Streaming?
    }

    constructor (table: map<Id, Row>, batchSize: nat, attempts: nat, chunkSize: nat, healthy: bool)
      requires batchSize >= 1 && chunkSize >= 1
      requires forall id :: id in table ==> table[id].pid.None? && table[id].at > EPOCH
      ensures Idle() && pg == table && qd == map[] && saved == EPOCH
      ensures this.batchSize == batchSize && this.attempts == attempts && this.chunkSize == chunkSize
      ensures this.healthy == healthy
    {
      this.batchSize, this.attempts, this.chunkSize, this.healthy := batchSize, attempts, chunkSize, healthy;
      pg, qd, saved, nextPoint := table, map[], EPOCH, 0;
      var latest := Latest(table);
      clock := latest;
      ghost var empty := State(table, map[], EPOCH, Job.Idle, map[], {}, {});
      trace := Trace(empty, [], empty);
      begun := trace;
    }

    static method Latest(table: map<Id, Row>) returns (latest: int)
      ensures latest >= EPOCH && forall id :: id in table ==> table[id].at <= latest
    {
      latest := EPOCH;
      var left := table.Keys;
      while left != {}
        invariant left <= table.Keys && latest >= EPOCH
        invariant forall id :: id in table && id !in left ==> table[id].at <= latest
      {
        NonEmpty(left);
        var id :| id in left;
        left := left - {id};
        latest := if table[id].at > latest then table[id].at else latest;
      }
    }

    // Other clients edit and hard-delete rows; the database stamps each edit.
    method Elapse()
      requires Ledger()
      modifies `pg, `clock, `trace
      ensures Ledger()
      ensures trace.now == old(trace.now).(pg := pg, dropped := trace.now.dropped)
    {
      hide Lawful, Grown, Apply, Enabled;
      var edits: nat :| true;
      for i := 0 to edits
        invariant Ledger()
        invariant trace.now == old(trace.now).(pg := pg, dropped := trace.now.dropped)
      {
        var id: Id := *;
        if * {
          var sql: string := *;
          var desc: string := *;
          var active: bool := *;
          clock := clock + 1;
          var row := Row(sql, desc, active, clock, if id in pg then pg[id].pid else None);
          EditEffect(trace.now, id, row);
          AfterLawful(trace, Edit(id, row));
          GrownEnvironment(Edit(id, row));
          trace := After(trace, Edit(id, row));
          pg := pg[id := row];
        } else if id in pg {
          EditEffect(trace.now, id, pg[id]);
          AfterLawful(trace, Remove(id));
          GrownEnvironment(Remove(id));
          trace := After(trace, Remove(id));
          pg := pg - {id};
        }
      }
    }

    lemma GrownEnvironment(e: Event)
      requires Ledger() && Enabled(trace.now, e) && (e.Edit? || e.Remove?)
      ensures trace.now.job.Syncing? ==> Grown(begun, After(trace, e))
    {
      hide Lawful, Grown, Apply, Enabled;
      if trace.now.job.Syncing? {
        GrownAfter(begun, trace, e);
      }
    }

    // ---------------------------------------------------------------------
    // Upserts
    // ---------------------------------------------------------------------

    // Retried embedding of a batch; it touches no store.
    method EncodeBatch(batch: seq<Entry>) returns (ok: bool)
      ensures NothingFails() ==> ok
    {
      ok := false;
      var attempt := 0;
      while !ok && attempt < attempts
        invariant NothingFails() && !ok ==> attempt == 0
      {
        var answers: bool := *;
        ok := healthy || answers;
        attempt := attempt + 1;
      }
    }

    // Retried upsert: a failed attempt may have written any part of the batch.
    method UpsertBatch(batch: seq<Entry>) returns (ok: bool)
      requires Running(batch, []) && batch != []
      requires trace.now.job.batch.encoded == |batch| && trace.now.job.batch.phase.Streaming?
      modifies `pg, `qd, `clock, `trace
      ensures trace.now.job == old(trace.now.job)
      ensures if ok then Stored(batch, qd) else Running(batch, [])
      ensures NothingFails() ==> ok
    {
      hide Lawful, Grown, Apply, Enabled, Put, Timely, Fresh;
      ok := false;
      var attempt := 0;
      assert trace.now.job.batch.upsertQueue[..|batch|] == batch;
      while !ok && attempt < attempts
        invariant Ledger() && trace.now.job == old(trace.now.job)
        invariant qd == if ok then Put(trace.now.qd, batch, EntryPoints(batch)) else trace.now.qd
        invariant NothingFails() && !ok ==> attempt == 0
      {
        Elapse();
        var answers: bool := *;
        ok := healthy || answers;
        if ok {
          qd := Put(qd, batch, EntryPoints(batch));
        } else {
          var some: set<PointId> := *;
          some := some * EntryPoints(batch);
          UpsertTriedEffect(trace.now, some);
          Quietly(UpsertTried(some));
          trace := After(trace, UpsertTried(some));
          qd := Put(qd, batch, some);
        }
        attempt := attempt + 1;
      }
    }

    // An event that leaves the table, the owners and the rows in flight alone.
    lemma Quietly(e: Event)
      requires Ledger() && MidRun(e) && Enabled(trace.now, e)
      requires var s' := Apply(trace.now, e);
        && s'.pg == pg && s'.saved == saved && s'.owner == trace.now.owner
        && (s'.job == trace.now.job || (trace.now.job.Syncing? && s'.job.Syncing? &&
          RunFrame(trace.now.job.batch, s'.job.batch)))
      ensures trace.now.job.Syncing? ==> Grown(begun, After(trace, e))
      ensures Lawful(After(trace, e)) && Fresh(nextPoint, After(trace, e).now) && Timely(clock, After(trace, e).now)
    {
      hide Lawful, Grown, Apply, Enabled;
      if trace.now.job.Syncing? {
        GrownAfter(begun, trace, e);
      }
      AfterLawful(trace, e);
      SameTimes(clock, trace.now, Apply(trace.now, e));
    }

    // A batch off the queue, not embedded yet.
    ghost predicate Holding(batch: seq<Entry>)
      reads this
    {
      Running(batch, []) && batch != [] && trace.now.job.batch.encoded == 0 && trace.now.job.batch.phase.Streaming?
    }

    // The batch is in the collection, and the event is still to be noted.
    ghost predicate Stored(batch: seq<Entry>, qd: map<PointId, Payload>)
      reads this
    {
      && Ledger() && Local(batch, []) && batch != []
      && trace.now.job.batch.encoded == |batch| && trace.now.job.batch.phase.Streaming?
      && qd == Put(trace.now.qd, batch, EntryPoints(batch))
    }

    method NoteLost(batch: seq<Entry>)
      requires Holding(batch)
      modifies `failed, `trace
      ensures Streaming() && RunFrame(old(trace.now.job.batch), trace.now.job.batch)
      ensures failed == old(failed) + |batch|
    {
      hide Lawful, Grown, Apply, Enabled, Timely, Fresh;
      ghost var k := |batch|;
      assert (batch + upsertQueue)[k..] == upsertQueue;
      EncodeEffect(trace.now, k);
      failed := failed + |batch|;
      Quietly(EncodeFails(k));
      trace := After(trace, EncodeFails(k));
    }

    method NoteKept(batch: seq<Entry>)
      requires Stored(batch, qd)
      modifies `upserted, `written, `trace
      ensures Streaming() && RunFrame(old(trace.now.job.batch), trace.now.job.batch)
      ensures upserted == old(upserted) + |batch| && written == old(written) + batch
    {
      hide Lawful, Grown, Apply, Enabled, Timely, Fresh, Put;
      assert (batch + upsertQueue)[|batch|..] == upsertQueue && (batch + upsertQueue)[..|batch|] == batch;
      upserted := upserted + |batch|;
      written := written + batch;
      UpsertEffect(trace.now);
      Quietly(Upsert);
      trace := After(trace, Upsert);
    }

    // One turn of the flush loop, on the batch just taken off the queue.
    method FlushOne(batch: seq<Entry>) returns (raised: bool, ghost kept: bool)
      requires Holding(batch)
      modifies this
      ensures Stopped() && begun == old(begun) && saved == old(saved)
      ensures upsertQueue == old(upsertQueue)
      ensures !raised ==> Streaming() && RunFrame(old(trace.now.job.batch), trace.now.job.batch)
      ensures raised ==> !kept
      ensures written == old(written) + (if kept then batch else [])
      ensures upserted == old(upserted) + (if kept then |batch| else 0)
      ensures failed == old(failed) + (if kept then 0 else |batch|)
      ensures NothingFails() ==> kept
    {
      hide Lawful, Grown, Apply, Enabled, Put, Timely, Fresh;
      raised, kept := false, false;
      var encoded := EncodeBatch(batch);
      if !encoded {
        NoteLost(batch);
        return;
      }
      EncodeEffect(trace.now, |batch|);
      Quietly(Encode(|batch|));
      trace := After(trace, Encode(|batch|));
      var stored := UpsertBatch(batch);
      if !stored {
        failed := failed + |batch|;
        raised := true;
        return;
      }
      kept := true;
      NoteKept(batch);
    }

    // Takes the next batch off the queue.
    method Pop() returns (batch: seq<Entry>)
      requires Streaming() && upsertQueue != []
      modifies `upsertQueue
      ensures Holding(batch)
      ensures
        var k := if |old(upsertQueue)| < batchSize then |old(upsertQueue)| else batchSize;
        batch == old(upsertQueue)[..k] && upsertQueue == old(upsertQueue)[k..]
    {
      hide Lawful, Grown, Timely, Fresh;
      var k := if |upsertQueue| < batchSize then |upsertQueue| else batchSize;
      batch := upsertQueue[..k];
      assert batch + upsertQueue[k..] == upsertQueue && [] + upsertQueue == upsertQueue;
      upsertQueue := upsertQueue[k..];
    }

    // What the batches done so far added to the run's accounts.
    ghost predicate Account(done: seq<seq<Entry>>, outcomes: seq<bool>, written0: seq<Entry>, upserted0: nat,
        failed0: nat)
      reads `written, `upserted, `failed
      requires |done| == |outcomes|
    {
      && written == written0 + Kept(done, outcomes)
      && upserted == upserted0 + |Kept(done, outcomes)|
      && failed == failed0 + |Flatten(done)| - |Kept(done, outcomes)|
    }

    // Flushes the upsert queue batch by batch. A batch that cannot be embedded is
    // counted as failed and the loop goes on; one that cannot be upserted aborts the run.
    method FlushUpsert(force: bool) returns (raised: bool, ghost outcomes: seq<bool>)
      requires Streaming()
      modifies this
      ensures Stopped() && begun == old(begun) && saved == old(saved)
      ensures !raised ==> Streaming() && RunFrame(old(trace.now.job.batch), trace.now.job.batch)
      ensures
        var bs := Batches(old(upsertQueue), batchSize, force);
        if raised then
          && |outcomes| < |bs|
          && written == old(written) + Kept(bs[..|outcomes|], outcomes)
          && failed == old(failed) + |Flatten(bs[..|outcomes|])| - |Kept(bs[..|outcomes|], outcomes)| + |bs[|outcomes|]|
        else
          && |outcomes| == |bs|
          && upsertQueue == Rest(old(upsertQueue), batchSize, force)
          && written == old(written) + Kept(bs, outcomes)
          && upserted == old(upserted) + |Kept(bs, outcomes)|
          && failed == old(failed) + |Flatten(bs)| - |Kept(bs, outcomes)|
      ensures NothingFails() ==> !raised && failed == old(failed)
    {
      hide Lawful, Grown, Apply, Enabled, Put, Timely, Fresh, Batches, Rest, Kept, Flatten;
      raised, outcomes := false, [];
      ghost var bs := Batches(upsertQueue, batchSize, force);
      ghost var done: seq<seq<Entry>> := [];
      KeptNone();
      assert done + bs == bs;
      while upsertQueue != [] && (force || |upsertQueue| >= batchSize)
        invariant Streaming() && begun == old(begun) && saved == old(saved)
        invariant RunFrame(old(trace.now.job.batch), trace.now.job.batch)
        invariant bs == done + Batches(upsertQueue, batchSize, force) && |done| == |outcomes|
        invariant Rest(upsertQueue, batchSize, force) == Rest(old(upsertQueue), batchSize, force)
        invariant Account(done, outcomes, old(written), old(upserted), old(failed))
        invariant NothingFails() ==> forall k :: 0 <= k < |outcomes| ==> outcomes[k]
        decreases |upsertQueue|
      {
        BatchesStep(upsertQueue, batchSize, force);
        var batch := Pop();
        NextBatch(done, batch, Batches(upsertQueue, batchSize, force));
        ghost var kept;
        raised, kept := FlushOne(batch);
        KeptPush(done, outcomes, batch, kept);
        FlattenPush(done, batch);
        if raised {
          return;
        }
        done, outcomes := done + [batch], outcomes + [kept];
      }
      BatchesStep(upsertQueue, batchSize, force);
      assert done == bs;
      KeptFlatten(done, outcomes);
    }

    // ---------------------------------------------------------------------
    // Deletions
    // ---------------------------------------------------------------------

    // The points of the chunk are out of the collection, and the event is still to be noted.
    ghost predicate Deleting(chunk: seq<Doomed>, qd: map<PointId, Payload>)
      reads this
    {
      && Ledger() && Local([], chunk) && deleteQueue == []
      && trace.now.job.batch.encoded == 0 && trace.now.job.batch.phase.Streaming?
      && qd == trace.now.qd - DoomedPoints(chunk)
    }

    // Retried delete: a failed attempt may have removed any part of the points.
    method DeleteBatch(points: set<PointId>, ghost chunk: seq<Doomed>) returns (ok: bool)
      requires Running([], chunk) && deleteQueue == [] && points == DoomedPoints(chunk) && points != {}
      requires trace.now.job.batch.encoded == 0 && trace.now.job.batch.phase.Streaming?
      modifies `pg, `qd, `clock, `trace
      ensures trace.now.job == old(trace.now.job)
      ensures if ok then Deleting(chunk, qd) else Running([], chunk)
      ensures NothingFails() ==> ok
    {
      hide Lawful, Grown, Apply, Enabled, Timely, Fresh, DoomedPoints;
      ok := false;
      var attempt := 0;
      assert trace.now.job.batch.deleteQueue == chunk;
      while !ok && attempt < attempts
        invariant Ledger() && trace.now.job == old(trace.now.job)
        invariant qd == if ok then trace.now.qd - points else trace.now.qd
        invariant NothingFails() && !ok ==> attempt == 0
      {
        Elapse();
        var answers: bool := *;
        ok := healthy || answers;
        if ok {
          qd := qd - points;
        } else {
          var some: set<PointId> := *;
          some := some * points;
          DeleteFailsEffect(trace.now, some);
          Quietly(DeleteTried(some));
          trace := After(trace, DeleteTried(some));
          qd := qd - some;
        }
        attempt := attempt + 1;
      }
    }

    // Splits off what the collection and the write-back need.
    static method Split(chunk: seq<Doomed>) returns (points: set<PointId>, ids: seq<Id>)
      ensures points == DoomedPoints(chunk) && ids == Doom(chunk)
    {
      hide DoomedPoints, Doom;
      points, ids := {}, [];
      DoomNone();
      for i := 0 to |chunk|
        invariant points == DoomedPoints(chunk[..i]) && ids == Doom(chunk[..i])
      {
        DoomPush(chunk[..i], chunk[i]);
        assert chunk[..i + 1] == chunk[..i] + [chunk[i]];
        if chunk[i].pid.Some? {
          points := points + {chunk[i].pid.value};
          ids := ids + [chunk[i].id];
        }
      }
      assert chunk[..|chunk|] == chunk;
    }

    // Flushes the delete queue: all of it is deleted and noted for the write-back,
    // or, when the retries run out, all of it - rows without a point too - is counted as failed.
    method FlushDelete()
      requires Streaming()
      modifies this
      ensures Streaming() && begun == old(begun) && saved == old(saved)
      ensures RunFrame(old(trace.now.job.batch), trace.now.job.batch)
      ensures deleteQueue == [] && upsertQueue == old(upsertQueue)
      ensures
        || (removed == old(removed) && failed == old(failed) + |old(deleteQueue)|)
        || (removed == old(removed) + Doom(old(deleteQueue)) && deleted == old(deleted) + |Doom(old(deleteQueue))| &&
          failed == old(failed))
      ensures NothingFails() ==> failed == old(failed) && removed == old(removed) + Doom(old(deleteQueue))
    {
      hide Lawful, Grown, Apply, Enabled, Timely, Fresh, DoomedPoints, Doom;
      if deleteQueue == [] {
        DoomNone();
        return;
      }
      var chunk := deleteQueue;
      var points, ids := Split(chunk);
      deleteQueue := [];
      assert chunk + deleteQueue == chunk;
      var ok := true;
      if points != {} {
        assert [] + chunk == chunk;
        ok := DeleteBatch(points, chunk);
      }
      if ok {
        NoteDeleted(chunk, ids);
      } else {
        NoteFailed(chunk);
      }
    }

    // The outcome of a chunk: its rows are to be recorded as gone ...
    method NoteDeleted(ghost chunk: seq<Doomed>, ids: seq<Id>)
      requires Deleting(chunk, qd) && chunk != [] && ids == Doom(chunk)
      modifies `deleted, `removed, `trace
      ensures Streaming() && RunFrame(old(trace.now.job.batch), trace.now.job.batch)
      ensures removed == old(removed) + ids && deleted == old(deleted) + |ids|
    {
      hide Lawful, Grown, Apply, Enabled, Timely, Fresh, DoomedPoints, Doom;
      assert trace.now.job.batch.deleteQueue == chunk;
      deleted := deleted + |ids|;
      removed := removed + ids;
      DeleteEffect(trace.now);
      Quietly(Delete);
      trace := After(trace, Delete);
    }

    // ... or all of them are counted as failed.
    method NoteFailed(chunk: seq<Doomed>)
      requires Running([], chunk) && deleteQueue == [] && DoomedPoints(chunk) != {}
      requires trace.now.job.batch.encoded == 0 && trace.now.job.batch.phase.Streaming?
      modifies `failed, `trace
      ensures Streaming() && RunFrame(old(trace.now.job.batch), trace.now.job.batch)
      ensures failed == old(failed) + |chunk|
    {
      hide Lawful, Grown, Apply, Enabled, Timely, Fresh, DoomedPoints, Doom;
      assert trace.now.job.batch.deleteQueue == chunk;
      failed := failed + |chunk|;
      DeleteFailsEffect(trace.now, {});
      Quietly(DeleteGivenUp);
      trace := After(trace, DeleteGivenUp);
    }

    // ---------------------------------------------------------------------
    // Write-backs
    // ---------------------------------------------------------------------

    static method RecordAll(pg: map<Id, Row>, rows: seq<Entry>, writeDesc: bool) returns (table: map<Id, Row>)
      ensures table == RecordEntries(pg, rows, writeDesc)
      ensures table.Keys == pg.Keys && forall id :: id in pg ==> table[id].at == pg[id].at
    {
      table := pg;
      for i := 0 to |rows|
        invariant RecordEntries(table, rows[i..], writeDesc) == RecordEntries(pg, rows, writeDesc)
        invariant table.Keys == pg.Keys && forall id :: id in pg ==> table[id].at == pg[id].at
      {
        var e := rows[i];
        assert rows[i..][0] == e && rows[i..][1..] == rows[i + 1..];
        if e.id in table {
          var desc := if writeDesc then e.desc else table[e.id].desc;
          table := table[e.id := table[e.id].(pid := Some(e.pid), desc := desc)];
        }
      }
    }

    // An event that only rewrites recorded ids and descriptions.
    lemma Rewritten(e: Event, table: map<Id, Row>)
      requires Ledger() && MidRun(e) && Enabled(trace.now, e)
      requires table.Keys == pg.Keys && forall id :: id in pg ==> table[id].at == pg[id].at
      requires var s' := Apply(trace.now, e);
        && s'.pg == table && s'.saved == saved && s'.owner == trace.now.owner
        && trace.now.job.Syncing? && s'.job.Syncing? && RunFrame(trace.now.job.batch, s'.job.batch)
      ensures trace.now.job.Syncing? ==> Grown(begun, After(trace, e))
      ensures Lawful(After(trace, e)) && Fresh(nextPoint, After(trace, e).now) && Timely(clock, After(trace, e).now)
    {
      hide Lawful, Grown, Apply, Enabled;
      if trace.now.job.Syncing? {
        GrownAfter(begun, trace, e);
      }
      AfterLawful(trace, e);
      TableTimes(clock, trace.now, Apply(trace.now, e));
    }

    // One attempt at the transaction; a failed one may have committed all the same.
    method TryRecordUpserts(writeDesc: bool) returns (ok: bool)
      requires Running([], []) && Drained(trace.now.job.batch) && !trace.now.job.batch.phase.DeletesRecorded?
      requires writeDesc == WritesDesc(trace.now.job.batch.mode)
      modifies `pg, `clock, `trace
      ensures Running([], [])
      ensures trace.now.job.batch == old(trace.now.job.batch).(phase := UpsertsRecorded, minted := {}) ||
        (!ok && trace.now.job.batch == old(trace.now.job.batch))
      ensures healthy ==> ok
    {
      hide Lawful, Grown, Apply, Enabled, Timely, Fresh, RecordEntries, Unrecordable;
      Elapse();
      var table := RecordAll(pg, written, writeDesc);
      var committed: bool := *;
      var answers: bool := *;
      ok := healthy || answers;
      RecordUpsertsEffect(trace.now, committed);
      var lands := ok || committed;
      ghost var e := if ok then RecordUpserts else RecordUpsertsTried(committed);
      Rewritten(e, if lands then table else pg);
      trace := After(trace, e);
      pg := if lands then table else pg;
    }

    // One transaction over the upserted rows, retried.
    method WriteBackUpserts(writeDesc: bool) returns (ok: bool)
      requires Running([], []) && Drained(trace.now.job.batch) && trace.now.job.batch.phase.Streaming?
      requires writeDesc == WritesDesc(trace.now.job.batch.mode)
      modifies `pg, `clock, `trace
      ensures Running([], [])
      ensures ok ==> trace.now.job.batch == old(trace.now.job.batch).(phase := UpsertsRecorded, minted := {})
      ensures NothingFails() ==> ok
    {
      hide Lawful, Grown, Apply, Enabled, Timely, Fresh, RecordEntries, Unrecordable;
      ok := false;
      var attempt := 0;
      if written == [] {
        RecordNothing(pg, writeDesc);
        RecordUpsertsEffect(trace.now, true);
        Rewritten(RecordUpserts, pg);
        trace := After(trace, RecordUpserts);
        return true;
      }
      while !ok && attempt < attempts
        invariant Running([], [])
        invariant Drained(trace.now.job.batch) && !trace.now.job.batch.phase.DeletesRecorded?
        invariant trace.now.job.batch == old(trace.now.job.batch)
          || trace.now.job.batch == old(trace.now.job.batch).(phase := UpsertsRecorded, minted := {})
        invariant ok ==> trace.now.job.batch == old(trace.now.job.batch).(phase := UpsertsRecorded, minted := {})
        invariant NothingFails() && !ok ==> attempt == 0
      {
        ok := TryRecordUpserts(writeDesc);
        attempt := attempt + 1;
      }
    }

    // One attempt at the transaction; a failed one may have committed all the same.
    method TryRecordDeletes() returns (ok: bool)
      requires Running([], []) && !trace.now.job.batch.phase.Streaming?
      modifies `pg, `clock, `trace
      ensures Running([], [])
      ensures trace.now.job.batch == old(trace.now.job.batch).(phase := DeletesRecorded) ||
        (!ok && trace.now.job.batch == old(trace.now.job.batch))
      ensures healthy ==> ok
    {
      hide Lawful, Grown, Apply, Enabled, Timely, Fresh;
      Elapse();
      var table := ClearPoints(pg, removed);
      var committed: bool := *;
      var answers: bool := *;
      ok := healthy || answers;
      RecordDeletesEffect(trace.now, committed);
      var lands := ok || committed;
      ghost var e := if ok then RecordDeletes else RecordDeletesTried(committed);
      Rewritten(e, if lands then table else pg);
      trace := After(trace, e);
      pg := if lands then table else pg;
    }

    method WriteBackDeletes() returns (ok: bool)
      requires Running([], []) && trace.now.job.batch.phase.UpsertsRecorded?
      modifies `pg, `clock, `trace
      ensures Running([], [])
      ensures ok ==> trace.now.job.batch == old(trace.now.job.batch).(phase := DeletesRecorded)
      ensures NothingFails() ==> ok
    {
      hide Lawful, Grown, Apply, Enabled, Timely, Fresh;
      ok := false;
      var attempt := 0;
      if removed == [] {
        assert ClearPoints(pg, []) == pg;
        RecordDeletesEffect(trace.now, true);
        Rewritten(RecordDeletes, pg);
        trace := After(trace, RecordDeletes);
        return true;
      }
      while !ok && attempt < attempts
        invariant Running([], [])
        invariant !trace.now.job.batch.phase.Streaming?
        invariant trace.now.job.batch == old(trace.now.job.batch)
          || trace.now.job.batch == old(trace.now.job.batch).(phase := DeletesRecorded)
        invariant ok ==> trace.now.job.batch == old(trace.now.job.batch).(phase := DeletesRecorded)
        invariant NothingFails() && !ok ==> attempt == 0
      {
        ok := TryRecordDeletes();
        attempt := attempt + 1;
      }
    }

    // ---------------------------------------------------------------------
    // The run
    // ---------------------------------------------------------------------

    lemma Taken(e: Event)
      requires Ledger() && MidRun(e) && e.Take? && Enabled(trace.now, e)
      requires Mints(trace.now.job.batch, e.generated) ==> e.mint < nextPoint
      ensures trace.now.job.Syncing? ==> Grown(begun, After(trace, e))
      ensures Lawful(After(trace, e)) && Fresh(nextPoint, After(trace, e).now) && Timely(clock, After(trace, e).now)
    {
      hide Lawful, Grown, Apply, Enabled;
      if trace.now.job.Syncing? {
        GrownAfter(begun, trace, e);
      }
      AfterLawful(trace, e);
      TakeTimes(clock, trace.now, e, nextPoint);
    }

    // A row there is nothing to embed for.
    method Skip(id: Id, row: Row, mode: Mode, generated: Option<string>)
      requires Streaming() && trace.now.job.batch.mode == mode
      requires trace.now.job.batch.todo != [] && trace.now.job.batch.todo[0] == id
      requires id in trace.now.job.batch.rows && trace.now.job.batch.rows[id] == row
      requires row.active && Describe(row, mode, generated).Skip?
      modifies `fetched, `maxAt, `skipped, `trace
      ensures Streaming() && Advanced(old(trace.now.job.batch), trace.now.job.batch)
      ensures skipped == old(skipped) + 1 && fetched == old(fetched) + 1
    {
      hide Lawful, Grown, Apply, Enabled, Timely, Fresh, Describe, TakeRow, Mints;
      fetched, maxAt, skipped := fetched + 1, row.at, skipped + 1;
      NewId();
      TakeShape(trace.now.job.batch, generated, nextPoint);
      TakeEffect(trace.now, generated, nextPoint);
      Taken(Take(generated, nextPoint));
      trace := After(trace, Take(generated, nextPoint));
    }

    // A row no description could be generated for.
    method Fail(id: Id, row: Row, mode: Mode, generated: Option<string>)
      requires Streaming() && trace.now.job.batch.mode == mode
      requires trace.now.job.batch.todo != [] && trace.now.job.batch.todo[0] == id
      requires id in trace.now.job.batch.rows && trace.now.job.batch.rows[id] == row
      requires row.active && Describe(row, mode, generated).Fail?
      modifies `fetched, `maxAt, `failed, `trace
      ensures Streaming() && Advanced(old(trace.now.job.batch), trace.now.job.batch)
      ensures failed == old(failed) + 1 && fetched == old(fetched) + 1
    {
      hide Lawful, Grown, Apply, Enabled, Timely, Fresh, Describe, TakeRow, Mints;
      fetched, maxAt, failed := fetched + 1, row.at, failed + 1;
      NewId();
      TakeShape(trace.now.job.batch, generated, nextPoint);
      TakeEffect(trace.now, generated, nextPoint);
      Taken(Take(generated, nextPoint));
      trace := After(trace, Take(generated, nextPoint));
    }

    // A random identifier nobody has used.
    method NewPointId() returns (pid: PointId)
      requires Ledger()
      modifies `nextPoint
      ensures Ledger() && pid !in trace.now.owner && pid < nextPoint
    {
      hide Lawful, Grown, Timely;
      pid := nextPoint;
      nextPoint := nextPoint + 1;
    }

    // A row to embed, under its recorded point or a fresh one.
    method Enqueue(id: Id, row: Row, mode: Mode, generated: Option<string>, pid: PointId)
      requires Streaming() && trace.now.job.batch.mode == mode
      requires trace.now.job.batch.todo != [] && trace.now.job.batch.todo[0] == id
      requires id in trace.now.job.batch.rows && trace.now.job.batch.rows[id] == row
      requires row.active && Describe(row, mode, generated).Embed?
      requires if row.pid.Some? then pid == row.pid.value else pid !in trace.now.owner && pid < nextPoint
      modifies `fetched, `maxAt, `upsertQueue, `trace
      ensures Streaming() && Advanced(old(trace.now.job.batch), trace.now.job.batch)
      ensures upsertQueue == old(upsertQueue) + [Entry(id, pid, row.sql, Describe(row, mode, generated).desc)]
    {
      hide Lawful, Grown, Apply, Enabled, Timely, Fresh, Describe, TakeRow, Mints;
      NewId();
      ghost var mint := if row.pid.Some? then nextPoint else pid;
      TakeShape(trace.now.job.batch, generated, mint);
      TakeEffect(trace.now, generated, mint);
      Taken(Take(generated, mint));
      fetched, maxAt := fetched + 1, row.at;
      upsertQueue := upsertQueue + [Entry(id, pid, row.sql, Describe(row, mode, generated).desc)];
      trace := After(trace, Take(generated, mint));
    }

    method EnqueueDelete(id: Id, row: Row)
      requires Streaming()
      requires trace.now.job.batch.todo != [] && trace.now.job.batch.todo[0] == id
      requires id in trace.now.job.batch.rows && trace.now.job.batch.rows[id] == row && !row.active
      modifies `fetched, `maxAt, `deleteQueue, `trace
      ensures Streaming() && Advanced(old(trace.now.job.batch), trace.now.job.batch)
    {
      hide Lawful, Grown, Apply, Enabled, Timely, Fresh, Describe, TakeRow, Mints;
      fetched, maxAt := fetched + 1, row.at;
      deleteQueue := deleteQueue + [Doomed(id, row.pid)];
      NewId();
      TakeShape(trace.now.job.batch, None, nextPoint);
      TakeEffect(trace.now, None, nextPoint);
      Taken(Take(None, nextPoint));
      trace := After(trace, Take(None, nextPoint));
    }

    lemma NewId()
      requires Ledger()
      ensures nextPoint !in trace.now.owner
    {
      hide Lawful, Grown;
    }

    // One row of the stream.
    method HandleRow(id: Id, row: Row, mode: Mode) returns (raised: bool)
      requires Streaming() && trace.now.job.batch.mode == mode
      requires trace.now.job.batch.todo != [] && trace.now.job.batch.todo[0] == id
      requires id in trace.now.job.batch.rows && trace.now.job.batch.rows[id] == row
      modifies this
      ensures Stopped() && begun == old(begun) && saved == old(saved)
      ensures !raised ==> Streaming() && Advanced(old(trace.now.job.batch), trace.now.job.batch)
      ensures NothingFails() ==> !raised && failed == old(failed)
      ensures row.active && row.desc == "" && (row.sql == "" || mode == Direct) ==>
        !raised && skipped == old(skipped) + 1 && failed == old(failed)
    {
      hide Lawful, Grown, Apply, Enabled, Timely, Fresh, Batches, Rest, Kept, Flatten, Doom;
      raised := false;
      NewId();
      if row.active {
        var text: string := *;
        var answers: bool := *;
        var generated := if healthy || answers then Some(text) else None;
        if Describe(row, mode, generated).Skip? {
          Skip(id, row, mode, generated);
          return;
        }
        if Describe(row, mode, generated).Fail? {
          Fail(id, row, mode, generated);
          return;
        }
        var pid;
        if row.pid.Some? {
          pid := row.pid.value;
        } else {
          pid := NewPointId();
        }
        Enqueue(id, row, mode, generated, pid);
        ghost var outcomes;
        raised, outcomes := FlushUpsert(false);
      } else {
        EnqueueDelete(id, row);
        if |deleteQueue| >= batchSize {
          FlushDelete();
        }
      }
    }

    // After the stream: the rest of both queues, then the write-backs. Every step has
    // to succeed, and no row may have failed.
    method Conclude(mode: Mode) returns (ok: bool)
      requires Streaming() && trace.now.job.batch.todo == [] && trace.now.job.batch.mode == mode
      modifies this
      ensures Stopped() && begun == old(begun) && saved == old(saved)
      ensures ok ==> Running([], []) && trace.now.job.batch.phase.DeletesRecorded? && failed == 0
      ensures NothingFails() && old(failed) == 0 ==> ok
    {
      hide Lawful, Grown, Apply, Enabled, Timely, Fresh, Batches, Rest, Kept, Flatten, Doom;
      BatchesPartition(upsertQueue, batchSize, true);
      var raised;
      ghost var outcomes;
      raised, outcomes := FlushUpsert(true);
      if raised { return false; }
      FlushDelete();
      ok := WriteBackUpserts(WritesDesc(mode));
      if !ok { return; }
      ok := WriteBackDeletes();
      if !ok { return; }
      ok := failed == 0;
    }

    // The streaming loop; the process may be killed anywhere.
    method Stream(order: seq<Id>, rows: map<Id, Row>, mode: Mode) returns (raised: bool)
      requires Streaming() && Reading(trace.now.job.batch, rows, order, mode)
      requires forall k :: 0 <= k < |order| ==> order[k] in rows
      modifies this
      ensures Stopped() && begun == old(begun) && saved == old(saved)
      ensures !raised ==> Streaming() && Reading(trace.now.job.batch, rows, [], mode)
      ensures NothingFails() ==> !raised && failed == old(failed)
    {
      hide Lawful, Grown, Apply, Enabled, Timely, Fresh;
      raised := false;
      var i := 0;
      assert order[0..] == order;
      while i < |order| && !raised
        invariant 0 <= i <= |order|
        invariant Stopped() && begun == old(begun) && saved == old(saved)
        invariant !raised ==> Streaming() && Reading(trace.now.job.batch, rows, order[i..], mode)
        invariant NothingFails() ==> !raised && failed == old(failed)
        decreases |order| - i, !raised
      {
        Elapse();
        var killed: bool := *;
        if killed && !healthy {
          raised := true;
        } else {
          assert order[i..][0] == order[i] && order[i..][1..] == order[i + 1..];
          raised := HandleRow(order[i], rows[order[i]], mode);
          i := i + 1;
        }
      }
      assert !raised ==> order[i..] == [];
    }

    // Fresh locals.
    method Reset(since: int)
      modifies `upsertQueue, `deleteQueue, `written, `removed, `fetched, `upserted, `deleted, `skipped, `failed, `maxAt
      ensures upsertQueue == [] && deleteQueue == [] && written == [] && removed == []
      ensures fetched == 0 && upserted == 0 && deleted == 0 && skipped == 0 && failed == 0 && maxAt == since
    {
      upsertQueue, deleteQueue, written, removed := [], [], [], [];
      fetched, upserted, deleted, skipped, failed, maxAt := 0, 0, 0, 0, 0, since;
    }

    method Open(full: bool, mode: Mode, order: seq<Id>) returns (rows: map<Id, Row>)
      requires Idle()
      requires InOrder(Fetched(pg, if full then EPOCH else saved), order)
      modifies this
      ensures Streaming() && Reading(trace.now.job.batch, rows, order, mode)
      ensures forall k :: 0 <= k < |order| ==> order[k] in rows
      ensures saved == old(saved) && begun == trace && failed == 0
      ensures trace.start == old(trace.start) && trace.log == old(trace.log) + [Begin(full, mode, order)]
    {
      hide Lawful, Grown, Apply, Enabled, Timely, Fresh, InOrder;
      var since := if full then EPOCH else saved;
      OrderListsRows(Fetched(pg, since), order);
      rows := Fetched(pg, since);
      Begun(full, mode, order);
      Reset(since);
      trace := After(trace, Begin(full, mode, order));
      GrownNone(trace);
      begun := trace;
    }

    // The state file is written only after every step succeeded.
    method Close(ok: bool)
      requires Stopped()
      requires ok ==> Running([], []) && trace.now.job.batch.phase.DeletesRecorded? && failed == 0
      modifies `saved, `trace
      ensures Idle() && trace.start == old(trace.start)
      ensures saved == if ok then maxAt else old(saved)
      ensures trace.log == old(trace.log) + [if ok then Finish else Crash]
    {
      hide Lawful, Grown, Apply, Enabled, Timely, Fresh;
      if ok {
        Ended(Finish);
        trace := After(trace, Finish);
        saved := maxAt;
      } else {
        Ended(Crash);
        trace := After(trace, Crash);
      }
    }

    // A whole run. The rows arrive in the order the query asks for. Whatever fails,
    // and wherever the process is killed, the rows up to the saved cursor stay in step
    // with the collection; the cursor moves only when every step succeeded. After a full
    // run nobody disturbed, that is the whole table.
    method Run(full: bool, mode: Mode, order: seq<Id>) returns (ok: bool, ghost work: seq<Event>)
      requires Idle()
      requires InOrder(Fetched(pg, if full then EPOCH else saved), order)
      modifies this
      ensures Idle() && trace.start == old(trace.start)
      ensures InStep(pg, qd, saved)
      ensures !ok ==> saved == old(saved)
      ensures NothingFails() ==> ok
      ensures ok ==>
        && trace.log == old(trace.log) + [Begin(full, mode, order)] + work + [Finish]
        && (forall e :: e in work ==> MidRun(e))
        && (full && AllWork(work) ==> forall id :: id in pg ==> pg[id].at <= saved)
    {
      hide Lawful, Grown, Apply, Enabled, Timely, Fresh, AllWork;
      work := [];
      ghost var before := trace;
      var rows := Open(full, mode, order);
      ghost var first := begun;
      var raised := Stream(order, rows, mode);
      ok := false;
      if !raised {
        ok := Conclude(mode);
      }
      work := GrownBy(first, trace);
      Close(ok);
      Settled();
      if ok && full && AllWork(work) {
        FullCovers(before, trace, mode, order, work);
      }
    }

    lemma Begun(full: bool, mode: Mode, order: seq<Id>)
      requires Idle() && InOrder(Fetched(pg, if full then EPOCH else saved), order)
      ensures Enabled(trace.now, Begin(full, mode, order))
      ensures
        var t := After(trace, Begin(full, mode, order));
        && Lawful(t) && Fresh(nextPoint, t.now) && Timely(clock, t.now)
        && t.now == trace.now.(job := Syncing(Start(pg, if full then EPOCH else saved, mode, order)))
    {
      hide Lawful, Grown, Apply, Enabled;
      BeginEffect(trace.now, full, mode, order);
      AfterLawful(trace, Begin(full, mode, order));
      LawfulSettled(trace);
    }

    lemma Ended(e: Event)
      requires Stopped()
      requires e.Crash? || (e.Finish? && trace.now.job.batch.phase.DeletesRecorded? && trace.now.job.batch.failed == 0)
      ensures Enabled(trace.now, e)
      ensures
        var t := After(trace, e);
        && Lawful(t) && Fresh(nextPoint, t.now) && Timely(clock, t.now) && t.now.job.Idle?
        && t.now.pg == pg && t.now.qd == qd && t.now.saved == if e.Finish? then trace.now.job.batch.maxAt else saved
    {
      hide Lawful, Grown, Apply, Enabled;
      StopEffect(trace.now);
      AfterLawful(trace, e);
    }

    lemma Settled()
      requires Idle()
      ensures InStep(pg, qd, saved)
    {
      hide Lawful, Grown;
      LawfulSettled(trace);
      forall a, b | a in pg && b in pg && pg[a].pid.Some? && pg[a].pid == pg[b].pid ensures a == b {
        assert OwnedBy(trace.now, pg[a].pid.value, a) && OwnedBy(trace.now, pg[b].pid.value, b);
      }
    }

    // While a run is at work, every fetched row is in exactly one account.
    lemma Balanced()
      requires Running([], [])
      ensures fetched == upserted + failed + skipped + deleted + trace.now.job.batch.noops + |upsertQueue| +
        |deleteQueue|
      ensures |written| == upserted && |removed| == deleted
    {
      hide Lawful, Grown;
      LawfulSettled(trace);
    }

    // ---------------------------------------------------------------------
    // Reconcile
    // ---------------------------------------------------------------------

    // One page of a set of ids.
    static method Page(left: set<PointId>, limit: nat) returns (page: set<PointId>)
      requires limit >= 1
      ensures page <= left && |page| <= limit && (left != {} ==> page != {})
    {
      page := {};
      while page != left && |page| < limit
        invariant page <= left && |page| <= limit
        decreases limit - |page|
      {
        NonEmpty(left - page);
        var p :| p in left - page;
        page := page + {p};
      }
    }

    // All ids of the collection, page by page.
    static method Scroll(ids: set<PointId>, limit: nat) returns (seen: set<PointId>)
      requires limit >= 1
      ensures seen == ids
    {
      seen := {};
      while seen != ids
        invariant seen <= ids
        decreases ids - seen
      {
        var page := Page(ids - seen, limit);
        seen := seen + page;
      }
    }

    // Removes every point no active row records, a chunk at a time; a chunk that
    // fails may be half deleted and ends the pass.
    method Reconcile() returns (ok: bool)
      requires Idle()
      modifies `qd, `trace
      ensures Idle() && trace.start == old(trace.start)
      ensures forall p :: p in qd ==> p in old(qd) && qd[p] == old(qd)[p]
      ensures forall p :: p in old(qd) && InUse(pg, p) ==> p in qd
      ensures ok ==> qd == Reconciled(pg, old(qd))
      ensures ok ==> forall p :: p in qd <==> p in old(qd) && InUse(pg, p)
      ensures healthy ==> ok
    {
      hide Lawful, Grown, Apply, Enabled, ActiveIds, InUse;
      ActiveAreInUse(pg);
      var keep := ActiveIds(pg);
      var seen := Scroll(qd.Keys, chunkSize);
      var orphans := seen - keep;
      Swept(SweepBegin);
      trace := After(trace, SweepBegin);
      ok := true;
      while orphans != {} && ok
        invariant Ledger() && qd == trace.now.qd && trace.now.job == Sweeping(keep, old(qd).Keys - keep) &&
          trace.start == old(trace.start)
        invariant orphans <= old(qd).Keys - keep
        invariant forall p :: p in qd ==> p in old(qd) && qd[p] == old(qd)[p]
        invariant forall p :: p in old(qd) && p !in qd ==> p !in keep
        invariant ok ==> forall p :: p in qd && p !in keep ==> p in orphans
        invariant healthy ==> ok
        decreases orphans, ok
      {
        var chunk := Page(orphans, chunkSize);
        var answers: bool := *;
        ok := healthy || answers;
        if ok {
          Swept(SweepDelete(chunk));
          trace := After(trace, SweepDelete(chunk));
          qd := qd - chunk;
          orphans := orphans - chunk;
        } else {
          var some: set<PointId> := *;
          some := some * chunk;
          Swept(SweepDelete(some));
          trace := After(trace, SweepDelete(some));
          qd := qd - some;
        }
      }
      if ok {
        ReconciledIs(pg, old(qd), qd);
        Swept(SweepEnd);
        trace := After(trace, SweepEnd);
      } else {
        Swept(Crash);
        trace := After(trace, Crash);
      }
    }

    lemma Swept(e: Event)
      requires Ledger() && qd == trace.now.qd
      requires
        || (e.SweepBegin? && trace.now.job.Idle?)
        || (e.SweepDelete? && trace.now.job.Sweeping? && e.chunk <= trace.now.job.orphans)
        || ((e.SweepEnd? || e.Crash?) && trace.now.job.Sweeping?)
      ensures Enabled(trace.now, e)
      ensures
        var t := After(trace, e);
        && Lawful(t) && Fresh(nextPoint, t.now) && Timely(clock, t.now)
        && t.now.pg == pg && t.now.saved == saved
        && t.now.qd == (if e.SweepDelete? then qd - e.chunk else qd)
        && t.now.job == (if e.SweepBegin? then Sweeping(ActiveIds(pg), qd.Keys - ActiveIds(pg))
                         else if e.SweepDelete? then trace.now.job else Job.Idle)
    {
      hide Lawful, Grown, Apply, Enabled, ActiveIds;
      if e.SweepBegin? {
        SweepEffect(trace.now, {});
      } else if e.SweepDelete? {
        SweepEffect(trace.now, e.chunk);
      } else {
        StopEffect(trace.now);
      }
      AfterLawful(trace, e);
    }
  }
}
