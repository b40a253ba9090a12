// The Postgres-to-Qdrant batch as a state machine: two stores, a saved cursor,
// at most one job at work, and an environment that edits the table meanwhile.
module SyncModel {
  import opened Options

  type Id = int
  type PointId = int

  // updated_at values; a full run starts below every one of them.
  const EPOCH := 0

  datatype Row = Row(sql: string, desc: string, active: bool, at: int, pid: Option<PointId>)

  datatype Payload = Payload(sql: string, desc: string)

  // direct mode skips rows without a description; generate mode asks the
  // language model for one and may record it in the table.
  datatype Mode = Direct | Generate(writeDesc: bool)

  datatype Entry = Entry(id: Id, pid: PointId, sql: string, desc: string)

  datatype Doomed = Doomed(id: Id, pid: Option<PointId>)

  datatype Phase = Streaming | UpsertsRecorded | DeletesRecorded

  datatype Batch = Batch(
    since: int,
    mode: Mode,
    rows: map<Id, Row>,     // what the server-side cursor delivers
    todo: seq<Id>,          // the part not fetched yet, in order
    upsertQueue: seq<Entry>,
    encoded: nat,           // how many of them are embedded and being upserted
    deleteQueue: seq<Doomed>,
    written: seq<Entry>,    // upserted, to be recorded in the table
    removed: seq<Id>,       // deleted, to be recorded in the table
    maxAt: int,
    fetched: nat,
    upserted: nat,
    deleted: nat,
    skipped: nat,
    failed: nat,
    noops: nat,             // inactive rows that never had a point
    phase: Phase,
    minted: set<PointId>    // ids generated by this run, not recorded yet
  )

  datatype Job = Idle | Syncing(batch: Batch) | Sweeping(keep: set<PointId>, orphans: set<PointId>)

  datatype State = State(
    pg: map<Id, Row>,
    qd: map<PointId, Payload>,
    saved: int,                   // last_updated_at of the state file
    job: Job,
    owner: map<PointId, Id>,      // the row each id was generated for
    strays: set<PointId>,         // generated by runs that ended before recording them
    dropped: set<PointId>         // recorded by rows that were hard-deleted
  )

  // ---------------------------------------------------------------------
  // Events
  // ---------------------------------------------------------------------

  datatype Event =
    // the batch
    | Begin(full: bool, mode: Mode, order: seq<Id>)
    | Take(generated: Option<string>, mint: PointId)
    | Encode(k: nat)
    | EncodeFails(k: nat)
    | UpsertTried(applied: set<PointId>)             // a failed attempt, possibly half applied
    | Upsert
    | DeleteTried(applied: set<PointId>)
    | Delete
    | DeleteGivenUp
    | RecordUpsertsTried(committed: bool)            // a failed attempt, possibly committed all the same
    | RecordUpserts
    | RecordDeletesTried(committed: bool)
    | RecordDeletes
    | Finish
    | Crash                                          // also every abort of the batch
    // reconcile
    | SweepBegin
    | SweepDelete(chunk: set<PointId>)
    | SweepEnd
    // the environment
    | Edit(id: Id, row: Row)
    | Remove(id: Id)

  // Rows the incremental query returns.
  function Fetched(pg: map<Id, Row>, since: int): map<Id, Row> {
    map id | id in pg && pg[id].at > since :: pg[id]
  }

  // ORDER BY updated_at, id
  predicate InOrder(rows: map<Id, Row>, order: seq<Id>) {
    && (forall i :: 0 <= i < |order| ==> order[i] in rows)
    && (forall id :: id in rows ==> id in order)
    && (forall i, j :: 0 <= i < j < |order| ==>
          rows[order[i]].at < rows[order[j]].at || (rows[order[i]].at == rows[order[j]].at && order[i] < order[j]))
  }

  function ActiveIds(pg: map<Id, Row>): set<PointId> {
    set id | id in pg && pg[id].active && pg[id].pid.Some? :: pg[id].pid.value
  }

  // A timestamp later than everything the saved cursor or a running batch has seen.
  predicate Beyond(s: State, at: int) {
    && at > s.saved
    && (s.job.Syncing? ==> at > s.job.batch.since && forall id :: id in s.job.batch.rows ==>
      at > s.job.batch.rows[id].at)
  }

  predicate Streams(s: State) {
    s.job.Syncing? && s.job.batch.phase.Streaming?
  }

  // No batch of entries is half way through.
  predicate Waits(s: State) {
    Streams(s) && s.job.batch.encoded == 0
  }

  predicate Upserts(s: State) {
    Streams(s) && 1 <= s.job.batch.encoded <= |s.job.batch.upsertQueue|
  }

  // The streaming loop is over and both queues are flushed.
  predicate Drained(b: Batch) {
    b.todo == [] && b.upsertQueue == [] && b.deleteQueue == []
  }

  function DoomedPoints(q: seq<Doomed>): set<PointId> {
    set k | 0 <= k < |q| && q[k].pid.Some? :: q[k].pid.value
  }

  function EntryPoints(es: seq<Entry>): set<PointId> {
    set k | 0 <= k < |es| :: es[k].pid
  }

  predicate Enabled(s: State, e: Event) {
    match e
    case Begin(full, _, order) => s.job.Idle? && InOrder(Fetched(s.pg, if full then EPOCH else s.saved), order)
    case Take(_, mint) => Waits(s) && s.job.batch.todo != [] && s.job.batch.todo[0] in s.job.batch.rows &&
      mint !in s.owner
    case Encode(k) => Waits(s) && 1 <= k <= |s.job.batch.upsertQueue|
    case EncodeFails(k) => Waits(s) && 1 <= k <= |s.job.batch.upsertQueue|
    case UpsertTried(applied) => Upserts(s) && applied <= EntryPoints(s.job.batch.upsertQueue[..s.job.batch.encoded])
    case Upsert => Upserts(s)
    case DeleteTried(applied) => Waits(s) && applied <= DoomedPoints(s.job.batch.deleteQueue)
    case Delete => Waits(s) && s.job.batch.deleteQueue != []
    case DeleteGivenUp => Waits(s) && DoomedPoints(s.job.batch.deleteQueue) != {}
    case RecordUpsertsTried(_) => s.job.Syncing? && s.job.batch.phase != DeletesRecorded && Drained(s.job.batch)
    case RecordUpserts => s.job.Syncing? && s.job.batch.phase != DeletesRecorded && Drained(s.job.batch)
    case RecordDeletesTried(_) => s.job.Syncing? && s.job.batch.phase != Streaming
    case RecordDeletes => s.job.Syncing? && s.job.batch.phase != Streaming
    case Finish => s.job.Syncing? && s.job.batch.phase == DeletesRecorded && s.job.batch.failed == 0
    case Crash => !s.job.Idle?
    case SweepBegin => s.job.Idle?
    case SweepDelete(chunk) => s.job.Sweeping? && chunk <= s.job.orphans
    case SweepEnd => s.job.Sweeping?
    case Edit(id, row) => Beyond(s, row.at) && row.pid == (if id in s.pg then s.pg[id].pid else None)
    case Remove(id) => id in s.pg
  }

  // ---------------------------------------------------------------------
  // Effects
  // ---------------------------------------------------------------------

  function Start(pg: map<Id, Row>, since: int, mode: Mode, order: seq<Id>): Batch {
    Batch(since, mode, Fetched(pg, since), order, [], 0, [], [], [], since, 0, 0, 0, 0, 0, 0, Streaming, {})
  }

  // The description an active row is embedded with, if it is embedded at all.
  datatype Embedding = Skip | Fail | Embed(desc: string)

  function Describe(row: Row, mode: Mode, generated: Option<string>): Embedding {
    if row.desc == "" && row.sql == "" then Skip
    else if row.desc != "" then Embed(row.desc)
    else if mode.Generate? then (if generated.Some? then Embed(row.sql + " | " + generated.value) else Fail)
    else Skip
  }

  function TakeRow(b: Batch, generated: Option<string>, mint: PointId): Batch
    requires b.todo != [] && b.todo[0] in b.rows
  {
    var id := b.todo[0];
    var row := b.rows[id];
    var b0 := b.(todo := b.todo[1..], fetched := b.fetched + 1, maxAt := row.at);
    if row.active then
      match Describe(row, b.mode, generated)
      case Skip => b0.(skipped := b.skipped + 1)
      case Fail => b0.(failed := b.failed + 1)
      case Embed(desc) =>
        var pid := if row.pid.Some? then row.pid.value else mint;
        b0.(upsertQueue := b.upsertQueue + [Entry(id, pid, row.sql, desc)],
            minted := if row.pid.Some? then b.minted else b.minted + {mint})
    else b0.(deleteQueue := b.deleteQueue + [Doomed(id, row.pid)])
  }

  // Whether the row at the head of the stream gets a freshly generated id.
  predicate Mints(b: Batch, generated: Option<string>)
    requires b.todo != [] && b.todo[0] in b.rows
  {
    var row := b.rows[b.todo[0]];
    row.active && row.pid.None? && Describe(row, b.mode, generated).Embed?
  }

  function Put(qd: map<PointId, Payload>, es: seq<Entry>, applied: set<PointId>): map<PointId, Payload>
    decreases |es|
  {
    if es == [] then qd
    else
      var e := es[0];
      Put(if e.pid in applied then qd[e.pid := Payload(e.sql, e.desc)] else qd, es[1..], applied)
  }

  function Doom(ids: seq<Doomed>): seq<Id> {
    if ids == [] then []
    else (if ids[0].pid.Some? then [ids[0].id] else []) + Doom(ids[1..])
  }

  // UPDATE ... SET qdrant_point_id (and the description) WHERE id, row by row in one transaction.
  function RecordEntries(pg: map<Id, Row>, es: seq<Entry>, writeDesc: bool): map<Id, Row>
    decreases |es|
  {
    if es == [] then pg
    else
      var e := es[0];
      var pg1 := if e.id in pg
        then pg[e.id := pg[e.id].(pid := Some(e.pid), desc := if writeDesc then e.desc else pg[e.id].desc)]
        else pg;
      RecordEntries(pg1, es[1..], writeDesc)
  }

  // UPDATE ... SET qdrant_point_id = NULL WHERE id = ANY
  function ClearPoints(pg: map<Id, Row>, ids: seq<Id>): map<Id, Row> {
    map id | id in pg :: if id in ids then pg[id].(pid := None) else pg[id]
  }

  predicate WritesDesc(mode: Mode) {
    mode.Generate? && mode.writeDesc
  }

  // Points written for rows that no longer exist when they are to be recorded.
  function Unrecordable(pg: map<Id, Row>, es: seq<Entry>): set<PointId> {
    set k | 0 <= k < |es| && es[k].id !in pg :: es[k].pid
  }

  function CommitUpserts(s: State): State
    requires s.job.Syncing?
  {
    var b := s.job.batch;
    s.(pg := RecordEntries(s.pg, b.written, WritesDesc(b.mode)),
       dropped := s.dropped + Unrecordable(s.pg, b.written),
       job := Syncing(b.(phase := UpsertsRecorded, minted := {})))
  }

  function CommitDeletes(s: State): State
    requires s.job.Syncing?
  {
    var b := s.job.batch;
    s.(pg := ClearPoints(s.pg, b.removed), job := Syncing(b.(phase := DeletesRecorded)))
  }

  function Apply(s: State, e: Event): State
    requires Enabled(s, e)
  {
    match e
    case Begin(full, mode, order) =>
      s.(job := Syncing(Start(s.pg, if full then EPOCH else s.saved, mode, order)))
    case Take(generated, mint) =>
      var b := s.job.batch;
      s.(job := Syncing(TakeRow(b, generated, mint)),
         owner := if Mints(b, generated) then s.owner[mint := b.todo[0]] else s.owner)
    case EncodeFails(k) =>
      var b := s.job.batch;
      s.(job := Syncing(b.(upsertQueue := b.upsertQueue[k..], failed := b.failed + k)))
    case Encode(k) => s.(job := Syncing(s.job.batch.(encoded := k)))
    case UpsertTried(applied) =>
      var b := s.job.batch;
      s.(qd := Put(s.qd, b.upsertQueue[..b.encoded], applied))
    case Upsert =>
      var b := s.job.batch;
      var batch := b.upsertQueue[..b.encoded];
      s.(qd := Put(s.qd, batch, EntryPoints(batch)),
         job := Syncing(b.(upsertQueue := b.upsertQueue[b.encoded..], encoded := 0,
                           upserted := b.upserted + b.encoded, written := b.written + batch)))
    case DeleteTried(applied) => s.(qd := s.qd - applied)
    case Delete =>
      var b := s.job.batch;
      var gone := Doom(b.deleteQueue);
      DoomLength(b.deleteQueue);
      s.(qd := s.qd - DoomedPoints(b.deleteQueue),
         job := Syncing(b.(deleteQueue := [], deleted := b.deleted + |gone|, removed := b.removed + gone,
                           noops := b.noops + |b.deleteQueue| - |gone|)))
    case DeleteGivenUp =>
      var b := s.job.batch;
      s.(job := Syncing(b.(deleteQueue := [], failed := b.failed + |b.deleteQueue|)))
    case RecordUpsertsTried(committed) => if committed then CommitUpserts(s) else s
    case RecordUpserts => CommitUpserts(s)
    case RecordDeletesTried(committed) => if committed then CommitDeletes(s) else s
    case RecordDeletes => CommitDeletes(s)
    case Finish => s.(saved := s.job.batch.maxAt, job := Idle)
    case Crash => s.(strays := if s.job.Syncing? then s.strays + s.job.batch.minted else s.strays, job := Idle)
    case SweepBegin => s.(job := Sweeping(ActiveIds(s.pg), s.qd.Keys - ActiveIds(s.pg)))
    case SweepDelete(chunk) => s.(qd := s.qd - chunk)
    case SweepEnd => s.(job := Idle)
    case Edit(id, row) => s.(pg := s.pg[id := row])
    case Remove(id) =>
      s.(pg := s.pg - {id}, dropped := if s.pg[id].pid.Some? then s.dropped + {s.pg[id].pid.value} else s.dropped)
  }

  lemma DoomLength(q: seq<Doomed>)
    ensures |Doom(q)| <= |q|
  {
  }

  // ---------------------------------------------------------------------
  // Histories
  // ---------------------------------------------------------------------

  // A table of rows never synchronised, an empty collection, no state file.
  predicate Init(s: State) {
    && s.qd == map[] && s.owner == map[] && s.saved == EPOCH && s.job.Idle? && s.strays == {} && s.dropped == {}
    && forall id :: id in s.pg ==> s.pg[id].pid.None? && s.pg[id].at > EPOCH
  }

  predicate Legal(s: State, es: seq<Event>)
    decreases |es|
  {
    es == [] || (Enabled(s, es[0]) && Legal(Apply(s, es[0]), es[1..]))
  }

  function Replay(s: State, es: seq<Event>): State
    requires Legal(s, es)
    decreases |es|
  {
    if es == [] then s else Replay(Apply(s, es[0]), es[1..])
  }

  lemma {:induction false} ReplayPush(s: State, es: seq<Event>, e: Event)
    requires Legal(s, es) && Enabled(Replay(s, es), e)
    ensures Legal(s, es + [e]) && Replay(s, es + [e]) == Apply(Replay(s, es), e)
    decreases |es|
  {
    hide Apply, Enabled;
    if es == [] {
      assert [e][1..] == [] && es + [e] == [e];
      assert Legal(Apply(s, e), []);
    } else {
      assert (es + [e])[1..] == es[1..] + [e];
      ReplayPush(Apply(s, es[0]), es[1..], e);
    }
  }
}
