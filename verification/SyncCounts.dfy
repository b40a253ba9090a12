// What a run counts as skipped and as failed, row by row.
module SyncCounts {
  import opened Options
  import opened SyncModel
  import opened SyncInvariant

  // Nothing to embed: no text at all, or in direct mode no description.
  predicate HasNothing(row: Row, mode: Mode) {
    row.active && row.desc == "" && (row.sql == "" || mode == Direct)
  }

  // The language model is asked for a description.
  predicate IsAsked(row: Row, mode: Mode) {
    row.active && row.desc == "" && row.sql != "" && mode != Direct
  }

  // The rows taken that had nothing to embed.
  function Passed(b: Batch): set<Id> {
    set id | id in b.rows && id !in b.todo && HasNothing(b.rows[id], b.mode)
  }

  // The rows an event makes a run count as failed: one for which no description was
  // generated, a batch that cannot be embedded, the deletions given up.
  function Failures(s: State, e: Event): nat
    requires Enabled(s, e)
  {
    match e
    case Take(generated, _) =>
      var b := s.job.batch;
      if IsAsked(b.rows[b.todo[0]], b.mode) && generated == None then 1 else 0
    case EncodeFails(k) => k
    case DeleteGivenUp => |s.job.batch.deleteQueue|
    case _ => 0
  }

  function FailedNext(s: State, e: Event, failed: nat): nat
    requires Enabled(s, e)
  {
    if e.Begin? then 0 else failed + Failures(s, e)
  }

  // The failures since the run at work began.
  function FailedAfter(s: State, es: seq<Event>, failed: nat): nat
    requires Legal(s, es)
    decreases |es|
  {
    if es == [] then failed else FailedAfter(Apply(s, es[0]), es[1..], FailedNext(s, es[0], failed))
  }

  ghost predicate Counts(s: State, failed: nat) {
    s.job.Syncing? ==> s.job.batch.failed == failed && s.job.batch.skipped == |Passed(s.job.batch)|
  }

  lemma TakeCounts(b: Batch, generated: Option<string>, mint: PointId)
    requires b.todo != [] && b.todo[0] in b.rows && b.todo[0] !in b.todo[1..]
    ensures
      var b', id := TakeRow(b, generated, mint), b.todo[0];
      && b'.rows == b.rows && b'.mode == b.mode && b'.todo == b.todo[1..]
      && Passed(b') == Passed(b) + (if HasNothing(b.rows[id], b.mode) then {id} else {})
      && b.todo[0] !in Passed(b)
      && b'.skipped == b.skipped + (if HasNothing(b.rows[id], b.mode) then 1 else 0)
      && b'.failed == b.failed + (if IsAsked(b.rows[id], b.mode) && generated == None then 1 else 0)
  {
  }

  lemma NonePassed(pg: map<Id, Row>, since: int, mode: Mode, order: seq<Id>)
    requires InOrder(Fetched(pg, since), order)
    ensures Passed(Start(pg, since, mode, order)) == {}
  {
    hide Fetched;
    var b := Start(pg, since, mode, order);
    forall id ensures id !in Passed(b) {
      assert id in b.rows ==> id in b.todo;
    }
  }

  lemma StepCounts(s: State, e: Event, failed: nat)
    requires Inv(s) && Enabled(s, e) && Counts(s, failed)
    ensures Counts(Apply(s, e), FailedNext(s, e, failed))
  {
    hide Inv, Counts, Enabled, Apply, FailedNext;
    if e.Begin? {
      BeginCounts(s, e, failed);
    } else if e.Take? {
      TakeStepCounts(s, e, failed);
    } else {
      OtherCounts(s, e, failed);
    }
  }

  lemma BeginCounts(s: State, e: Event, failed: nat)
    requires e.Begin? && Enabled(s, e)
    ensures Counts(Apply(s, e), FailedNext(s, e, failed))
  {
    hide Fetched, InOrder, Passed;
    NonePassed(s.pg, if e.full then EPOCH else s.saved, e.mode, e.order);
  }

  lemma TakeStepCounts(s: State, e: Event, failed: nat)
    requires Inv(s) && e.Take? && Enabled(s, e) && Counts(s, failed)
    ensures Counts(Apply(s, e), FailedNext(s, e, failed))
  {
    hide Inv, TakeRow, Passed;
    TodoDistinct(s);
    TakeCounts(s.job.batch, e.generated, e.mint);
  }

  // No other event takes a row.
  lemma OtherCounts(s: State, e: Event, failed: nat)
    requires !e.Begin? && !e.Take? && Enabled(s, e) && Counts(s, failed)
    ensures Counts(Apply(s, e), FailedNext(s, e, failed))
  {
    hide Put, Passed, ActiveIds, RecordEntries, ClearPoints, Unrecordable, DoomedPoints, EntryPoints, Doom, Beyond;
    if s.job.Syncing? && Apply(s, e).job.Syncing? {
      SamePassed(s.job.batch, Apply(s, e).job.batch);
    }
  }

  lemma TodoDistinct(s: State)
    requires Inv(s) && Streams(s) && s.job.batch.todo != []
    ensures s.job.batch.todo[0] !in s.job.batch.todo[1..]
  {
  }

  lemma SamePassed(b: Batch, b': Batch)
    ensures b'.rows == b.rows && b'.todo == b.todo && b'.mode == b.mode ==> Passed(b') == Passed(b)
  {
  }

  // In every run, after any history: the rows counted as skipped are those taken that had
  // nothing to embed, and those counted as failed are the failures that happened.
  lemma {:induction false} RunCounts(s: State, es: seq<Event>, failed: nat)
    requires Inv(s) && Legal(s, es) && Counts(s, failed)
    ensures Counts(Replay(s, es), FailedAfter(s, es, failed))
    decreases |es|
  {
    hide Inv, Counts, Apply, Enabled;
    if es != [] {
      StepKeeps(s, es[0]);
      StepCounts(s, es[0], failed);
      RunCounts(Apply(s, es[0]), es[1..], FailedNext(s, es[0], failed));
    }
  }

  lemma CountsOf(s0: State, es: seq<Event>)
    requires Init(s0) && Legal(s0, es) && Replay(s0, es).job.Syncing?
    ensures
      var b := Replay(s0, es).job.batch;
      && b.failed == FailedAfter(s0, es, 0)
      && b.skipped == |Passed(b)|
      && (b.phase == DeletesRecorded ==> (Enabled(Replay(s0, es), Finish) <==> FailedAfter(s0, es, 0) == 0))
  {
    hide Inv, Legal, Replay, FailedAfter;
    InitInv(s0);
    RunCounts(s0, es, 0);
  }
}
