/** The write-ahead log under many writers, statement by statement, with commits, rollbacks and crashes. */
module WriteAhead {
  import opened Prelude
  import opened Events
  import opened Tables

  datatype Op =
    | StartRun(run: Id, territory: string, costCeiling: Option<int>, maxIterations: Option<int>)
    | Append(run: Id, event: Event)
    | Capture(run: Id, prey: Id, territory: string, posting: string)
    | Submit(verdict: VerdictEvent, job: Id)
    | Finish(run: Id, outcome: Outcome, reason: Option<AbortReason>)
    | Sweep
    | Claim(job: Id)
    | Complete(job: Id, result: string)
    | Requeue

  /** The number of statements the operation runs before it commits. */
  function Stages(op: Op): nat {
    match op
    case Capture(_, _, _, _) => 2
    case Submit(e, _) => if e.verdict.Feast? then 3 else 2
    case _ => 1
  }

  /** The operation's statement number `k`, run on the pending tables. */
  function Exec(t: Tables, op: Op, now: Time, k: nat): Result<Tables, DbError>
    requires k < Stages(op)
  {
    match op
    case StartRun(run, territory, ceiling, iterations) => Ok(InsertRun(t, run, territory, now, ceiling, iterations))
    case Append(run, event) => InsertEvent(t, run, event, now)
    case Capture(run, prey, territory, posting) =>
      if k == 0 then InsertEvent(t, run, PreyCaptured(prey, territory, posting), now)
      else Ok(InsertPrey(t, prey, run, territory, posting, now))
    case Submit(e, job) =>
      if k == 0 then Ok(UpdatePrey(t, e, now))
      else if k == 1 then Ok(InsertPen(t, e))
      else Ok(InsertJob(t, job, e.preyId, now))
    case Finish(run, outcome, reason) => Ok(CloseRun(t, run, outcome, reason, now))
    case Sweep => Ok(SweepRuns(t))
    case Claim(job) => Ok(t.(jobs := MarkRunning(t.jobs, job)))
    case Complete(job, result) => Ok(t.(jobs := MarkDone(t.jobs, job, result)))
    case Requeue => Ok(t.(jobs := Requeued(t.jobs)))
  }

  /** The pending tables after the first `k` statements. */
  function Staged(t: Tables, op: Op, now: Time, k: nat): Result<Tables, DbError>
    requires k <= Stages(op)
  {
    if k == 0 then Ok(t)
    else
      var before := Staged(t, op, now, k - 1);
      if before.Err? then before else Exec(before.value, op, now, k - 1)
  }

  function Apply(t: Tables, op: Op, now: Time): Result<Tables, DbError> { Staged(t, op, now, Stages(op)) }

  /**
   What the callers guarantee: uuid4 ids are new, RELEASE carries a reason, and a verdict whose
   guarded UPDATE matches no row is rolled back before anything else is written. Only capture_prey
   writes a PreyCapturedEvent.
   */
  predicate Admissible(t: Tables, op: Op) {
    match op
    case StartRun(run, _, _, _) => !RunExists(t, run)
    case Append(_, event) => !event.PreyCaptured?
    case Capture(_, prey, _, _) => forall i | 0 <= i < |t.prey| :: t.prey[i].id != prey
    case Submit(e, job) =>
      && MatchCount(t.prey, e.preyId, e.verdict) == 1
      && (e.verdict.Release? ==> e.reason.Some?)
      && (forall i | 0 <= i < |t.jobs| :: t.jobs[i].id != job)
    case _ => true
  }

  datatype Txn = Txn(conn: nat, op: Op, now: Time, done: nat, pending: Tables)

  datatype Db = Db(committed: Tables, open: Option<Txn>)

  datatype Action = Begin(conn: nat, op: Op, now: Time) | Proceed(conn: nat) | Commit(conn: nat) | Discard

  predicate Enabled(s: Db, a: Action) {
    match a
    case Begin(_, op, now) =>
      s.open.None? && Admissible(s.committed, op) && Exec(s.committed, op, now, 0).Ok?
    case Proceed(conn) =>
      && s.open.Some?
      && var x := s.open.value;
      x.conn == conn && x.done < Stages(x.op) && Exec(x.pending, x.op, x.now, x.done).Ok?
    case Commit(conn) =>
      s.open.Some? && s.open.value.conn == conn && s.open.value.done == Stages(s.open.value.op)
    case Discard => true
  }

  function Step(s: Db, a: Action): Db
    requires Enabled(s, a)
  {
    match a
    case Begin(conn, op, now) => s.(open := Some(Txn(conn, op, now, 1, Exec(s.committed, op, now, 0).value)))
    case Proceed(_) =>
      var x := s.open.value;
      s.(open := Some(x.(done := x.done + 1, pending := Exec(x.pending, x.op, x.now, x.done).value)))
    case Commit(_) => Db(s.open.value.pending, None)
    case Discard => s.(open := None)
  }

  /** The database after an interleaving of steps of any connections; None if one is not enabled. */
  function After(acts: seq<Action>): Option<Db> {
    if |acts| == 0 then Some(Db(EMPTY, None))
    else
      var before := After(acts[..|acts| - 1]);
      var a := acts[|acts| - 1];
      if before.Some? && Enabled(before.value, a) then Some(Step(before.value, a)) else None
  }

  /** Readers never see part of an operation: each commit installs one whole operation on the last. */
  predicate WholeOps(s: Db) {
    s.open.Some? ==>
      && 1 <= s.open.value.done <= Stages(s.open.value.op)
      && Admissible(s.committed, s.open.value.op)
      && Staged(s.committed, s.open.value.op, s.open.value.now, s.open.value.done) == Ok(s.open.value.pending)
  }

  lemma {:induction false} StepKeepsWholeOps(s: Db, a: Action)
    requires WholeOps(s) && Enabled(s, a)
    ensures WholeOps(Step(s, a))
    ensures Step(s, a).committed == s.committed ||
            (a.Commit? && Admissible(s.committed, s.open.value.op) &&
             Apply(s.committed, s.open.value.op, s.open.value.now) == Ok(Step(s, a).committed))
  {
    if a.Begin? {
      assert Staged(s.committed, a.op, a.now, 0) == Ok(s.committed);
      assert Staged(s.committed, a.op, a.now, 1) == Exec(s.committed, a.op, a.now, 0);
    }
  }

  lemma {:induction false} AfterWholeOps(acts: seq<Action>)
    requires After(acts).Some?
    ensures WholeOps(After(acts).value)
  {
    if |acts| == 0 {
    } else {
      AfterWholeOps(acts[..|acts| - 1]);
      StepKeepsWholeOps(After(acts[..|acts| - 1]).value, acts[|acts| - 1]);
    }
  }

  // ----- the dual cursor -----

  /** The run's committed seqs are exactly 0..n-1, in insertion order. */
  predicate Dense(rows: seq<EventRow>, run: Id) {
    forall k | 0 <= k < |RunRows(rows, run)| :: RunRows(rows, run)[k].seqNo == k
  }

  predicate Ascending(rows: seq<EventRow>) {
    && (forall i | 0 <= i < |rows| :: 0 < rows[i].id)
    && (forall i, j | 0 <= i < j < |rows| :: rows[i].id < rows[j].id)
  }

  ghost predicate DualCursor(rows: seq<EventRow>) { Ascending(rows) && forall run :: Dense(rows, run) }

  lemma {:induction false} RunRowsHas(rows: seq<EventRow>, i: nat)
    requires i < |rows|
    ensures rows[i] in RunRows(rows, rows[i].runId)
  {
    if i == |rows| - 1 {
    } else {
      RunRowsHas(rows[..|rows| - 1], i);
    }
  }

  lemma {:induction false} RunRowsFrom(rows: seq<EventRow>, run: Id)
    ensures forall k | 0 <= k < |RunRows(rows, run)| ::
      RunRows(rows, run)[k] in rows && RunRows(rows, run)[k].runId == run
    ensures Ascending(rows) ==> Ascending(RunRows(rows, run))
  {
    if |rows| == 0 {
    } else {
      RunRowsFrom(rows[..|rows| - 1], run);
    }
  }

  lemma {:induction false} NoRowsNoLog(rows: seq<EventRow>, run: Id)
    requires forall i | 0 <= i < |rows| :: rows[i].runId != run
    ensures RunRows(rows, run) == []
  {
    if |rows| == 0 {
    } else {
      NoRowsNoLog(rows[..|rows| - 1], run);
    }
  }

  lemma {:induction false} RunRowsSnoc(rows: seq<EventRow>, row: EventRow, run: Id)
    ensures RunRows(rows + [row], run) == if row.runId == run then RunRows(rows, run) + [row] else RunRows(rows, run)
    ensures RunLog(rows + [row], run) == if row.runId == run then RunLog(rows, run) + [row.event] else RunLog(rows, run)
  {
    assert (rows + [row])[..|rows|] == rows;
  }

  lemma {:induction false} DensePrefix(rows: seq<EventRow>, run: Id)
    requires |rows| > 0 && Dense(rows, run)
    ensures Dense(rows[..|rows| - 1], run)
  {
    var rest := RunRows(rows[..|rows| - 1], run);
    forall k | 0 <= k < |rest| ensures rest[k].seqNo == k {
      assert RunRows(rows, run)[k] == rest[k];
    }
  }

  /** MAX(seq) + 1 scoped to the run counts the run's rows. */
  lemma {:induction false} NextSeqIsCount(rows: seq<EventRow>, run: Id)
    requires Dense(rows, run)
    ensures NextSeq(rows, run) == |RunRows(rows, run)|
    ensures MaxSeq(rows, run).Some? <==> RunRows(rows, run) != []
  {
    if |rows| == 0 {
    } else {
      DensePrefix(rows, run);
      NextSeqIsCount(rows[..|rows| - 1], run);
      if rows[|rows| - 1].runId == run {
        assert RunRows(rows, run)[|RunRows(rows, run)| - 1] == rows[|rows| - 1];
      }
    }
  }

  /** A new row never meets UNIQUE (run_id, seq), and keeps both cursors. */
  lemma {:induction false} NewRowKeepsDualCursor(rows: seq<EventRow>, run: Id, event: Event, now: Time)
    requires DualCursor(rows)
    ensures !Collides(rows, NewRow(rows, run, event, now))
    ensures DualCursor(rows + [NewRow(rows, run, event, now)])
  {
    var row := NewRow(rows, run, event, now);
    NextSeqIsCount(rows, run);
    forall i | 0 <= i < |rows| && rows[i].runId == run ensures rows[i].seqNo != row.seqNo {
      RunRowsHas(rows, i);
    }
    forall r ensures Dense(rows + [row], r) {
      RunRowsSnoc(rows, row, r);
      assert Dense(rows, r);
    }
  }

  lemma {:induction false} InsertEventOk(t: Tables, run: Id, event: Event, now: Time)
    requires DualCursor(t.events) && RunExists(t, run)
    ensures InsertEvent(t, run, event, now).Ok?
    ensures DualCursor(InsertEvent(t, run, event, now).value.events)
  {
    NewRowKeepsDualCursor(t.events, run, event, now);
  }

  lemma {:induction false} ApplyKeepsDualCursor(t: Tables, op: Op, now: Time)
    requires DualCursor(t.events) && Apply(t, op, now).Ok?
    ensures DualCursor(Apply(t, op, now).value.events)
  {
    match op
    case Append(run, event) =>
      NewRowKeepsDualCursor(t.events, run, event, now);
      assert Staged(t, op, now, 1) == Exec(t, op, now, 0);
    case Capture(run, prey, territory, posting) =>
      NewRowKeepsDualCursor(t.events, run, PreyCaptured(prey, territory, posting), now);
      assert Staged(t, op, now, 1) == Exec(t, op, now, 0);
      assert Staged(t, op, now, 2) == Exec(Staged(t, op, now, 1).value, op, now, 1);
    case Submit(e, _) =>
      assert Staged(t, op, now, 1) == Exec(t, op, now, 0);
      assert Staged(t, op, now, 2) == Exec(Staged(t, op, now, 1).value, op, now, 1);
    case _ =>
      assert Staged(t, op, now, 1) == Exec(t, op, now, 0);
  }

  /** Ordering by id and ordering by seq agree within a run. */
  lemma {:induction false} CursorsAgree(rows: seq<EventRow>, i: nat, j: nat)
    requires DualCursor(rows) && i < j < |rows| && rows[i].runId == rows[j].runId
    ensures rows[i].id < rows[j].id && rows[i].seqNo < rows[j].seqNo
  {
    var upto := rows[..j + 1];
    var run := rows[j].runId;
    DenseUpto(rows, run, j + 1);
    assert upto[..j] == rows[..j];
    RunRowsHas(rows[..j], i);
    assert RunRows(upto, run)[|RunRows(rows[..j], run)|] == rows[j];
    assert forall k | 0 <= k < |RunRows(rows[..j], run)| :: RunRows(upto, run)[k] == RunRows(rows[..j], run)[k];
  }

  lemma {:induction false} DenseUpto(rows: seq<EventRow>, run: Id, n: nat)
    requires Dense(rows, run) && n <= |rows|
    ensures Dense(rows[..n], run)
    decreases |rows|
  {
    if n < |rows| {
      DensePrefix(rows, run);
      DenseUpto(rows[..|rows| - 1], run, n);
      assert rows[..|rows| - 1][..n] == rows[..n];
    } else {
      assert rows[..n] == rows;
    }
  }

  /**
   In every state any interleaving of writers and crashes can reach: ids strictly increase, each
   run's seqs are 0..n-1, the two orders agree within a run, UNIQUE (run_id, seq) holds, and the
   next insert for any open run cannot violate it.
   */
  lemma {:induction false} DualCursorAlways(acts: seq<Action>)
    requires After(acts).Some?
    ensures var rows := After(acts).value.committed.events;
      && DualCursor(rows)
      && (forall i, j | 0 <= i < j < |rows| && rows[i].runId == rows[j].runId ::
            rows[i].id < rows[j].id && rows[i].seqNo < rows[j].seqNo)
      && (forall run, event, now :: !Collides(rows, NewRow(rows, run, event, now)))
  {
    if |acts| == 0 {
    } else {
      var before := After(acts[..|acts| - 1]).value;
      var a := acts[|acts| - 1];
      DualCursorAlways(acts[..|acts| - 1]);
      AfterWholeOps(acts[..|acts| - 1]);
      StepKeepsWholeOps(before, a);
      if Step(before, a).committed != before.committed {
        ApplyKeepsDualCursor(before.committed, before.open.value.op, before.open.value.now);
      }
    }
    var rows := After(acts).value.committed.events;
    assert DualCursor(rows);
    forall i, j | 0 <= i < j < |rows| && rows[i].runId == rows[j].runId
      ensures rows[i].id < rows[j].id && rows[i].seqNo < rows[j].seqNo
    {
      CursorsAgree(rows, i, j);
    }
    forall run, event, now ensures !Collides(rows, NewRow(rows, run, event, now)) {
      NewRowKeepsDualCursor(rows, run, event, now);
    }
  }

  /** On such tables the seq-ordered replay read is the run's rows in global id order. */
  lemma {:induction false} ReplayIsRunLog(t: Tables, run: Id)
    requires DualCursor(t.events)
    ensures OrderBy(ById, t.events) == t.events
    ensures OrderBy(BySeq, RunRows(t.events, run)) == RunRows(OrderBy(ById, t.events), run)
    ensures ReadEvents(t, run) == RunLog(t.events, run)
  {
    assert Dense(t.events, run);
    OrderBySorted(ById, t.events);
    OrderBySorted(BySeq, RunRows(t.events, run));
  }
}
