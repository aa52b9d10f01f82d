/** The committed tables and the SQL statements the writers run on them, as values. */
module Tables {
  import opened Prelude
  import opened Events

  type Time = nat

  datatype Outcome = Completed | Aborted | NeedsHelp | Crashed

  datatype AbortReason =
    | CostCeiling | BrainCallFailed | ToolFailure | MaxIterations
    | DaemonShutdown | MalformedResponse | UnhandledException

  datatype RunRow = RunRow(id: Id, territory: string, startedAt: Time, endedAt: Option<Time>,
                           outcome: Option<Outcome>, abortReason: Option<AbortReason>,
                           costCeiling: Option<int>, maxIterations: Option<int>)

  datatype EventRow = EventRow(id: nat, runId: Id, seqNo: nat, event: Event, createdAt: Time)

  datatype Status = Awaiting | Feasted | Released | Ambered

  datatype PreyRow = PreyRow(id: Id, runId: Id, territory: string, posting: string, status: Status,
                             capturedAt: Time, decidedAt: Option<Time>,
                             reason: Option<string>, provenance: Option<string>)

  datatype JobStatus = Queued | Running | Done

  datatype JobRow = JobRow(id: Id, preyId: Id, status: JobStatus, result: Option<string>, createdAt: Time)

  datatype Tables = Tables(runs: seq<RunRow>, events: seq<EventRow>, prey: seq<PreyRow>,
                           pen: seq<VerdictEvent>, jobs: seq<JobRow>)

  const EMPTY := Tables([], [], [], [], [])

  // ----- trajectory_events -----

  /** The rows of one run, in insertion order. */
  function RunRows(rows: seq<EventRow>, run: Id): seq<EventRow> {
    if |rows| == 0 then []
    else
      var rest := RunRows(rows[..|rows| - 1], run);
      if rows[|rows| - 1].runId == run then rest + [rows[|rows| - 1]] else rest
  }

  function EventsOf(rows: seq<EventRow>): seq<Event> {
    seq(|rows|, i requires 0 <= i < |rows| => rows[i].event)
  }

  function RunLog(rows: seq<EventRow>, run: Id): seq<Event> { EventsOf(RunRows(rows, run)) }

  /** MAX(seq) over the rows of one run; NULL when it has none. */
  function MaxSeq(rows: seq<EventRow>, run: Id): Option<nat> {
    if |rows| == 0 then None
    else
      var rest := MaxSeq(rows[..|rows| - 1], run);
      var last := rows[|rows| - 1];
      if last.runId == run && (rest.None? || rest.value < last.seqNo) then Some(last.seqNo) else rest
  }

  /** COALESCE(MAX(seq) + 1, 0), scoped to the run. */
  function NextSeq(rows: seq<EventRow>, run: Id): nat {
    match MaxSeq(rows, run)
    case None => 0
    case Some(m) => m + 1
  }

  /** AUTOINCREMENT: one more than the largest id handed out. */
  function NextId(rows: seq<EventRow>): nat {
    if |rows| == 0 then 1 else rows[|rows| - 1].id + 1
  }

  function NewRow(rows: seq<EventRow>, run: Id, event: Event, now: Time): EventRow {
    EventRow(NextId(rows), run, NextSeq(rows, run), event, now)
  }

  predicate RunExists(t: Tables, run: Id) { exists i | 0 <= i < |t.runs| :: t.runs[i].id == run }

  /** UNIQUE (run_id, seq) would reject this row. */
  predicate Collides(rows: seq<EventRow>, row: EventRow) {
    exists i | 0 <= i < |rows| :: rows[i].runId == row.runId && rows[i].seqNo == row.seqNo
  }

  datatype DbError = ForeignKeyViolated | UniqueViolated

  function InsertEvent(t: Tables, run: Id, event: Event, now: Time): Result<Tables, DbError> {
    var row := NewRow(t.events, run, event, now);
    if !RunExists(t, run) then Err(ForeignKeyViolated)
    else if Collides(t.events, row) then Err(UniqueViolated)
    else Ok(t.(events := t.events + [row]))
  }

  /** The two cursors a reader may order by. */
  datatype Cursor = ById | BySeq

  function Key(c: Cursor, row: EventRow): nat { if c.ById? then row.id else row.seqNo }

  function InsertSorted(c: Cursor, row: EventRow, rows: seq<EventRow>): seq<EventRow> {
    if |rows| == 0 || Key(c, rows[|rows| - 1]) <= Key(c, row) then rows + [row]
    else InsertSorted(c, row, rows[..|rows| - 1]) + [rows[|rows| - 1]]
  }

  /** ORDER BY the chosen cursor. */
  function OrderBy(c: Cursor, rows: seq<EventRow>): seq<EventRow> {
    if |rows| == 0 then [] else InsertSorted(c, rows[|rows| - 1], OrderBy(c, rows[..|rows| - 1]))
  }

  predicate SortedBy(c: Cursor, rows: seq<EventRow>) {
    forall i, j | 0 <= i < j < |rows| :: Key(c, rows[i]) <= Key(c, rows[j])
  }

  lemma {:induction false} OrderBySorted(c: Cursor, rows: seq<EventRow>)
    requires SortedBy(c, rows)
    ensures OrderBy(c, rows) == rows
  {
    if |rows| == 0 {
    } else {
      OrderBySorted(c, rows[..|rows| - 1]);
    }
  }

  /** The replay read of one run: its events ordered by the seq cursor. */
  function ReadEvents(t: Tables, run: Id): seq<Event> {
    EventsOf(OrderBy(BySeq, RunRows(t.events, run)))
  }

  /** Every run's usage events, in id order. */
  function UsageLog(rows: seq<EventRow>): seq<Event> {
    if |rows| == 0 then []
    else
      var rest := UsageLog(rows[..|rows| - 1]);
      if rows[|rows| - 1].event.Usage? then rest + [rows[|rows| - 1].event] else rest
  }

  function ReadUsage(t: Tables): seq<Event> { UsageLog(OrderBy(ById, t.events)) }

  // ----- runs -----

  function InsertRun(t: Tables, run: Id, territory: string, now: Time,
                     costCeiling: Option<int>, maxIterations: Option<int>): Tables {
    t.(runs := t.runs + [RunRow(run, territory, now, None, None, None, costCeiling, maxIterations)])
  }

  /** UPDATE runs ... WHERE id = ? AND outcome IS NULL. */
  function CloseRun(t: Tables, run: Id, outcome: Outcome, reason: Option<AbortReason>, now: Time): Tables {
    t.(runs := seq(|t.runs|, i requires 0 <= i < |t.runs| =>
      var r := t.runs[i];
      if r.id == run && r.outcome.None?
      then r.(endedAt := Some(now), outcome := Some(outcome), abortReason := reason) else r))
  }

  function LastEventAt(rows: seq<EventRow>, run: Id): Option<Time> {
    if |rows| == 0 then None
    else
      var rest := LastEventAt(rows[..|rows| - 1], run);
      var last := rows[|rows| - 1];
      if last.runId == run && (rest.None? || rest.value < last.createdAt) then Some(last.createdAt) else rest
  }

  /** A crashed run ends at its last evidence: its latest event, or at no known time if it has none. */
  predicate AtLastEvidence(rows: seq<EventRow>, run: Id, endedAt: Option<Time>) {
    match endedAt
    case None => forall k | 0 <= k < |rows| :: rows[k].runId != run
    case Some(at) =>
      && (exists k | 0 <= k < |rows| :: rows[k].runId == run && rows[k].createdAt == at)
      && (forall k | 0 <= k < |rows| && rows[k].runId == run :: rows[k].createdAt <= at)
  }

  lemma {:induction false} LastEventIsLatest(rows: seq<EventRow>, run: Id)
    ensures AtLastEvidence(rows, run, LastEventAt(rows, run))
  {
    if |rows| == 0 {
    } else {
      var init := rows[..|rows| - 1];
      LastEventIsLatest(init, run);
      assert forall k | 0 <= k < |init| :: init[k] == rows[k];
    }
  }

  /** The boot sweep: every run still open is marked crashed, ended at its last committed event. */
  function SweepRuns(t: Tables): Tables {
    t.(runs := seq(|t.runs|, i requires 0 <= i < |t.runs| =>
      var r := t.runs[i];
      if r.outcome.None?
      then r.(endedAt := LastEventAt(t.events, r.id), outcome := Some(Crashed)) else r))
  }

  // ----- prey, pen_events -----

  function Source(v: Verdict): Status {
    match v
    case Feast => Awaiting
    case Release => Awaiting
    case Amber => Awaiting
    case Reenter => Ambered
  }

  function Target(v: Verdict): Status {
    match v
    case Feast => Feasted
    case Release => Released
    case Amber => Ambered
    case Reenter => Awaiting
  }

  function InsertPrey(t: Tables, prey: Id, run: Id, territory: string, posting: string, now: Time): Tables {
    t.(prey := t.prey + [PreyRow(prey, run, territory, posting, Awaiting, now, None, None, None)])
  }

  predicate Matches(row: PreyRow, prey: Id, verdict: Verdict) {
    row.id == prey && row.status == Source(verdict)
  }

  function Coalesce<T>(a: Option<T>, b: Option<T>): Option<T> { if a.Some? then a else b }

  function Decided(row: PreyRow, e: VerdictEvent, now: Time): PreyRow {
    row.(status := Target(e.verdict),
         decidedAt := if Target(e.verdict).Awaiting? then None else Some(now),
         reason := Coalesce(e.reason, row.reason),
         provenance := Coalesce(e.provenance, row.provenance))
  }

  /** The verdicts, by the status each needs and the status it leaves. */
  predicate Moves(v: Verdict, from: Status, to: Status) {
    || (v.Feast? && from.Awaiting? && to.Feasted?)
    || (v.Release? && from.Awaiting? && to.Released?)
    || (v.Amber? && from.Awaiting? && to.Ambered?)
    || (v.Reenter? && from.Ambered? && to.Awaiting?)
  }

  predicate CanMove(v: Verdict, from: Status) { if v.Reenter? then from.Ambered? else from.Awaiting? }

  /** What a verdict makes of its row; a reason or a provenance that is not given stays as it was. */
  predicate Judged(was: PreyRow, row: PreyRow, e: VerdictEvent, now: Time) {
    && Moves(e.verdict, was.status, row.status)
    && row.id == was.id == e.preyId && row.runId == was.runId && row.territory == was.territory
    && row.posting == was.posting && row.capturedAt == was.capturedAt
    && row.decidedAt == (if row.status.Awaiting? then None else Some(now))
    && row.reason == (if e.reason.Some? then e.reason else was.reason)
    && row.provenance == (if e.provenance.Some? then e.provenance else was.provenance)
  }

  /** One row is judged, and every other row is as it was. */
  ghost predicate OneJudged(before: seq<PreyRow>, after: seq<PreyRow>, e: VerdictEvent, now: Time) {
    && |after| == |before|
    && exists k | 0 <= k < |before| ::
         && Judged(before[k], after[k], e, now)
         && forall i | 0 <= i < |before| && i != k :: after[i] == before[i]
  }

  lemma {:induction false} NoneMatches(rows: seq<PreyRow>, prey: Id, verdict: Verdict)
    requires MatchCount(rows, prey, verdict) == 0
    ensures forall i | 0 <= i < |rows| :: !Matches(rows[i], prey, verdict)
  {
    if |rows| == 0 {
    } else {
      NoneMatches(rows[..|rows| - 1], prey, verdict);
    }
  }

  lemma {:induction false} OneMatches(rows: seq<PreyRow>, prey: Id, verdict: Verdict) returns (k: nat)
    requires MatchCount(rows, prey, verdict) == 1
    ensures k < |rows| && Matches(rows[k], prey, verdict)
    ensures forall i | 0 <= i < |rows| && i != k :: !Matches(rows[i], prey, verdict)
  {
    var n := |rows| - 1;
    if Matches(rows[n], prey, verdict) {
      NoneMatches(rows[..n], prey, verdict);
      k := n;
    } else {
      k := OneMatches(rows[..n], prey, verdict);
    }
  }

  lemma {:induction false} UpdateJudges(t: Tables, e: VerdictEvent, now: Time)
    requires MatchCount(t.prey, e.preyId, e.verdict) == 1
    ensures OneJudged(t.prey, UpdatePrey(t, e, now).prey, e, now)
  {
    var k := OneMatches(t.prey, e.preyId, e.verdict);
    assert Judged(t.prey[k], UpdatePrey(t, e, now).prey[k], e, now);
  }

  /** prey.id is a key. */
  predicate UniquePrey(rows: seq<PreyRow>) { forall i, j | 0 <= i < j < |rows| :: rows[i].id != rows[j].id }

  /** The UPDATE has a row to match exactly if the prey is there, in the status its verdict needs. */
  lemma {:induction false} MatchedIff(rows: seq<PreyRow>, prey: Id, verdict: Verdict)
    requires UniquePrey(rows)
    ensures MatchCount(rows, prey, verdict) == 1 <==>
      exists i | 0 <= i < |rows| :: rows[i].id == prey && CanMove(verdict, rows[i].status)
    ensures MatchCount(rows, prey, verdict) <= 1
  {
    if |rows| == 0 {
    } else {
      var n := |rows| - 1;
      MatchedIff(rows[..n], prey, verdict);
      assert forall i | 0 <= i < n :: rows[..n][i] == rows[i];
    }
  }

  /** UPDATE prey ... WHERE id = ? AND status = <source>. */
  function UpdatePrey(t: Tables, e: VerdictEvent, now: Time): Tables {
    t.(prey := seq(|t.prey|, i requires 0 <= i < |t.prey| =>
      if Matches(t.prey[i], e.preyId, e.verdict) then Decided(t.prey[i], e, now) else t.prey[i]))
  }

  /** The rowcount of that UPDATE. */
  function MatchCount(rows: seq<PreyRow>, prey: Id, verdict: Verdict): nat {
    if |rows| == 0 then 0
    else MatchCount(rows[..|rows| - 1], prey, verdict) + (if Matches(rows[|rows| - 1], prey, verdict) then 1 else 0)
  }

  function InsertPen(t: Tables, e: VerdictEvent): Tables { t.(pen := t.pen + [e]) }

  function VerdictsOf(pen: seq<VerdictEvent>, prey: Id): seq<VerdictEvent> {
    if |pen| == 0 then []
    else
      var rest := VerdictsOf(pen[..|pen| - 1], prey);
      if pen[|pen| - 1].preyId == prey then rest + [pen[|pen| - 1]] else rest
  }

  // ----- jobs -----

  function InsertJob(t: Tables, job: Id, prey: Id, now: Time): Tables {
    t.(jobs := t.jobs + [JobRow(job, prey, Queued, None, now)])
  }

  function JobsFor(jobs: seq<JobRow>, prey: Id): nat {
    if |jobs| == 0 then 0
    else JobsFor(jobs[..|jobs| - 1], prey) + (if jobs[|jobs| - 1].preyId == prey then 1 else 0)
  }

  /** UPDATE jobs SET status = running WHERE id = ? AND status = queued. */
  function MarkRunning(jobs: seq<JobRow>, job: Id): seq<JobRow> {
    seq(|jobs|, i requires 0 <= i < |jobs| =>
      if jobs[i].id == job && jobs[i].status.Queued? then jobs[i].(status := Running) else jobs[i])
  }

  /** UPDATE jobs SET status = done, result = ? WHERE id = ?. */
  function MarkDone(jobs: seq<JobRow>, job: Id, result: string): seq<JobRow> {
    seq(|jobs|, i requires 0 <= i < |jobs| =>
      if jobs[i].id == job then jobs[i].(status := Done, result := Some(result)) else jobs[i])
  }

  /** UPDATE jobs SET status = queued WHERE status = running. */
  function Requeued(jobs: seq<JobRow>): seq<JobRow> {
    seq(|jobs|, i requires 0 <= i < |jobs| =>
      if jobs[i].status.Running? then jobs[i].(status := Queued) else jobs[i])
  }

  predicate Older(a: JobRow, b: JobRow) { a.createdAt < b.createdAt || (a.createdAt == b.createdAt && a.id < b.id) }

  /** SELECT ... WHERE status = queued ORDER BY created_at, id LIMIT 1. */
  function Oldest(jobs: seq<JobRow>): (r: Option<JobRow>)
    ensures r.None? <==> forall i | 0 <= i < |jobs| :: !jobs[i].status.Queued?
    ensures r.Some? ==> r.value in jobs && r.value.status.Queued?
    ensures r.Some? ==> forall i | 0 <= i < |jobs| && jobs[i].status.Queued? ::
      r.value.createdAt < jobs[i].createdAt || (r.value.createdAt == jobs[i].createdAt && r.value.id <= jobs[i].id)
  {
    if |jobs| == 0 then None
    else
      var rest, last := Oldest(jobs[..|jobs| - 1]), jobs[|jobs| - 1];
      if last.status.Queued? && (rest.None? || Older(last, rest.value)) then Some(last) else rest
  }
}
