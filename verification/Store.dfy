/**
 The writers as the source runs them: each executes its statements on the connection's pending
 tables, commits, and only then publishes.

 What they do to the committed tables is stated table by table and row by row.
 */
module Store {
  import opened Prelude
  import opened Events
  import opened Tables
  import opened WriteAhead
  import opened Broadcast
  import Jobs

  /** Only the run's own log, and the pen's rows after those it had, may differ. */
  ghost predicate Grew(t: Tables, u: Tables, run: Id) {
    && DualCursor(u.events)
    && (forall r | r != run :: RunLog(u.events, r) == RunLog(t.events, r))
    && u.runs == t.runs && u.pen == t.pen && u.jobs == t.jobs && t.prey <= u.prey
  }

  /** The run's own log grew by `evs`, and nothing else changed but the end of the pen. */
  ghost predicate Wrote(t: Tables, u: Tables, run: Id, evs: seq<Event>) {
    Grew(t, u, run) && RunLog(u.events, run) == RunLog(t.events, run) + evs
  }

  lemma {:induction false} WroteTransitive(t: Tables, u: Tables, v: Tables, run: Id, a: seq<Event>, b: seq<Event>)
    requires Wrote(t, u, run, a) && Wrote(u, v, run, b)
    ensures Wrote(t, v, run, a + b)
  {
  }

  lemma {:induction false} WroteRow(t: Tables, run: Id, event: Event, now: Time)
    requires DualCursor(t.events) && RunExists(t, run)
    ensures InsertEvent(t, run, event, now).Ok?
    ensures Wrote(t, InsertEvent(t, run, event, now).value, run, [event])
  {
    InsertEventOk(t, run, event, now);
    forall r ensures RunLog(t.events + [NewRow(t.events, run, event, now)], r) ==
      if r == run then RunLog(t.events, r) + [event] else RunLog(t.events, r)
    {
      RunRowsSnoc(t.events, NewRow(t.events, run, event, now), r);
    }
  }

  /** One row more at the end of the log, stamped now; and nothing else but the pen may have changed. */
  ghost predicate Logged(t: Tables, u: Tables, run: Id, event: Event, now: Time) {
    && |u.events| == |t.events| + 1 && u.events[..|t.events|] == t.events
    && var row := u.events[|t.events|];
    && row.runId == run && row.event == event && row.createdAt == now
    && u.runs == t.runs && u.pen == t.pen && u.jobs == t.jobs
  }

  /** What the claim and the other worker's flip, if any, make of the jobs. */
  predicate Claimed(before: seq<JobRow>, after: seq<JobRow>, raced: Option<Id>, job: Option<Id>) {
    && |after| == |before|
    && forall i | 0 <= i < |before| ::
         after[i] == if before[i].status.Queued? && (raced == Some(before[i].id) || job == Some(before[i].id))
                     then before[i].(status := Running) else before[i]
  }

  function Raced(jobs: seq<JobRow>, raced: Option<Id>): seq<JobRow> {
    if raced.Some? then MarkRunning(jobs, raced.value) else jobs
  }

  /** The guarded UPDATE after the race: it finds its row exactly if it is not the one that was flipped. */
  lemma {:induction false} FlipAfterRace(jobs: seq<JobRow>, raced: Option<Id>, k: nat)
    requires Jobs.UniqueIds(jobs) && k < |jobs| && jobs[k].status.Queued?
    ensures Claimed(jobs, MarkRunning(Raced(jobs, raced), jobs[k].id), raced, Some(jobs[k].id))
    ensures Jobs.Flipped(Raced(jobs, raced), jobs[k].id) == 1 <==> raced != Some(jobs[k].id)
  {
    var once := Raced(jobs, raced);
    Jobs.FlippedOneIff(once, jobs[k].id);
    assert once[k].id == jobs[k].id;
  }

  datatype VerdictError = ReasonRequired

  class Database {
    var committed: Tables
    var pending: Tables
    var clock: Time
    const dump: Event -> string

    /** No transaction is open on this connection. */
    ghost predicate Idle()
      reads this
    {
      pending == committed
    }

    constructor (dump: Event -> string)
      ensures Idle() && committed == EMPTY && this.dump == dump
    {
      committed, pending, clock := EMPTY, EMPTY, 0;
      this.dump := dump;
    }

    method Now() returns (now: Time)
      modifies this`clock
      ensures now == old(clock) && clock == old(clock) + 1
    {
      now := clock;
      clock := clock + 1;
    }

    method Commit()
      modifies this`committed
      ensures committed == pending
    {
      committed := pending;
    }

    method Rollback()
      modifies this`pending
      ensures pending == committed
    {
      pending := committed;
    }

    method StartRun(run: Id, territory: string, costCeiling: Option<int>, maxIterations: Option<int>)
      requires Idle() && !RunExists(committed, run)
      modifies this
      ensures Idle()
      ensures committed.runs == old(committed).runs
        + [RunRow(run, territory, old(clock), None, None, None, costCeiling, maxIterations)]
      ensures committed == old(committed).(runs := committed.runs)
    {
      var now := Now();
      pending := InsertRun(pending, run, territory, now, costCeiling, maxIterations);
      Commit();
    }

    /** The event is published after its commit, under the id the commit gave it. */
    method AppendEvent(run: Id, event: Event, publish: Hub?) returns (r: Result<nat, DbError>)
      requires Idle() && (publish != null ==> publish.Valid())
      modifies this, if publish == null then {} else {publish} + set v | v in publish.viewers :: publish.viewers[v]
      ensures Idle() && (publish != null ==> publish.Valid())
      ensures r.Err? ==> committed == old(committed)
      ensures r.Ok? ==> InsertEvent(old(committed), run, event, old(clock)) == Ok(committed)
      ensures r.Ok? ==> Logged(old(committed), committed, run, event, old(clock))
      ensures r.Err? <==> InsertEvent(old(committed), run, event, old(clock)).Err?
      ensures r.Ok? ==> committed.events[|committed.events| - 1].id == r.value
      ensures publish != null && r.Ok? ==>
        && publish.viewers.Keys ==
             (set v | v in old(publish.viewers) && !Full(publish.maxsize, old(publish.viewers[v].items)))
        && forall v | v in old(publish.viewers) ::
             old(publish.viewers[v]).items ==
               Offered(publish.maxsize, old(publish.viewers[v].items), Envelope(Some(r.value), dump(event)))
      ensures publish != null && r.Err? ==>
        && publish.viewers == old(publish.viewers)
        && forall v | v in publish.viewers :: publish.viewers[v].items == old(publish.viewers[v].items)
      ensures old(DualCursor(committed.events) && RunExists(committed, run)) ==>
        r.Ok? && Wrote(old(committed), committed, run, [event])
    {
      if DualCursorHolds(run) {
        WroteRow(committed, run, event, clock);
      }
      var now := Now();
      var inserted := InsertEvent(pending, run, event, now);
      if inserted.Err? {
        return Err(inserted.error);
      }
      pending := inserted.value;
      Commit();
      var id := committed.events[|committed.events| - 1].id;
      if publish != null {
        publish.Publish(id, dump(event));
      }
      return Ok(id);
    }

    ghost predicate DualCursorHolds(run: Id)
      reads this
    {
      DualCursor(committed.events) && RunExists(committed, run)
    }

    /** The capture event and the prey row ride on one commit. */
    method CommitCapture(run: Id, prey: Id, territory: string, posting: string) returns (r: Result<nat, DbError>)
      requires Idle()
      modifies this
      ensures Idle()
      ensures r.Err? ==> committed == old(committed)
      ensures r.Err? <==> InsertEvent(old(committed), run, PreyCaptured(prey, territory, posting), old(clock)).Err?
      ensures r.Ok? ==> Apply(old(committed), Capture(run, prey, territory, posting), old(clock)) == Ok(committed)
      ensures r.Ok? ==>
        Logged(old(committed), committed, run, PreyCaptured(prey, territory, posting), old(clock))
      ensures r.Ok? ==>
        committed.prey ==
          old(committed).prey + [PreyRow(prey, run, territory, posting, Awaiting, old(clock), None, None, None)]
      ensures r.Ok? ==> |committed.events| > 0 && committed.events[|committed.events| - 1].id == r.value
      ensures old(DualCursor(committed.events) && RunExists(committed, run)) ==>
        && r.Ok?
        && Wrote(old(committed), committed, run, [PreyCaptured(prey, territory, posting)])
    {
      var event := PreyCaptured(prey, territory, posting);
      if DualCursorHolds(run) {
        WroteRow(committed, run, event, clock);
      }
      var now := Now();
      assert Staged(committed, Capture(run, prey, territory, posting), now, 1) == InsertEvent(pending, run, event, now);
      var inserted := InsertEvent(pending, run, event, now);
      if inserted.Err? {
        return Err(inserted.error);
      }
      pending := inserted.value;
      pending := InsertPrey(pending, prey, run, territory, posting, now);
      Commit();
      return Ok(committed.events[|committed.events| - 1].id);
    }

    method CapturePrey(run: Id, prey: Id, territory: string, posting: string, publish: Hub?)
      returns (r: Result<nat, DbError>)
      requires Idle() && (publish != null ==> publish.Valid())
      requires forall i | 0 <= i < |committed.prey| :: committed.prey[i].id != prey
      modifies this, if publish == null then {} else {publish} + set v | v in publish.viewers :: publish.viewers[v]
      ensures Idle() && (publish != null ==> publish.Valid())
      ensures r.Err? ==> committed == old(committed)
      ensures r.Err? <==> InsertEvent(old(committed), run, PreyCaptured(prey, territory, posting), old(clock)).Err?
      ensures r.Ok? ==> Apply(old(committed), Capture(run, prey, territory, posting), old(clock)) == Ok(committed)
      ensures r.Ok? ==>
        Logged(old(committed), committed, run, PreyCaptured(prey, territory, posting), old(clock))
      ensures r.Ok? ==>
        committed.prey ==
          old(committed).prey + [PreyRow(prey, run, territory, posting, Awaiting, old(clock), None, None, None)]
      ensures r.Ok? ==> |committed.events| > 0 && committed.events[|committed.events| - 1].id == r.value
      ensures publish != null && r.Ok? ==>
        && publish.viewers.Keys ==
             (set v | v in old(publish.viewers) && !Full(publish.maxsize, old(publish.viewers[v].items)))
        && forall v | v in old(publish.viewers) ::
             old(publish.viewers[v]).items ==
               Offered(publish.maxsize, old(publish.viewers[v].items),
                       Envelope(Some(r.value), dump(PreyCaptured(prey, territory, posting))))
      ensures publish != null && r.Err? ==>
        && publish.viewers == old(publish.viewers)
        && forall v | v in publish.viewers :: publish.viewers[v].items == old(publish.viewers[v].items)
      ensures old(DualCursor(committed.events) && RunExists(committed, run)) ==>
        && r.Ok?
        && Wrote(old(committed), committed, run, [PreyCaptured(prey, territory, posting)])
    {
      r := CommitCapture(run, prey, territory, posting);
      if r.Ok? && publish != null {
        publish.Publish(r.value, dump(PreyCaptured(prey, territory, posting)));
      }
    }

    method FinishRun(run: Id, outcome: Outcome, reason: Option<AbortReason>)
      requires Idle()
      modifies this
      ensures Idle() && committed == CloseRun(old(committed), run, outcome, reason, old(clock))
      ensures |committed.runs| == |old(committed).runs| && committed == old(committed).(runs := committed.runs)
      ensures forall i | 0 <= i < |committed.runs| ::
        var was := old(committed).runs[i];
        if was.id == run && was.outcome.None?
        then committed.runs[i] == RunRow(was.id, was.territory, was.startedAt, Some(old(clock)), Some(outcome), reason,
                                         was.costCeiling, was.maxIterations)
        else committed.runs[i] == was
    {
      var now := Now();
      pending := CloseRun(pending, run, outcome, reason, now);
      Commit();
    }

    method MarkCrashedRuns()
      requires Idle()
      modifies this
      ensures Idle() && committed == SweepRuns(old(committed))
      ensures |committed.runs| == |old(committed).runs| && committed == old(committed).(runs := committed.runs)
      ensures forall i | 0 <= i < |committed.runs| ::
        var was, row := old(committed).runs[i], committed.runs[i];
        if was.outcome.None?
        then row == was.(outcome := Some(Crashed), endedAt := row.endedAt)
             && AtLastEvidence(old(committed).events, was.id, row.endedAt)
        else row == was
    {
      ghost var before := committed;
      forall i | 0 <= i < |before.runs|
        ensures AtLastEvidence(before.events, before.runs[i].id, LastEventAt(before.events, before.runs[i].id))
      {
        LastEventIsLatest(before.events, before.runs[i].id);
      }
      pending := SweepRuns(pending);
      Commit();
    }

    /** RELEASE needs a reason; a verdict that matches no row writes nothing and says so. */
    method SubmitVerdict(prey: Id, verdict: Verdict, reason: Option<string>, provenance: Option<string>, job: Id)
      returns (r: Result<bool, VerdictError>)
      requires Idle() && forall i | 0 <= i < |committed.jobs| :: committed.jobs[i].id != job
      modifies this
      ensures Idle()
      ensures r.Err? <==> verdict.Release? && reason.None?
      ensures r.Ok? ==> (r.value <==> MatchCount(old(committed).prey, prey, verdict) == 1)
      ensures r == Ok(true) ==>
        && Admissible(old(committed), Submit(VerdictEvent(prey, verdict, reason, provenance), job))
        && Apply(old(committed), Submit(VerdictEvent(prey, verdict, reason, provenance), job), old(clock))
            == Ok(committed)
      ensures r != Ok(true) ==> committed == old(committed)
      ensures r == Ok(true) ==>
        && OneJudged(old(committed).prey, committed.prey, VerdictEvent(prey, verdict, reason, provenance), old(clock))
        && committed.pen == old(committed).pen + [VerdictEvent(prey, verdict, reason, provenance)]
        && committed.jobs ==
             old(committed).jobs + (if verdict.Feast? then [JobRow(job, prey, Queued, None, old(clock))] else [])
        && committed.runs == old(committed).runs && committed.events == old(committed).events
      ensures r.Ok? && old(UniquePrey(committed.prey)) ==>
        (r.value <==> exists i | 0 <= i < |old(committed).prey| ::
          old(committed).prey[i].id == prey && CanMove(verdict, old(committed).prey[i].status))
    {
      if verdict.Release? && reason.None? {
        return Err(ReasonRequired);
      }
      var event := VerdictEvent(prey, verdict, reason, provenance);
      if UniquePrey(committed.prey) {
        MatchedIff(committed.prey, prey, verdict);
      }
      if MatchCount(committed.prey, prey, verdict) == 1 {
        UpdateJudges(committed, event, clock);
      }
      var rowcount := MatchCount(pending.prey, prey, verdict);
      var now := Now();
      ghost var op := Submit(event, job);
      assert Staged(committed, op, now, 1) == Exec(committed, op, now, 0);
      pending := UpdatePrey(pending, event, now);
      if rowcount != 1 {
        Rollback();
        return Ok(false);
      }
      assert Staged(committed, op, now, 2) == Exec(pending, op, now, 1);
      pending := InsertPen(pending, event);
      if verdict.Feast? {
        pending := InsertJob(pending, job, prey, now);
      }
      Commit();
      return Ok(true);
    }

    /**
     Claims the oldest queued job: a SELECT, then a guarded UPDATE. `raced` is the job another worker
     flips in between, if any; when it is the same one, the claim is lost.
     */
    method ClaimJob(raced: Option<Id>) returns (r: Option<(Id, Id)>)
      requires Idle() && Jobs.UniqueIds(committed.jobs)
      modifies this
      ensures Idle() && committed == old(committed).(jobs := committed.jobs)
      ensures r.None? <==> Oldest(old(committed).jobs).None? || raced == Some(Oldest(old(committed).jobs).value.id)
      ensures r.Some? ==> r.value == (Oldest(old(committed).jobs).value.id, Oldest(old(committed).jobs).value.preyId)
      ensures Claimed(old(committed).jobs, committed.jobs, raced, if r.Some? then Some(r.value.0) else None)
    {
      var row := Oldest(committed.jobs);
      if raced.Some? {
        committed := committed.(jobs := MarkRunning(committed.jobs, raced.value));
        pending := committed;
      }
      if row.None? {
        return None;
      }
      var job := row.value.id;
      var rowcount := Jobs.Flipped(pending.jobs, job);
      ghost var k :| 0 <= k < |old(committed).jobs| && old(committed).jobs[k] == row.value;
      FlipAfterRace(old(committed).jobs, raced, k);
      pending := pending.(jobs := MarkRunning(pending.jobs, job));
      Commit();
      if rowcount != 1 {
        return None;
      }
      return Some((job, row.value.preyId));
    }

    method CompleteJob(job: Id, result: string)
      requires Idle()
      modifies this
      ensures Idle() && committed == old(committed).(jobs := committed.jobs)
      ensures |committed.jobs| == |old(committed).jobs|
      ensures forall i | 0 <= i < |committed.jobs| ::
        var was := old(committed).jobs[i];
        if was.id == job then committed.jobs[i] == JobRow(was.id, was.preyId, Done, Some(result), was.createdAt)
        else committed.jobs[i] == was
    {
      pending := pending.(jobs := MarkDone(pending.jobs, job, result));
      Commit();
    }

    method RequeueRunningJobs()
      requires Idle()
      modifies this
      ensures Idle() && committed == old(committed).(jobs := committed.jobs)
      ensures |committed.jobs| == |old(committed).jobs|
      ensures forall i | 0 <= i < |committed.jobs| ::
        var was := old(committed).jobs[i];
        if was.status.Running? then committed.jobs[i] == JobRow(was.id, was.preyId, Queued, was.result, was.createdAt)
        else committed.jobs[i] == was
    {
      pending := pending.(jobs := Requeued(pending.jobs));
      Commit();
    }
  }
}
