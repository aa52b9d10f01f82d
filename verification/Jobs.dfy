/** The job queue with racing workers: claims in two statements, deaths, crashes and the boot's requeue. */
module Jobs {
  import opened Prelude
  import opened Events
  import opened Tables

  datatype Worker = Idle | Picked(job: Id) | Holding(job: Id)

  datatype Queue = Queue(jobs: seq<JobRow>, workers: seq<Worker>)

  datatype Action =
    | Enqueue(job: Id, prey: Id, now: Time)
    | Spawn
    | Select(worker: nat)
    | Flip(worker: nat)
    | Complete(worker: nat, result: string)
    | Die(worker: nat)
    | Reboot

  /** The rowcount of the guarded UPDATE. */
  function Flipped(jobs: seq<JobRow>, job: Id): nat {
    if |jobs| == 0 then 0
    else
      var last := jobs[|jobs| - 1];
      Flipped(jobs[..|jobs| - 1], job) + if last.id == job && last.status.Queued? then 1 else 0
  }

  predicate Enabled(q: Queue, a: Action) {
    match a
    case Enqueue(job, _, _) => forall i | 0 <= i < |q.jobs| :: q.jobs[i].id != job
    case Spawn => true
    case Select(w) => w < |q.workers| && q.workers[w].Idle?
    case Flip(w) => w < |q.workers| && q.workers[w].Picked?
    case Complete(w, _) => w < |q.workers| && q.workers[w].Holding?
    case Die(w) => w < |q.workers|
    case Reboot => true
  }

  function Step(q: Queue, a: Action): Queue
    requires Enabled(q, a)
  {
    match a
    case Enqueue(job, prey, now) => q.(jobs := q.jobs + [JobRow(job, prey, Queued, None, now)])
    case Spawn => q.(workers := q.workers + [Idle])
    case Select(w) =>
      var row := Oldest(q.jobs);
      if row.None? then q else q.(workers := q.workers[w := Picked(row.value.id)])
    case Flip(w) =>
      var job := q.workers[w].job;
      Queue(MarkRunning(q.jobs, job), q.workers[w := if Flipped(q.jobs, job) == 1 then Holding(job) else Idle])
    case Complete(w, result) => Queue(MarkDone(q.jobs, q.workers[w].job, result), q.workers[w := Idle])
    case Die(w) => q.(workers := q.workers[..w] + q.workers[w + 1..])
    case Reboot => Queue(Requeued(q.jobs), [])
  }

  function After(acts: seq<Action>): Option<Queue> {
    if |acts| == 0 then Some(Queue([], []))
    else
      var before := After(acts[..|acts| - 1]);
      if before.Some? && Enabled(before.value, acts[|acts| - 1])
      then Some(Step(before.value, acts[|acts| - 1])) else None
  }

  predicate UniqueIds(jobs: seq<JobRow>) { forall i, j | 0 <= i < j < |jobs| :: jobs[i].id != jobs[j].id }

  /** A job has a result exactly when it is done. */
  predicate ResultIffDone(jobs: seq<JobRow>) {
    forall i | 0 <= i < |jobs| :: jobs[i].result.Some? <==> jobs[i].status.Done?
  }

  predicate RunsJob(jobs: seq<JobRow>, job: Id) {
    exists i | 0 <= i < |jobs| :: jobs[i].id == job && jobs[i].status.Running?
  }

  /** Every held job is running, and no two workers hold the same one. */
  predicate HeldOnce(q: Queue) {
    && (forall w | 0 <= w < |q.workers| && q.workers[w].Holding? :: RunsJob(q.jobs, q.workers[w].job))
    && (forall v, w | 0 <= v < w < |q.workers| && q.workers[v].Holding? :: q.workers[v] != q.workers[w])
  }

  predicate QueueSafe(q: Queue) { UniqueIds(q.jobs) && ResultIffDone(q.jobs) && HeldOnce(q) }

  predicate IsQueued(jobs: seq<JobRow>, job: Id) {
    exists i | 0 <= i < |jobs| :: jobs[i].id == job && jobs[i].status.Queued?
  }

  lemma {:induction false} FlippedOneIff(jobs: seq<JobRow>, job: Id)
    requires UniqueIds(jobs)
    ensures Flipped(jobs, job) <= 1
    ensures Flipped(jobs, job) == 1 <==> IsQueued(jobs, job)
  {
    if |jobs| == 0 {
    } else {
      var init := jobs[..|jobs| - 1];
      FlippedOneIff(init, job);
      if i :| 0 <= i < |jobs| && jobs[i].id == job && jobs[i].status.Queued? {
        assert i < |init| ==> init[i] == jobs[i];
      }
    }
  }

  lemma {:induction false} FlipKeepsSafe(q: Queue, w: nat)
    requires QueueSafe(q) && Enabled(q, Flip(w))
    ensures QueueSafe(Step(q, Flip(w)))
  {
    var job, next := q.workers[w].job, Step(q, Flip(w));
    FlippedOneIff(q.jobs, job);
    forall v | 0 <= v < |next.workers| && next.workers[v].Holding? ensures RunsJob(next.jobs, next.workers[v].job) {
      if v == w {
        var i :| 0 <= i < |q.jobs| && q.jobs[i].id == job && q.jobs[i].status.Queued?;
        assert next.jobs[i].status.Running?;
      } else {
        var i :| 0 <= i < |q.jobs| && q.jobs[i].id == q.workers[v].job && q.jobs[i].status.Running?;
        assert next.jobs[i].status.Running?;
      }
    }
    forall v | 0 <= v < |q.workers| && v != w && q.workers[v] == Holding(job) ensures Flipped(q.jobs, job) == 0 {
      assert RunsJob(q.jobs, job);
    }
  }

  lemma {:induction false} CompleteKeepsSafe(q: Queue, w: nat, result: string)
    requires QueueSafe(q) && Enabled(q, Complete(w, result))
    ensures QueueSafe(Step(q, Complete(w, result)))
  {
    var next := Step(q, Complete(w, result));
    forall v | 0 <= v < |next.workers| && next.workers[v].Holding? ensures RunsJob(next.jobs, next.workers[v].job) {
      assert q.workers[v] != q.workers[w];
      var i :| 0 <= i < |q.jobs| && q.jobs[i].id == q.workers[v].job && q.jobs[i].status.Running?;
      assert next.jobs[i].status.Running?;
    }
  }

  lemma {:induction false} EnqueueKeepsSafe(q: Queue, a: Action)
    requires QueueSafe(q) && a.Enqueue? && Enabled(q, a)
    ensures QueueSafe(Step(q, a))
  {
    var next := Step(q, a);
    forall w | 0 <= w < |q.workers| && q.workers[w].Holding? ensures RunsJob(next.jobs, q.workers[w].job) {
      var i :| 0 <= i < |q.jobs| && q.jobs[i].id == q.workers[w].job && q.jobs[i].status.Running?;
      assert next.jobs[i].status.Running?;
    }
  }

  lemma {:induction false} StepKeepsQueueSafe(q: Queue, a: Action)
    requires QueueSafe(q) && Enabled(q, a)
    ensures QueueSafe(Step(q, a))
  {
    match a
    case Enqueue(_, _, _) => EnqueueKeepsSafe(q, a);
    case Flip(w) => FlipKeepsSafe(q, w);
    case Complete(w, result) => CompleteKeepsSafe(q, w, result);
    case Die(w) => assert forall v | 0 <= v < |q.workers| - 1 ::
      Step(q, a).workers[v] == q.workers[if v < w then v else v + 1];
    case _ =>
  }

  /**
   Whatever the workers race on and whenever they die or the daemon restarts: each held job is
   running and has one holder, and a job has a result exactly when it is done.
   */
  lemma {:induction false} QueueAlwaysSafe(acts: seq<Action>)
    requires After(acts).Some?
    ensures QueueSafe(After(acts).value)
  {
    if |acts| == 0 {
    } else {
      QueueAlwaysSafe(acts[..|acts| - 1]);
      StepKeepsQueueSafe(After(acts[..|acts| - 1]).value, acts[|acts| - 1]);
    }
  }

  /** Every job keeps its place and its keys, and a done job never changes again. */
  predicate KeepsJobs(before: seq<JobRow>, after: seq<JobRow>) {
    && |before| <= |after|
    && forall i | 0 <= i < |before| ::
         && after[i].id == before[i].id && after[i].preyId == before[i].preyId
         && after[i].createdAt == before[i].createdAt
         && (before[i].status.Done? ==> after[i] == before[i])
  }

  /** No job is lost or duplicated, and done is for good. */
  lemma {:induction false} JobsAreKept(acts: seq<Action>, n: nat)
    requires After(acts).Some? && n <= |acts|
    ensures After(acts[..n]).Some?
    ensures KeepsJobs(After(acts[..n]).value.jobs, After(acts).value.jobs)
    ensures UniqueIds(After(acts).value.jobs)
    decreases |acts|
  {
    QueueAlwaysSafe(acts);
    if n == |acts| {
      assert acts[..n] == acts;
    } else {
      var shorter := acts[..|acts| - 1];
      JobsAreKept(shorter, n);
      assert shorter[..n] == acts[..n];
      QueueAlwaysSafe(shorter);
      assert KeepsJobs(After(shorter).value.jobs, Step(After(shorter).value, acts[|acts| - 1]).jobs);
    }
  }

  /** A worker's UPDATE hands it the job exactly when the job is still queued; then the guard matches nothing. */
  lemma {:induction false} FlipWinsIff(acts: seq<Action>, w: nat)
    requires After(acts).Some? && Enabled(After(acts).value, Flip(w))
    ensures var q := After(acts).value;
      var job, next := q.workers[w].job, Step(q, Flip(w));
      && (next.workers[w] == Holding(job) <==> IsQueued(q.jobs, job))
      && (next.workers[w].Idle? <==> next.jobs == q.jobs)
      && Flipped(next.jobs, job) == 0
  {
    QueueAlwaysSafe(acts);
    var q := After(acts).value;
    var job, next := q.workers[w].job, Step(q, Flip(w));
    FlippedOneIff(q.jobs, job);
    StepKeepsQueueSafe(q, Flip(w));
    FlippedOneIff(next.jobs, job);
    if next.workers[w].Idle? {
      assert forall i | 0 <= i < |q.jobs| :: next.jobs[i] == q.jobs[i];
    } else {
      var i :| 0 <= i < |q.jobs| && q.jobs[i].id == job && q.jobs[i].status.Queued?;
      assert next.jobs[i] != q.jobs[i];
    }
  }

  /** Once claimed, a job is not queued again until the daemon reboots. */
  lemma {:induction false} OnlyRebootRequeues(acts: seq<Action>, n: nat, i: nat)
    requires After(acts).Some? && n <= |acts| && forall k | n <= k < |acts| :: !acts[k].Reboot?
    requires After(acts[..n]).Some? && i < |After(acts[..n]).value.jobs|
    requires !After(acts[..n]).value.jobs[i].status.Queued?
    ensures i < |After(acts).value.jobs| && !After(acts).value.jobs[i].status.Queued?
    decreases |acts|
  {
    if n == |acts| {
      assert acts[..n] == acts;
    } else {
      var shorter := acts[..|acts| - 1];
      assert shorter[..n] == acts[..n];
      OnlyRebootRequeues(shorter, n, i);
    }
  }

  /** The time of the last enqueue. */
  function LastNow(acts: seq<Action>): Time {
    if |acts| == 0 then 0
    else if acts[|acts| - 1].Enqueue? then acts[|acts| - 1].now
    else LastNow(acts[..|acts| - 1])
  }

  /** The clock that stamps the jobs does not run backwards. */
  predicate ClockRuns(acts: seq<Action>) {
    |acts| == 0
    || (ClockRuns(acts[..|acts| - 1])
        && (acts[|acts| - 1].Enqueue? ==> LastNow(acts[..|acts| - 1]) <= acts[|acts| - 1].now))
  }

  /** Every queued job is at least as young as this one. */
  predicate NoneWaitsLonger(jobs: seq<JobRow>, job: Id) {
    exists i | 0 <= i < |jobs| :: jobs[i].id == job && QueuedSince(jobs, jobs[i].createdAt)
  }

  predicate QueuedSince(jobs: seq<JobRow>, since: Time) {
    forall k | 0 <= k < |jobs| && jobs[k].status.Queued? :: since <= jobs[k].createdAt
  }

  predicate Stamped(jobs: seq<JobRow>, now: Time) { forall k | 0 <= k < |jobs| :: jobs[k].createdAt <= now }

  lemma {:induction false} NoneWaitsLongerStays(before: seq<JobRow>, after: seq<JobRow>, job: Id, now: Time)
    requires NoneWaitsLonger(before, job) && Stamped(before, now) && |before| <= |after|
    requires forall i | 0 <= i < |before| :: after[i].id == before[i].id && after[i].createdAt == before[i].createdAt
    requires forall i | 0 <= i < |before| && after[i].status.Queued? :: before[i].status.Queued?
    requires forall i | |before| <= i < |after| :: now <= after[i].createdAt
    ensures NoneWaitsLonger(after, job)
  {
    var i :| 0 <= i < |before| && before[i].id == job && QueuedSince(before, before[i].createdAt);
    assert after[i].id == job;
    assert QueuedSince(after, after[i].createdAt);
  }

  lemma {:induction false} StepKeepsOrder(q: Queue, a: Action, now: Time, v: nat)
    requires Enabled(q, a) && Stamped(q.jobs, now) && (a.Enqueue? ==> now <= a.now)
    requires forall w | 0 <= w < |q.workers| && q.workers[w].Picked? :: NoneWaitsLonger(q.jobs, q.workers[w].job)
    requires v < |Step(q, a).workers| && Step(q, a).workers[v].Picked?
    ensures NoneWaitsLonger(Step(q, a).jobs, Step(q, a).workers[v].job)
  {
    var next := Step(q, a);
    if a.Select? && v == a.worker {
    } else {
      var u := if a.Die? && a.worker <= v then v + 1 else v;
      assert next.workers[v] == q.workers[u];
      NoneWaitsLongerStays(q.jobs, next.jobs, q.workers[u].job, now);
    }
  }

  /**
   First come, first served, even with racing workers: whatever happened since a worker selected its
   job, no job queued now was enqueued before it.
   */
  lemma {:induction false} OldestIsClaimedFirst(acts: seq<Action>)
    requires After(acts).Some? && ClockRuns(acts)
    ensures Stamped(After(acts).value.jobs, LastNow(acts))
    ensures var q := After(acts).value;
      forall w | 0 <= w < |q.workers| && q.workers[w].Picked? :: NoneWaitsLonger(q.jobs, q.workers[w].job)
  {
    if |acts| == 0 {
    } else {
      var init, a := acts[..|acts| - 1], acts[|acts| - 1];
      OldestIsClaimedFirst(init);
      var q := After(init).value;
      forall w | 0 <= w < |Step(q, a).workers| && Step(q, a).workers[w].Picked?
        ensures NoneWaitsLonger(Step(q, a).jobs, Step(q, a).workers[w].job)
      {
        StepKeepsOrder(q, a, LastNow(init), w);
      }
    }
  }

  /** After boot no job is running and none is held: each is done with its result, or queued. */
  lemma {:induction false} BootLeavesNoneRunning(acts: seq<Action>)
    requires After(acts).Some?
    ensures var q := Step(After(acts).value, Reboot);
      && q.workers == []
      && forall i | 0 <= i < |q.jobs| ::
           if q.jobs[i].status.Done? then q.jobs[i] == After(acts).value.jobs[i] && q.jobs[i].result.Some?
           else q.jobs[i].status.Queued?
  {
    QueueAlwaysSafe(acts);
  }
}
