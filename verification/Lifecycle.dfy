/**
 How a run is closed: by its own task, by the shielded write that holds a cancel back, or, after a
 crash took the task, by the next boot's sweep.
 */
module Lifecycle {
  import opened Prelude
  import opened Events
  import opened Tables
  import WriteAhead
  import Pen
  import Store

  // ----- the runs table under any interleaving of writers -----

  predicate SameRun(a: RunRow, b: RunRow) {
    && b.id == a.id && b.territory == a.territory && b.startedAt == a.startedAt
    && b.costCeiling == a.costCeiling && b.maxIterations == a.maxIterations
    && (a.outcome.Some? ==> b == a)
  }

  /** A run keeps its place, its start facts and its caps; once it has an outcome it never changes. */
  predicate RunsSettle(before: seq<RunRow>, after: seq<RunRow>) {
    |before| <= |after| && forall i | 0 <= i < |before| :: SameRun(before[i], after[i])
  }

  lemma {:induction false} ApplySettlesRuns(t: Tables, op: WriteAhead.Op, now: Time)
    requires WriteAhead.Apply(t, op, now).Ok?
    ensures RunsSettle(t.runs, WriteAhead.Apply(t, op, now).value.runs)
  {
    Pen.UnfoldStages(t, op, now);
  }

  /** An outcome is written once, whoever commits in whatever order and wherever the process dies. */
  lemma {:induction false} OutcomesAreFinal(acts: seq<WriteAhead.Action>, n: nat)
    requires WriteAhead.After(acts).Some? && n <= |acts|
    ensures WriteAhead.After(acts[..n]).Some?
    ensures RunsSettle(WriteAhead.After(acts[..n]).value.committed.runs, WriteAhead.After(acts).value.committed.runs)
    decreases |acts|
  {
    if n == |acts| {
      assert acts[..n] == acts;
    } else {
      var shorter := acts[..|acts| - 1];
      OutcomesAreFinal(shorter, n);
      assert shorter[..n] == acts[..n];
      WriteAhead.AfterWholeOps(shorter);
      var s, a := WriteAhead.After(shorter).value, acts[|acts| - 1];
      WriteAhead.StepKeepsWholeOps(s, a);
      if WriteAhead.Step(s, a).committed != s.committed {
        ApplySettlesRuns(s.committed, s.open.value.op, s.open.value.now);
      }
      assert RunsSettle(s.committed.runs, WriteAhead.Step(s, a).committed.runs);
    }
  }

  // ----- the hunt tasks -----

  datatype Phase =
    | Starting                                                // the row is committed; the drive is not entered yet
    | Driving
    | Cleaning                                                // cancelled in the drive; the shielded write goes on
    | Closing(outcome: Outcome, reason: Option<AbortReason>)  // the drive is over; the last writes go on
    | Written                                                 // the closing commit took effect; the task is about to go

  /** `lost`: the runs whose task went away without closing them, since the last boot. */
  datatype Process = Process(t: Tables, live: map<Id, Phase>, lost: set<Id>)

  datatype Action =
    | Start(run: Id, territory: string, costCeiling: Option<int>, maxIterations: Option<int>, now: Time)
    | Enter(run: Id)
    | DriveEnds(run: Id, outcome: Outcome, reason: Option<AbortReason>)
    | Cancel(run: Id)
    | Settle(run: Id, now: Time)
    | Leave(run: Id)
    | Crash
    | Boot

  predicate InPhase(p: Process, run: Id, phase: Phase) { run in p.live && p.live[run] == phase }

  predicate Enabled(p: Process, a: Action) {
    match a
    case Start(run, _, _, _, _) => !RunExists(p.t, run)
    case Enter(run) => InPhase(p, run, Starting)
    case DriveEnds(run, _, _) => InPhase(p, run, Driving)
    case Cancel(run) => run in p.live
    case Settle(run, _) => run in p.live && (p.live[run].Cleaning? || p.live[run].Closing?)
    case Leave(run) => InPhase(p, run, Written)
    case Crash => true
    case Boot => p.live == map[]
  }

  /** What the closing write says: the drive's own outcome, or the cancel's. */
  function SettledOutcome(phase: Phase): Outcome { if phase.Closing? then phase.outcome else Aborted }

  function SettledReason(phase: Phase): Option<AbortReason> {
    if phase.Closing? then phase.reason else Some(DaemonShutdown)
  }

  /** The task is gone; its run is lost if it is still open. */
  function Gone(p: Process, run: Id, open: bool): Process {
    p.(live := p.live - {run}, lost := if open then p.lost + {run} else p.lost)
  }

  function Step(p: Process, a: Action): Process
    requires Enabled(p, a)
  {
    match a
    case Start(run, territory, ceiling, iterations, now) =>
      p.(t := InsertRun(p.t, run, territory, now, ceiling, iterations), live := p.live[run := Starting])
    case Enter(run) => p.(live := p.live[run := Driving])
    case DriveEnds(run, outcome, reason) => p.(live := p.live[run := Closing(outcome, reason)])
    case Cancel(run) =>
      (match p.live[run]
       case Starting => Gone(p, run, true)
       case Driving => p.(live := p.live[run := Cleaning])
       case Cleaning => p
       case Closing(_, _) => Gone(p, run, true)
       case Written => Gone(p, run, false))
    case Settle(run, now) =>
      p.(t := CloseRun(p.t, run, SettledOutcome(p.live[run]), SettledReason(p.live[run]), now),
         live := p.live[run := Written])
    case Leave(run) => Gone(p, run, false)
    case Crash => Process(p.t, map[], p.lost + Unclosed(p))
    case Boot => Process(SweepRuns(p.t), map[], {})
  }

  /** The runs a live task has yet to close. */
  function Unclosed(p: Process): set<Id> { set run | run in p.live && !p.live[run].Written? }

  function After(acts: seq<Action>): Option<Process> {
    if |acts| == 0 then Some(Process(EMPTY, map[], {}))
    else
      var before := After(acts[..|acts| - 1]);
      if before.Some? && Enabled(before.value, acts[|acts| - 1])
      then Some(Step(before.value, acts[|acts| - 1])) else None
  }

  predicate Open(t: Tables, run: Id) { exists i | 0 <= i < |t.runs| :: t.runs[i].id == run && t.runs[i].outcome.None? }

  predicate ClosedAs(t: Tables, run: Id, outcome: Outcome, reason: Option<AbortReason>) {
    exists i | 0 <= i < |t.runs| ::
      t.runs[i].id == run && t.runs[i].outcome == Some(outcome) && t.runs[i].abortReason == reason
  }

  ghost predicate Owned(p: Process) {
    && (forall i, j | 0 <= i < j < |p.t.runs| :: p.t.runs[i].id != p.t.runs[j].id)
    && (forall run :: Open(p.t, run) <==> run in Unclosed(p) || run in p.lost)
    && p.live.Keys !! p.lost
    && (forall run | run in p.live :: RunExists(p.t, run))
  }

  lemma {:induction false} CloseOpens(t: Tables, run: Id, outcome: Outcome, reason: Option<AbortReason>, now: Time)
    requires forall i, j | 0 <= i < j < |t.runs| :: t.runs[i].id != t.runs[j].id
    ensures forall r :: Open(CloseRun(t, run, outcome, reason, now), r) <==> Open(t, r) && r != run
    ensures Open(t, run) ==> ClosedAs(CloseRun(t, run, outcome, reason, now), run, outcome, reason)
  {
    var u := CloseRun(t, run, outcome, reason, now);
    forall r ensures Open(u, r) <==> Open(t, r) && r != run {
      if Open(t, r) && r != run {
        var i :| 0 <= i < |t.runs| && t.runs[i].id == r && t.runs[i].outcome.None?;
        assert u.runs[i] == t.runs[i];
      }
    }
    if Open(t, run) {
      var i :| 0 <= i < |t.runs| && t.runs[i].id == run && t.runs[i].outcome.None?;
      assert u.runs[i].outcome == Some(outcome);
    }
  }

  lemma {:induction false} StartOpens(t: Tables, run: Id, territory: string, ceiling: Option<int>,
          iterations: Option<int>, now: Time)
    ensures forall r :: Open(InsertRun(t, run, territory, now, ceiling, iterations), r) <==> Open(t, r) || r == run
  {
    var u := InsertRun(t, run, territory, now, ceiling, iterations);
    assert u.runs[|t.runs|].id == run && u.runs[|t.runs|].outcome.None?;
    forall r | Open(t, r) ensures Open(u, r) {
      var i :| 0 <= i < |t.runs| && t.runs[i].id == r && t.runs[i].outcome.None?;
      assert u.runs[i] == t.runs[i];
    }
  }

  lemma {:induction false} StartKeepsOwned(p: Process, a: Action)
    requires Owned(p) && a.Start? && Enabled(p, a)
    ensures Owned(Step(p, a))
  {
    StartOpens(p.t, a.run, a.territory, a.costCeiling, a.maxIterations, a.now);
    var q := Step(p, a);
    assert q.t.runs[|p.t.runs|].id == a.run;
    assert !Open(p.t, a.run);
    forall run | run in p.live ensures RunExists(q.t, run) {
      var i :| 0 <= i < |p.t.runs| && p.t.runs[i].id == run;
      assert q.t.runs[i].id == run;
    }
  }

  lemma {:induction false} SettleKeepsOwned(p: Process, run: Id, now: Time)
    requires Owned(p) && Enabled(p, Settle(run, now))
    ensures Owned(Step(p, Settle(run, now)))
  {
    var q := Step(p, Settle(run, now));
    CloseOpens(p.t, run, SettledOutcome(p.live[run]), SettledReason(p.live[run]), now);
    SameIds(p.t, q.t);
    assert Unclosed(q) == Unclosed(p) - {run};
  }

  lemma {:induction false} SameIds(t: Tables, u: Tables)
    requires |u.runs| == |t.runs| && forall i | 0 <= i < |t.runs| :: u.runs[i].id == t.runs[i].id
    ensures forall run :: RunExists(t, run) ==> RunExists(u, run)
  {
    forall run | RunExists(t, run) ensures RunExists(u, run) {
      var i :| 0 <= i < |t.runs| && t.runs[i].id == run;
      assert u.runs[i].id == run;
    }
  }

  lemma {:induction false} CancelKeepsOwned(p: Process, run: Id)
    requires Owned(p) && run in p.live
    ensures Owned(Step(p, Cancel(run)))
    ensures var q := Step(p, Cancel(run));
      && ((run !in q.live && Open(q.t, run)) <==> p.live[run].Starting? || p.live[run].Closing?)
      && ((run !in q.live && !Open(q.t, run)) <==> p.live[run].Written?)
  {
    match p.live[run]
    case Driving =>
    case Cleaning =>
    case _ =>
  }

  lemma {:induction false} StepKeepsOwned(p: Process, a: Action)
    requires Owned(p) && Enabled(p, a)
    ensures Owned(Step(p, a))
  {
    match a
    case Start(_, _, _, _, _) => StartKeepsOwned(p, a);
    case Cancel(run) => CancelKeepsOwned(p, run);
    case Settle(run, now) => SettleKeepsOwned(p, run, now);
    case _ =>
  }

  /**
   A run is open exactly while a live task has yet to close it, or if its task was lost since the last
   boot: to a crash, or to a cancel that landed before the drive or after it, in the last writes.
   */
  lemma {:induction false} OpenIffOwnedOrLost(acts: seq<Action>)
    requires After(acts).Some?
    ensures Owned(After(acts).value)
  {
    if |acts| == 0 {
    } else {
      OpenIffOwnedOrLost(acts[..|acts| - 1]);
      StepKeepsOwned(After(acts[..|acts| - 1]).value, acts[|acts| - 1]);
    }
  }

  /** After the boot sweep no earlier run is open. */
  lemma {:induction false} BootClosesEverything(acts: seq<Action>, run: Id)
    requires After(acts).Some? && Enabled(After(acts).value, Boot)
    ensures !Open(Step(After(acts).value, Boot).t, run)
    ensures Open(After(acts).value.t, run) ==> ClosedAs(Step(After(acts).value, Boot).t, run, Crashed, None)
  {
    OpenIffOwnedOrLost(acts);
    OpenRunsHaveNoReason(acts);
    var t := After(acts).value.t;
    if Open(t, run) {
      var i :| 0 <= i < |t.runs| && t.runs[i].id == run && t.runs[i].outcome.None?;
      assert SweepRuns(t).runs[i].outcome == Some(Crashed);
    }
  }

  lemma {:induction false} OpenRunsHaveNoReason(acts: seq<Action>)
    requires After(acts).Some?
    ensures var runs := After(acts).value.t.runs;
      forall i | 0 <= i < |runs| && runs[i].outcome.None? :: runs[i].abortReason.None? && runs[i].endedAt.None?
  {
    if |acts| == 0 {
    } else {
      OpenRunsHaveNoReason(acts[..|acts| - 1]);
    }
  }

  lemma {:induction false} ClosedAsStays(t: Tables, u: Tables, run: Id, outcome: Outcome, reason: Option<AbortReason>)
    requires ClosedAs(t, run, outcome, reason) && RunsSettle(t.runs, u.runs)
    ensures ClosedAs(u, run, outcome, reason)
  {
    var i :| 0 <= i < |t.runs| && t.runs[i].id == run
      && t.runs[i].outcome == Some(outcome) && t.runs[i].abortReason == reason;
    assert SameRun(t.runs[i], u.runs[i]);
  }

  /** Held back: the cancelled task is still there, or its run is already marked aborted. */
  predicate HeldBack(p: Process, run: Id) {
    InPhase(p, run, Cleaning) || ClosedAs(p.t, run, Aborted, Some(DaemonShutdown))
  }

  lemma {:induction false} StepHoldsBack(p: Process, a: Action, run: Id)
    requires Owned(p) && Enabled(p, a) && HeldBack(p, run) && !a.Crash?
    ensures HeldBack(Step(p, a), run)
  {
    assert RunsSettle(p.t.runs, Step(p, a).t.runs);
    if ClosedAs(p.t, run, Aborted, Some(DaemonShutdown)) {
      ClosedAsStays(p.t, Step(p, a).t, run, Aborted, Some(DaemonShutdown));
    } else if a.Settle? && a.run == run {
      CloseOpens(p.t, run, Aborted, Some(DaemonShutdown), a.now);
    } else if a.Start? {
      assert Open(p.t, run);
    }
  }

  /**
   A cancel inside the drive never gets past an open run: however many more cancels land, until the
   task is gone it is still cleaning up, and once it is gone its run is marked aborted, for good.
   */
  lemma {:induction false} CancelledRunIsClosedFirst(acts: seq<Action>, n: nat, run: Id)
    requires After(acts).Some? && n < |acts| && acts[n] == Cancel(run)
    requires After(acts[..n]).Some? && InPhase(After(acts[..n]).value, run, Driving)
    requires forall k | n < k < |acts| :: !acts[k].Crash?
    ensures HeldBack(After(acts).value, run)
    decreases |acts|
  {
    var shorter := acts[..|acts| - 1];
    if n < |acts| - 1 {
      assert shorter[..n] == acts[..n];
      CancelledRunIsClosedFirst(shorter, n, run);
      OpenIffOwnedOrLost(shorter);
      StepHoldsBack(After(shorter).value, acts[|acts| - 1], run);
    } else {
      assert shorter == acts[..n];
    }
  }

  /** A hunt that gets through its last writes has its own outcome on its row, and nothing left to do. */
  lemma {:induction false} LastWritesCloseTheRun(acts: seq<Action>, run: Id, now: Time)
    requires After(acts).Some? && run in After(acts).value.live && After(acts).value.live[run].Closing?
    ensures var p := After(acts).value;
      var q := Step(p, Settle(run, now));
      && ClosedAs(q.t, run, p.live[run].outcome, p.live[run].reason)
      && !Open(q.t, run) && InPhase(q, run, Written) && run !in q.lost
      && forall r | r != run :: Open(q.t, r) <==> Open(p.t, r)
  {
    OpenIffOwnedOrLost(acts);
    var p := After(acts).value;
    CloseOpens(p.t, run, p.live[run].outcome, p.live[run].reason, now);
  }

  /**
   A cancel leaves its run open behind it if and only if it lands outside the drive and before the
   closing commit took effect: right after start_run's own commit, or in the last writes. Any later it
   finds the run closed; in the drive it is held back.
   */
  lemma {:induction false} CancelLeavesOpenIff(acts: seq<Action>, run: Id)
    requires After(acts).Some? && Enabled(After(acts).value, Cancel(run))
    ensures var p := After(acts).value;
      var q := Step(p, Cancel(run));
      && ((run !in q.live && Open(q.t, run)) <==> p.live[run].Starting? || p.live[run].Closing?)
      && ((run !in q.live && !Open(q.t, run)) <==> p.live[run].Written?)
  {
    OpenIffOwnedOrLost(acts);
    CancelKeepsOwned(After(acts).value, run);
  }

  /**
   The shielded cleanup as the source runs it. The write is a task of its own, an UPDATE and a commit;
   each await of it either is hit by a re-cancel, which is swallowed, or lets the write get one step
   further. `hit` says which, in any order.
   */
  method CleanUp(db: Store.Database, run: Id, hit: seq<bool>)
    requires db.Idle()
    modifies db
    ensures db.Idle()
    ensures db.committed == CloseRun(old(db.committed), run, Aborted, Some(DaemonShutdown), old(db.clock))
  {
    var awaits, steps := 0, 0;
    ghost var closed := CloseRun(db.committed, run, Aborted, Some(DaemonShutdown), db.clock);
    while steps < 2
      invariant 0 <= awaits && 0 <= steps <= 2
      invariant db.committed == if steps == 2 then closed else old(db.committed)
      invariant db.pending == if steps == 0 then old(db.committed) else closed
      invariant steps == 0 ==> db.clock == old(db.clock)
      decreases 2 - steps, |hit| - awaits
    {
      if awaits < |hit| && hit[awaits] {
        awaits := awaits + 1;
      } else {
        awaits := awaits + 1;
        if steps == 0 {
          var now := db.Now();
          db.pending := CloseRun(db.pending, run, Aborted, Some(DaemonShutdown), now);
        } else {
          db.Commit();
        }
        steps := steps + 1;
      }
    }
  }
}
