/** The prey pen: its rows, its verdict log, the captures and the follow-up jobs agree in every reachable state. */
module Pen {
  import opened Prelude
  import opened Events
  import opened Tables
  import opened WriteAhead

  datatype PenState = PenState(status: Status, reason: Option<string>, provenance: Option<string>)

  const CAPTURED := PenState(Awaiting, None, None)

  function FoldStep(s: PenState, e: VerdictEvent): PenState {
    if s.status != Source(e.verdict) then s
    else PenState(Target(e.verdict), Coalesce(e.reason, s.reason), Coalesce(e.provenance, s.provenance))
  }

  function Fold(evs: seq<VerdictEvent>): PenState {
    if |evs| == 0 then CAPTURED else FoldStep(Fold(evs[..|evs| - 1]), evs[|evs| - 1])
  }

  /** The rebuild as the source runs it. */
  method Rebuild(evs: seq<VerdictEvent>) returns (status: Status, reason: Option<string>, provenance: Option<string>)
    ensures PenState(status, reason, provenance) == Fold(evs)
  {
    status, reason, provenance := Awaiting, None, None;
    for i := 0 to |evs|
      invariant PenState(status, reason, provenance) == Fold(evs[..i])
    {
      var e := evs[i];
      assert evs[..i + 1][..i] == evs[..i];
      if status != Source(e.verdict) {
        continue;
      }
      status := Target(e.verdict);
      if e.reason.Some? {
        reason := e.reason;
      }
      if e.provenance.Some? {
        provenance := e.provenance;
      }
    }
    assert evs[..|evs|] == evs;
  }

  /** Every logged verdict fired from its source status, so the fold's `continue` is never taken. */
  predicate AllApplied(evs: seq<VerdictEvent>) {
    forall k | 0 <= k < |evs| :: Fold(evs[..k]).status == Source(evs[k].verdict)
  }

  function Feasts(evs: seq<VerdictEvent>): nat {
    if |evs| == 0 then 0 else Feasts(evs[..|evs| - 1]) + (if evs[|evs| - 1].verdict.Feast? then 1 else 0)
  }

  function Captures(rows: seq<EventRow>): seq<EventRow> {
    if |rows| == 0 then []
    else
      var rest := Captures(rows[..|rows| - 1]);
      if rows[|rows| - 1].event.PreyCaptured? then rest + [rows[|rows| - 1]] else rest
  }

  predicate SameCapture(row: EventRow, p: PreyRow) {
    row.event == PreyCaptured(p.id, p.territory, p.posting) && row.runId == p.runId
  }

  /** The log's captures and the pen's rows are the same captures, in the same order. */
  predicate CapturesAgree(t: Tables) {
    && |Captures(t.events)| == |t.prey|
    && forall i | 0 <= i < |t.prey| :: SameCapture(Captures(t.events)[i], t.prey[i])
  }

  predicate InPen(prey: seq<PreyRow>, id: Id) { exists i | 0 <= i < |prey| :: prey[i].id == id }

  /** The row is what the verdict log folds to, and a feast left exactly one job. */
  predicate RowHolds(evs: seq<VerdictEvent>, jobs: nat, p: PreyRow) {
    && AllApplied(evs)
    && Fold(evs) == PenState(p.status, p.reason, p.provenance)
    && (p.decidedAt.None? <==> p.status.Awaiting?)
    && jobs == Feasts(evs) == (if p.status.Feasted? then 1 else 0)
  }

  predicate RowAgrees(t: Tables, p: PreyRow) {
    RowHolds(VerdictsOf(t.pen, p.id), JobsFor(t.jobs, p.id), p)
  }

  /** prey.id is a key, and the other tables' references to it hold. */
  predicate Keyed(t: Tables) {
    && UniquePrey(t.prey)
    && (forall i | 0 <= i < |t.pen| :: InPen(t.prey, t.pen[i].preyId))
    && (forall i | 0 <= i < |t.jobs| :: InPen(t.prey, t.jobs[i].preyId))
  }

  predicate PenAgrees(t: Tables) {
    && CapturesAgree(t)
    && Keyed(t)
    && (forall i | 0 <= i < |t.prey| :: RowAgrees(t, t.prey[i]))
  }

  lemma {:induction false} NothingFor(t: Tables, id: Id)
    requires forall i | 0 <= i < |t.pen| :: t.pen[i].preyId != id
    requires forall i | 0 <= i < |t.jobs| :: t.jobs[i].preyId != id
    ensures VerdictsOf(t.pen, id) == [] && JobsFor(t.jobs, id) == 0
    decreases |t.pen| + |t.jobs|
  {
    if |t.pen| == 0 {
    } else {
      NothingFor(t.(pen := t.pen[..|t.pen| - 1]), id);
    }
    if |t.jobs| == 0 {
    } else {
      NothingFor(t.(jobs := t.jobs[..|t.jobs| - 1]), id);
    }
  }

  lemma {:induction false} JobsForSame(a: seq<JobRow>, b: seq<JobRow>, prey: Id)
    requires |a| == |b| && forall i | 0 <= i < |a| :: a[i].preyId == b[i].preyId
    ensures JobsFor(a, prey) == JobsFor(b, prey)
  {
    if |a| == 0 {
    } else {
      JobsForSame(a[..|a| - 1], b[..|b| - 1], prey);
    }
  }

  /** A rowcount of one means the guard matched exactly one row. */
  lemma {:induction false} MatchedRow(rows: seq<PreyRow>, prey: Id, verdict: Verdict) returns (k: nat)
    requires MatchCount(rows, prey, verdict) >= 1
    ensures k < |rows| && Matches(rows[k], prey, verdict)
  {
    if Matches(rows[|rows| - 1], prey, verdict) {
      k := |rows| - 1;
    } else {
      k := MatchedRow(rows[..|rows| - 1], prey, verdict);
    }
  }

  function Caught(t: Tables, run: Id, prey: Id, territory: string, posting: string, now: Time): Tables {
    var row := NewRow(t.events, run, PreyCaptured(prey, territory, posting), now);
    InsertPrey(t.(events := t.events + [row]), prey, run, territory, posting, now)
  }

  lemma {:induction false} CaptureKeepsKeys(t: Tables, run: Id, prey: Id, territory: string, posting: string, now: Time)
    requires Keyed(t) && forall i | 0 <= i < |t.prey| :: t.prey[i].id != prey
    ensures Keyed(Caught(t, run, prey, territory, posting, now))
  {
    var u := Caught(t, run, prey, territory, posting, now);
    forall id | InPen(t.prey, id) ensures InPen(u.prey, id) {
      var i :| 0 <= i < |t.prey| && t.prey[i].id == id;
      assert u.prey[i].id == id;
    }
  }

  lemma {:induction false} NothingForNew(t: Tables, prey: Id)
    requires Keyed(t) && !InPen(t.prey, prey)
    ensures VerdictsOf(t.pen, prey) == [] && JobsFor(t.jobs, prey) == 0
  {
    forall i | 0 <= i < |t.pen| ensures t.pen[i].preyId != prey {
      assert InPen(t.prey, t.pen[i].preyId);
    }
    forall i | 0 <= i < |t.jobs| ensures t.jobs[i].preyId != prey {
      assert InPen(t.prey, t.jobs[i].preyId);
    }
    NothingFor(t, prey);
  }

  lemma {:induction false} CaptureKeepsRows(t: Tables, run: Id, prey: Id, territory: string, posting: string, now: Time)
    requires PenAgrees(t) && !InPen(t.prey, prey)
    ensures var u := Caught(t, run, prey, territory, posting, now);
      forall i | 0 <= i < |u.prey| :: RowAgrees(u, u.prey[i])
  {
    var u := Caught(t, run, prey, territory, posting, now);
    NothingForNew(t, prey);
    assert Fold([]) == CAPTURED;
    forall i | 0 <= i < |u.prey| ensures RowAgrees(u, u.prey[i]) {
      if i < |t.prey| {
        assert RowAgrees(t, t.prey[i]);
      }
    }
  }

  lemma {:induction false} CaptureKeepsPen(t: Tables, run: Id, prey: Id, territory: string, posting: string, now: Time)
    requires PenAgrees(t)
    requires forall i | 0 <= i < |t.prey| :: t.prey[i].id != prey
    ensures PenAgrees(Caught(t, run, prey, territory, posting, now))
  {
    CaptureKeepsKeys(t, run, prey, territory, posting, now);
    CaptureKeepsRows(t, run, prey, territory, posting, now);
  }

  lemma {:induction false} DecideKeepsRow(evs: seq<VerdictEvent>, jobs: nat, p: PreyRow, e: VerdictEvent, now: Time)
    requires RowHolds(evs, jobs, p) && p.status == Source(e.verdict)
    ensures RowHolds(evs + [e], jobs + (if e.verdict.Feast? then 1 else 0), Decided(p, e, now))
  {
    assert (evs + [e])[..|evs|] == evs;
    forall k | 0 <= k < |evs + [e]| ensures Fold((evs + [e])[..k]).status == Source((evs + [e])[k].verdict) {
      assert (evs + [e])[..k] == evs[..k];
      assert k == |evs| ==> evs[..k] == evs;
    }
  }

  function Submitted(t: Tables, e: VerdictEvent, job: Id, now: Time): Tables {
    var u := InsertPen(UpdatePrey(t, e, now), e);
    if e.verdict.Feast? then InsertJob(u, job, e.preyId, now) else u
  }

  lemma {:induction false} SubmittedShape(t: Tables, e: VerdictEvent, job: Id, now: Time, id: Id)
    ensures VerdictsOf(Submitted(t, e, job, now).pen, id) ==
      (if id == e.preyId then VerdictsOf(t.pen, id) + [e] else VerdictsOf(t.pen, id))
    ensures JobsFor(Submitted(t, e, job, now).jobs, id) ==
      JobsFor(t.jobs, id) + (if id == e.preyId && e.verdict.Feast? then 1 else 0)
  {
    var u := Submitted(t, e, job, now);
    assert u.pen[..|t.pen|] == t.pen;
    assert e.verdict.Feast? ==> u.jobs[..|t.jobs|] == t.jobs;
  }

  lemma {:induction false} SubmitKeepsKeys(t: Tables, e: VerdictEvent, job: Id, now: Time, k: nat)
    requires Keyed(t) && k < |t.prey| && t.prey[k].id == e.preyId
    ensures Keyed(Submitted(t, e, job, now))
  {
    var u := Submitted(t, e, job, now);
    assert forall i | 0 <= i < |t.prey| :: u.prey[i].id == t.prey[i].id;
    forall id | InPen(t.prey, id) ensures InPen(u.prey, id) {
      var i :| 0 <= i < |t.prey| && t.prey[i].id == id;
      assert u.prey[i].id == id;
    }
    assert InPen(t.prey, e.preyId);
  }

  lemma {:induction false} SubmitKeepsRow(t: Tables, e: VerdictEvent, job: Id, now: Time, i: nat, capture: EventRow)
    requires i < |t.prey| && RowAgrees(t, t.prey[i]) && SameCapture(capture, t.prey[i])
    requires t.prey[i].id == e.preyId ==> t.prey[i].status == Source(e.verdict)
    ensures var u := Submitted(t, e, job, now);
      u.prey[i].id == t.prey[i].id && SameCapture(capture, u.prey[i]) && RowAgrees(u, u.prey[i])
  {
    SubmittedShape(t, e, job, now, t.prey[i].id);
    if t.prey[i].id == e.preyId {
      DecideKeepsRow(VerdictsOf(t.pen, e.preyId), JobsFor(t.jobs, e.preyId), t.prey[i], e, now);
    }
  }

  lemma {:induction false} SubmitKeepsPen(t: Tables, e: VerdictEvent, job: Id, now: Time)
    requires PenAgrees(t) && MatchCount(t.prey, e.preyId, e.verdict) == 1
    ensures PenAgrees(Submitted(t, e, job, now))
  {
    var u := Submitted(t, e, job, now);
    var k := MatchedRow(t.prey, e.preyId, e.verdict);
    SubmitKeepsKeys(t, e, job, now, k);
    forall i | 0 <= i < |t.prey|
      ensures SameCapture(Captures(t.events)[i], u.prey[i]) && RowAgrees(u, u.prey[i])
    {
      assert RowAgrees(t, t.prey[i]) && SameCapture(Captures(t.events)[i], t.prey[i]);
      SubmitKeepsRow(t, e, job, now, i, Captures(t.events)[i]);
    }
  }

  lemma {:induction false} JobsKeepPen(t: Tables, jobs: seq<JobRow>)
    requires PenAgrees(t)
    requires |jobs| == |t.jobs| && forall i | 0 <= i < |jobs| :: jobs[i].preyId == t.jobs[i].preyId
    ensures PenAgrees(t.(jobs := jobs))
  {
    forall i | 0 <= i < |t.prey| ensures RowAgrees(t.(jobs := jobs), t.prey[i]) {
      assert RowAgrees(t, t.prey[i]);
      JobsForSame(t.jobs, jobs, t.prey[i].id);
    }
  }

  lemma {:induction false} SamePen(t: Tables, u: Tables)
    requires PenAgrees(t) && u.prey == t.prey && u.pen == t.pen && u.jobs == t.jobs
    requires Captures(u.events) == Captures(t.events)
    ensures PenAgrees(u)
  {
    forall i | 0 <= i < |t.prey| ensures RowAgrees(u, u.prey[i]) {
      assert RowAgrees(t, t.prey[i]);
    }
  }

  lemma {:induction false} UnfoldStages(t: Tables, op: Op, now: Time)
    requires Apply(t, op, now).Ok?
    ensures Exec(t, op, now, 0) == Staged(t, op, now, 1)
    ensures Stages(op) >= 2 ==>
      Staged(t, op, now, 1).Ok? && Staged(t, op, now, 2) == Exec(Staged(t, op, now, 1).value, op, now, 1)
    ensures Stages(op) == 3 ==>
      Staged(t, op, now, 2).Ok? && Staged(t, op, now, 3) == Exec(Staged(t, op, now, 2).value, op, now, 2)
  {
  }

  lemma {:induction false} ApplyKeepsPen(t: Tables, op: Op, now: Time)
    requires PenAgrees(t) && Admissible(t, op) && Apply(t, op, now).Ok?
    ensures PenAgrees(Apply(t, op, now).value)
  {
    if op.Submit? {
      UnfoldStages(t, op, now);
      assert Apply(t, op, now).value == Submitted(t, op.verdict, op.job, now);
      SubmitKeepsPen(t, op.verdict, op.job, now);
      return;
    }
    UnfoldStages(t, op, now);
    var u := Apply(t, op, now).value;
    match op
    case Capture(run, prey, territory, posting) => CaptureKeepsPen(t, run, prey, territory, posting, now);
    case Append(run, event) =>
      assert u.events[..|t.events|] == t.events;
      SamePen(t, u);
    case Claim(job) => JobsKeepPen(t, MarkRunning(t.jobs, job));
    case Complete(job, result) => JobsKeepPen(t, MarkDone(t.jobs, job, result));
    case Requeue => JobsKeepPen(t, Requeued(t.jobs));
    case _ => SamePen(t, u);
  }

  /**
   FEAST takes effect exactly once: in every state racing writers and crashes can reach, each prey
   row is the fold of its verdict log, every logged verdict was applied, decided_at is null exactly
   while awaiting, and the jobs for a prey = its FEAST events = 1 if feasted, else 0.
   */
  lemma {:induction false} PenAlwaysAgrees(acts: seq<Action>)
    requires After(acts).Some?
    ensures PenAgrees(After(acts).value.committed)
  {
    if |acts| == 0 {
    } else {
      var before := After(acts[..|acts| - 1]).value;
      PenAlwaysAgrees(acts[..|acts| - 1]);
      AfterWholeOps(acts[..|acts| - 1]);
      StepKeepsWholeOps(before, acts[|acts| - 1]);
      if Step(before, acts[|acts| - 1]).committed != before.committed {
        ApplyKeepsPen(before.committed, before.open.value.op, before.open.value.now);
      }
    }
  }

  /** One more verdict moves the rebuilt state as its guard says, or not at all. */
  lemma {:induction false} RebuildMoves(evs: seq<VerdictEvent>, e: VerdictEvent)
    ensures var s, t := Fold(evs), Fold(evs + [e]);
      if CanMove(e.verdict, s.status)
      then && Moves(e.verdict, s.status, t.status)
           && t.reason == (if e.reason.Some? then e.reason else s.reason)
           && t.provenance == (if e.provenance.Some? then e.provenance else s.provenance)
      else t == s
  {
    assert (evs + [e])[..|evs|] == evs;
  }

  predicate Gives(evs: seq<VerdictEvent>, v: Verdict) { exists k | 0 <= k < |evs| :: evs[k].verdict == v }

  predicate EndsWith(evs: seq<VerdictEvent>, v: Verdict) { |evs| > 0 && evs[|evs| - 1].verdict == v }

  /** What a prey's verdicts say of its status. */
  predicate ShownBy(evs: seq<VerdictEvent>, s: Status) {
    && (s.Feasted? <==> Gives(evs, Feast))
    && (s.Released? <==> Gives(evs, Release))
    && (s.Ambered? <==> EndsWith(evs, Amber))
    && (s.Awaiting? <==> evs == [] || EndsWith(evs, Reenter))
  }

  lemma {:induction false} GivesSnoc(evs: seq<VerdictEvent>, e: VerdictEvent, v: Verdict)
    ensures Gives(evs + [e], v) <==> Gives(evs, v) || e.verdict == v
    ensures EndsWith(evs + [e], v) <==> e.verdict == v
  {
    assert (evs + [e])[|evs|] == e && forall k | 0 <= k < |evs| :: (evs + [e])[k] == evs[k];
  }

  lemma {:induction false} ShownNext(evs: seq<VerdictEvent>, e: VerdictEvent)
    requires ShownBy(evs, Fold(evs).status) && CanMove(e.verdict, Fold(evs).status)
    ensures ShownBy(evs + [e], Fold(evs + [e]).status)
  {
    RebuildMoves(evs, e);
    GivesSnoc(evs, e, Feast);
    GivesSnoc(evs, e, Release);
    GivesSnoc(evs, e, Amber);
    GivesSnoc(evs, e, Reenter);
  }

  lemma {:induction false} AppliedSnoc(init: seq<VerdictEvent>, e: VerdictEvent)
    requires AllApplied(init + [e])
    ensures AllApplied(init) && CanMove(e.verdict, Fold(init).status)
  {
    var evs := init + [e];
    assert evs[..|init|] == init && evs[|init|] == e;
    forall k | 0 <= k < |init| ensures Fold(init[..k]).status == Source(init[k].verdict) {
      assert init[..k] == evs[..k] && init[k] == evs[k];
    }
  }

  lemma {:induction false} VerdictsShow(evs: seq<VerdictEvent>)
    requires AllApplied(evs)
    ensures ShownBy(evs, Fold(evs).status)
  {
    if |evs| == 0 {
    } else {
      var init, e := evs[..|evs| - 1], evs[|evs| - 1];
      assert evs == init + [e];
      AppliedSnoc(init, e);
      VerdictsShow(init);
      ShownNext(init, e);
    }
  }

  /**
   In every reachable state a prey's verdicts tell its status: it is feasted or released exactly if it
   was ever judged so, ambered exactly if that was the last verdict, and awaiting otherwise.
   */
  lemma {:induction false} StatusIsTheVerdicts(acts: seq<Action>, i: nat)
    requires After(acts).Some? && i < |After(acts).value.committed.prey|
    ensures var t := After(acts).value.committed;
      ShownBy(VerdictsOf(t.pen, t.prey[i].id), t.prey[i].status)
  {
    var t := After(acts).value.committed;
    PenAlwaysAgrees(acts);
    assert RowAgrees(t, t.prey[i]);
    VerdictsShow(VerdictsOf(t.pen, t.prey[i].id));
  }

  /** A row keeps its place and its capture facts, and once feasted or released never changes. */
  predicate Settles(before: seq<PreyRow>, after: seq<PreyRow>) {
    && |before| <= |after|
    && forall i | 0 <= i < |before| ::
         && after[i].id == before[i].id && after[i].runId == before[i].runId
         && after[i].territory == before[i].territory && after[i].posting == before[i].posting
         && after[i].capturedAt == before[i].capturedAt
         && (before[i].status.Feasted? || before[i].status.Released? ==> after[i] == before[i])
  }

  lemma {:induction false} ApplySettles(t: Tables, op: Op, now: Time)
    requires Apply(t, op, now).Ok?
    ensures Settles(t.prey, Apply(t, op, now).value.prey)
  {
    UnfoldStages(t, op, now);
  }

  /** Feasted and released are final, and a captured row keeps its place, over any run. */
  lemma {:induction false} VerdictsAreFinal(acts: seq<Action>, n: nat)
    requires After(acts).Some? && n <= |acts|
    ensures After(acts[..n]).Some?
    ensures Settles(After(acts[..n]).value.committed.prey, After(acts).value.committed.prey)
    decreases |acts|
  {
    if n == |acts| {
      assert acts[..n] == acts;
    } else {
      var shorter := acts[..|acts| - 1];
      VerdictsAreFinal(shorter, n);
      assert shorter[..n] == acts[..n];
      AfterWholeOps(shorter);
      var s, a := After(shorter).value, acts[|acts| - 1];
      StepKeepsWholeOps(s, a);
      if Step(s, a).committed != s.committed {
        ApplySettles(s.committed, s.open.value.op, s.open.value.now);
      }
      assert Settles(s.committed.prey, Step(s, a).committed.prey);
    }
  }

  /**
   Capture atomicity is a matter of when the commit falls: of the three points at which the
   connection could commit, only the one between the two writes breaks the pen.
   */
  lemma {:induction false} CaptureCommitPoints(t: Tables, run: Id, prey: Id, territory: string, posting: string,
          now: Time, k: nat)
    requires PenAgrees(t) && k <= 2
    requires Admissible(t, Capture(run, prey, territory, posting))
    requires Apply(t, Capture(run, prey, territory, posting), now).Ok?
    ensures var u := Staged(t, Capture(run, prey, territory, posting), now, k);
      u.Ok? && (CapturesAgree(u.value) <==> k != 1)
  {
    var op := Capture(run, prey, territory, posting);
    UnfoldStages(t, op, now);
    CaptureKeepsPen(t, run, prey, territory, posting, now);
    if k == 1 {
      var u := Staged(t, op, now, 1).value;
      assert u.events[..|t.events|] == t.events;
      assert |Captures(u.events)| == |t.prey| + 1;
    }
  }

  /** How the run goes on after an interrupted capture: it is closed, or the backstop records the error first. */
  predicate Follows(op: Op, run: Id) {
    (op.Finish? && op.run == run) || (op.Append? && op.run == run && op.event.Error?)
  }

  lemma {:induction false} FollowsCaptures(t: Tables, op: Op, run: Id, now: Time)
    requires Follows(op, run) && DualCursor(t.events) && RunExists(t, run)
    ensures var u := Apply(t, op, now);
      u.Ok? && Captures(u.value.events) == Captures(t.events) && u.value.prey == t.prey
  {
    assert Staged(t, op, now, 1) == Exec(t, op, now, 0);
    if op.Append? {
      InsertEventOk(t, run, op.event, now);
    }
  }

  lemma {:induction false} CaptureStarts(t: Tables, op: Op, now: Time, k: nat)
    requires op.Capture? && DualCursor(t.events) && 1 <= k <= 2 && Staged(t, op, now, k).Ok?
    ensures Apply(t, op, now).Ok?
    ensures var u := Staged(t, op, now, k).value; DualCursor(u.events) && RunExists(u, op.run)
  {
    assert Staged(t, op, now, 1) == Exec(t, op, now, 0);
    InsertEventOk(t, op.run, PreyCaptured(op.prey, op.territory, op.posting), now);
  }

  /**
   The same of reachable states. Say a capture is interrupted, and the next operation on its connection
   is the finish_run that closes the run, or the append of the error that got in its way: its commit
   takes the unfinished capture along. Log and pen then agree if and only if both writes were in.
   */
  lemma {:induction false} InterruptedCaptureIff(acts: seq<Action>, next: Op, now: Time)
    requires After(acts).Some? && After(acts).value.open.Some? && After(acts).value.open.value.op.Capture?
    requires Follows(next, After(acts).value.open.value.op.run)
    ensures var x := After(acts).value.open.value;
      var u := Apply(x.pending, next, now);
      u.Ok? && (CapturesAgree(u.value) <==> x.done == 2)
  {
    var s := After(acts).value;
    var x, op := s.open.value, s.open.value.op;
    AfterWholeOps(acts);
    PenAlwaysAgrees(acts);
    DualCursorAlways(acts);
    CaptureStarts(s.committed, op, x.now, x.done);
    CaptureCommitPoints(s.committed, op.run, op.prey, op.territory, op.posting, x.now, x.done);
    FollowsCaptures(x.pending, next, op.run, now);
  }
}
