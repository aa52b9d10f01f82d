/**
 The assembler: the folded log overlaid with the runs table and with each prey's own verdict log.
 What it shows of the pen is the prey table, which it never reads.
 */
module Overlay {
  import opened Prelude
  import opened Events
  import opened Tables
  import opened WriteAhead
  import opened View
  import Pen

  /** No run: every row by global id. A run: its own rows by seq. */
  function LogRows(t: Tables, run: Option<Id>): seq<EventRow> {
    match run
    case None => OrderBy(ById, t.events)
    case Some(r) => OrderBy(BySeq, RunRows(t.events, r))
  }

  function Facts(runs: seq<RunRow>): map<Id, RunRow> {
    if |runs| == 0 then map[] else Facts(runs[..|runs| - 1])[runs[|runs| - 1].id := runs[|runs| - 1]]
  }

  /** A run view without a runs row keeps its defaults. */
  function OverlayRun(facts: map<Id, RunRow>, v: RunView): RunView {
    if v.runId !in facts then v
    else
      var row := facts[v.runId];
      v.(territory := Some(row.territory), outcome := row.outcome,
         costCeiling := row.costCeiling, maxIterations := row.maxIterations)
  }

  function OverlayCard(pen: seq<VerdictEvent>, c: PreyCard): PreyCard {
    var s := Pen.Fold(VerdictsOf(pen, c.preyId));
    c.(status := s.status, reason := s.reason, provenance := s.provenance)
  }

  function OverlayRuns(t: Tables, views: seq<RunView>): seq<RunView> {
    seq(|views|, i requires 0 <= i < |views| => OverlayRun(Facts(t.runs), views[i]))
  }

  function OverlayPen(t: Tables, cards: seq<PreyCard>): seq<PreyCard> {
    seq(|cards|, i requires 0 <= i < |cards| => OverlayCard(t.pen, cards[i]))
  }

  function Assembled(t: Tables, run: Option<Id>): ViewState {
    var v := Finalize(View.Fold(LogRows(t, run)));
    v.(runs := OverlayRuns(t, v.runs), pen := OverlayPen(t, v.pen))
  }

  /** The assembly as the source runs it: project, then grow each overlaid list. */
  method BuildViewState(t: Tables, run: Option<Id>) returns (state: ViewState)
    ensures state == Assembled(t, run)
  {
    var acc := FoldRows(LogRows(t, run));
    state := Finalize(Acc(acc.highWater, acc.order, acc.runs, acc.pen));
    ghost var plain := state;
    var facts := map[];
    for i := 0 to |t.runs|
      invariant facts == Facts(t.runs[..i])
    {
      assert t.runs[..i + 1][..i] == t.runs[..i];
      facts := facts[t.runs[i].id := t.runs[i]];
    }
    assert t.runs[..|t.runs|] == t.runs;
    var runs := [];
    for i := 0 to |state.runs|
      invariant runs == OverlayRuns(t, plain.runs)[..i]
    {
      runs := runs + [OverlayRun(facts, state.runs[i])];
    }
    state := state.(runs := runs);
    if |state.pen| == 0 {
      return;
    }
    var pen := [];
    for i := 0 to |state.pen|
      invariant pen == OverlayPen(t, plain.pen)[..i]
    {
      var status, reason, provenance := Pen.Rebuild(VerdictsOf(t.pen, state.pen[i].preyId));
      pen := pen + [state.pen[i].(status := status, reason := reason, provenance := provenance)];
    }
    state := state.(pen := pen);
  }

  // ----- the view's pen is the prey table -----

  /** The prey rows, as cards, in capture order. */
  function PreyCards(prey: seq<PreyRow>): seq<PreyCard> {
    seq(|prey|, i requires 0 <= i < |prey| =>
      PreyCard(prey[i].id, prey[i].territory, prey[i].posting, prey[i].status, prey[i].reason, prey[i].provenance))
  }

  lemma {:induction false} CardsAreCaptures(rows: seq<EventRow>)
    ensures |Cards(rows)| == |Pen.Captures(rows)|
    ensures forall i | 0 <= i < |Cards(rows)| ::
      Pen.Captures(rows)[i].event.PreyCaptured? && Cards(rows)[i] == Card(Pen.Captures(rows)[i].event)
  {
    if |rows| == 0 {
    } else {
      CardsAreCaptures(rows[..|rows| - 1]);
    }
  }

  /** The rows of these captures are shown as their cards. */
  lemma {:induction false} CapturesShown(t: Tables, rows: seq<EventRow>, prey: seq<PreyRow>)
    requires Ascending(rows) && SameCaptures(rows, prey)
    requires forall i | 0 <= i < |prey| :: Pen.RowAgrees(t, prey[i])
    ensures OverlayPen(t, Finalize(View.Fold(rows)).pen) == PreyCards(prey)
  {
    FoldHolds(rows);
    CardsAreCaptures(rows);
    forall i | 0 <= i < |prey| ensures OverlayCard(t.pen, Cards(rows)[i]) == PreyCards(prey)[i] {
      assert Pen.SameCapture(Pen.Captures(rows)[i], prey[i]);
      assert Pen.RowAgrees(t, prey[i]);
    }
  }

  predicate SameCaptures(rows: seq<EventRow>, prey: seq<PreyRow>) {
    && |Pen.Captures(rows)| == |prey|
    && forall i | 0 <= i < |prey| :: Pen.SameCapture(Pen.Captures(rows)[i], prey[i])
  }

  /** The prey rows of one run, in capture order. */
  function PreyOf(prey: seq<PreyRow>, run: Id): seq<PreyRow> {
    if |prey| == 0 then []
    else
      var rest := PreyOf(prey[..|prey| - 1], run);
      if prey[|prey| - 1].runId == run then rest + [prey[|prey| - 1]] else rest
  }

  lemma {:induction false} PreyOfAgrees(t: Tables, prey: seq<PreyRow>, run: Id)
    requires forall i | 0 <= i < |prey| :: Pen.RowAgrees(t, prey[i])
    ensures forall i | 0 <= i < |PreyOf(prey, run)| :: Pen.RowAgrees(t, PreyOf(prey, run)[i])
  {
    if |prey| == 0 {
    } else {
      PreyOfAgrees(t, prey[..|prey| - 1], run);
    }
  }

  /** A run's captures are its prey rows, if the log's are the table's. */
  lemma {:induction false} RunCaptures(rows: seq<EventRow>, prey: seq<PreyRow>, run: Id)
    requires SameCaptures(rows, prey)
    ensures SameCaptures(RunRows(rows, run), PreyOf(prey, run))
  {
    if |rows| == 0 {
    } else {
      var init, row := rows[..|rows| - 1], rows[|rows| - 1];
      if row.event.PreyCaptured? {
        var n := |prey| - 1;
        assert Pen.Captures(rows) == Pen.Captures(init) + [row];
        assert Pen.SameCapture(Pen.Captures(rows)[n], prey[n]);
        assert forall i | 0 <= i < n :: Pen.Captures(rows)[i] == Pen.Captures(init)[i] && prey[..n][i] == prey[i];
        RunCaptures(init, prey[..n], run);
      } else {
        RunCaptures(init, prey, run);
      }
    }
  }

  /**
   The view's pen equals the prey table: in every state captures, verdicts and crashes can reach, the
   cards match the rows on id, territory, posting, status, reason and provenance, in capture order.
   */
  lemma {:induction false} ViewPenIsPreyTable(acts: seq<Action>)
    requires After(acts).Some?
    ensures var t := After(acts).value.committed; Assembled(t, None).pen == PreyCards(t.prey)
  {
    var t := After(acts).value.committed;
    DualCursorAlways(acts);
    Pen.PenAlwaysAgrees(acts);
    OrderBySorted(ById, t.events);
    CapturesShown(t, t.events, t.prey);
  }

  /** Under the replay cursor it equals the run's part of the table. */
  lemma {:induction false} ReplayPenIsPreyTable(acts: seq<Action>, run: Id)
    requires After(acts).Some?
    ensures var t := After(acts).value.committed; Assembled(t, Some(run)).pen == PreyCards(PreyOf(t.prey, run))
  {
    var t := After(acts).value.committed;
    DualCursorAlways(acts);
    Pen.PenAlwaysAgrees(acts);
    ReplayRows(t, run);
    RunRowsFrom(t.events, run);
    RunCaptures(t.events, t.prey, run);
    PreyOfAgrees(t, t.prey, run);
    CapturesShown(t, RunRows(t.events, run), PreyOf(t.prey, run));
  }

  // ----- the runs overlay -----

  /** runs.id is a key, and every event's run is in the table. */
  ghost predicate RunsKeyed(t: Tables) {
    && (forall i, j | 0 <= i < j < |t.runs| :: t.runs[i].id != t.runs[j].id)
    && (forall k | 0 <= k < |t.events| :: RunExists(t, t.events[k].runId))
  }

  /** The update of a run leaves its id, territory and caps. */
  predicate SameRuns(a: seq<RunRow>, b: seq<RunRow>) {
    |a| == |b| && forall i | 0 <= i < |a| ::
      a[i].id == b[i].id && a[i].territory == b[i].territory && a[i].startedAt == b[i].startedAt
      && a[i].costCeiling == b[i].costCeiling && a[i].maxIterations == b[i].maxIterations
  }

  lemma {:induction false} SameRunsKeyed(t: Tables, u: Tables)
    requires RunsKeyed(t) && SameRuns(t.runs, u.runs)
    requires forall k | 0 <= k < |u.events| :: RunExists(t, u.events[k].runId)
    ensures RunsKeyed(u)
  {
    forall k | 0 <= k < |u.events| ensures RunExists(u, u.events[k].runId) {
      var i :| 0 <= i < |t.runs| && t.runs[i].id == u.events[k].runId;
      assert u.runs[i].id == u.events[k].runId;
    }
  }

  lemma {:induction false} StartKeepsRunsKeyed(t: Tables, run: Id, territory: string, now: Time,
          ceiling: Option<int>, iterations: Option<int>)
    requires RunsKeyed(t) && !RunExists(t, run)
    ensures RunsKeyed(InsertRun(t, run, territory, now, ceiling, iterations))
  {
    var u := InsertRun(t, run, territory, now, ceiling, iterations);
    forall k | 0 <= k < |u.events| ensures RunExists(u, u.events[k].runId) {
      var i :| 0 <= i < |t.runs| && t.runs[i].id == t.events[k].runId;
      assert u.runs[i].id == u.events[k].runId;
    }
  }

  lemma {:induction false} ApplyKeepsRunsKeyed(t: Tables, op: Op, now: Time)
    requires RunsKeyed(t) && Admissible(t, op) && WriteAhead.Apply(t, op, now).Ok?
    ensures RunsKeyed(WriteAhead.Apply(t, op, now).value)
  {
    Pen.UnfoldStages(t, op, now);
    if op.StartRun? {
      StartKeepsRunsKeyed(t, op.run, op.territory, now, op.costCeiling, op.maxIterations);
    } else {
      SameRunsKeyed(t, WriteAhead.Apply(t, op, now).value);
    }
  }

  lemma {:induction false} RunsAlwaysKeyed(acts: seq<Action>)
    requires After(acts).Some?
    ensures RunsKeyed(After(acts).value.committed)
  {
    if |acts| == 0 {
    } else {
      var before := After(acts[..|acts| - 1]).value;
      RunsAlwaysKeyed(acts[..|acts| - 1]);
      AfterWholeOps(acts[..|acts| - 1]);
      StepKeepsWholeOps(before, acts[|acts| - 1]);
      if WriteAhead.Step(before, acts[|acts| - 1]).committed != before.committed {
        ApplyKeepsRunsKeyed(before.committed, before.open.value.op, before.open.value.now);
      }
    }
  }

  lemma {:induction false} FactsOf(runs: seq<RunRow>, k: nat)
    requires k < |runs| && forall i, j | 0 <= i < j < |runs| :: runs[i].id != runs[j].id
    ensures runs[k].id in Facts(runs) && Facts(runs)[runs[k].id] == runs[k]
  {
    if k == |runs| - 1 {
    } else {
      FactsOf(runs[..|runs| - 1], k);
    }
  }

  /** The view of one run: its folded record under its own runs row. */
  function Shown(t: Tables, row: RunRow): RunView {
    ViewOf(row.id, FoldRun(RunLog(t.events, row.id))).(territory := Some(row.territory), outcome := row.outcome,
      costCeiling := row.costCeiling, maxIterations := row.maxIterations)
  }

  /** The run's own row, and what its log tells. */
  ghost predicate ShowsRun(v: RunView, row: RunRow, log: seq<Event>) {
    && v.runId == row.id && v.territory == Some(row.territory) && v.outcome == row.outcome
    && v.costCeiling == row.costCeiling && v.maxIterations == row.maxIterations && Tells(v, log)
  }

  lemma {:induction false} RunShown(t: Tables, acc: Acc, run: Id, k: nat)
    requires RunsKeyed(t) && k < |t.runs| && t.runs[k].id == run && RunOf(acc, run) == FoldRun(RunLog(t.events, run))
    ensures OverlayRun(Facts(t.runs), ViewOf(run, RunOf(acc, run))) == Shown(t, t.runs[k])
  {
    FactsOf(t.runs, k);
  }

  lemma {:induction false} OneRunFold(rows: seq<EventRow>, run: Id)
    requires Ascending(rows) && forall k | 0 <= k < |rows| :: rows[k].runId == run
    ensures View.Fold(rows).order == if |rows| == 0 then [] else [run]
    ensures run in View.Fold(rows).runs <==> |rows| > 0
  {
    if |rows| == 0 {
    } else {
      FoldHolds(rows[..|rows| - 1]);
      OneRunFold(rows[..|rows| - 1], run);
    }
  }

  lemma {:induction false} ReplayRows(t: Tables, run: Id)
    requires DualCursor(t.events)
    ensures LogRows(t, Some(run)) == RunRows(t.events, run)
  {
    assert Dense(t.events, run);
    OrderBySorted(BySeq, RunRows(t.events, run));
  }

  lemma {:induction false} ReplayFold(t: Tables, run: Id)
    requires DualCursor(t.events) && RunRows(t.events, run) != []
    ensures View.Fold(LogRows(t, Some(run))).order == [run]
    ensures RunOf(View.Fold(LogRows(t, Some(run))), run) == FoldRun(RunLog(t.events, run))
  {
    ReplayRows(t, run);
    RunRowsFrom(t.events, run);
    OneRunFold(RunRows(t.events, run), run);
    OwnRowsRecord(t.events, run);
  }

  lemma {:induction false} ReplayShowsTheRun(t: Tables, k: nat)
    requires DualCursor(t.events) && RunsKeyed(t) && k < |t.runs| && RunRows(t.events, t.runs[k].id) != []
    ensures Assembled(t, Some(t.runs[k].id)).runs == [Shown(t, t.runs[k])]
  {
    var run := t.runs[k].id;
    var acc := View.Fold(LogRows(t, Some(run)));
    ReplayFold(t, run);
    RunShown(t, acc, run, k);
    assert Views([run], acc) == [ViewOf(run, RunOf(acc, run))];
  }

  lemma {:induction false} LiveShowsTheRun(t: Tables, k: nat)
    requires DualCursor(t.events) && RunsKeyed(t) && k < |t.runs| && RunRows(t.events, t.runs[k].id) != []
    ensures Shown(t, t.runs[k]) in Assembled(t, None).runs
  {
    var run := t.runs[k].id;
    var live := View.Fold(t.events);
    OrderBySorted(ById, t.events);
    FoldHolds(t.events);
    FoldConserves(t.events);
    RunShown(t, live, run, k);
    var i :| 0 <= i < |live.order| && live.order[i] == run;
    assert Assembled(t, None).runs[i] == Shown(t, t.runs[k]);
  }

  /**
   Both cursors show a run alike, in every reachable state: replaying one run's rows by seq shows the
   very view that run has in the live feed, its log's record under its own runs row.
   */
  lemma {:induction false} BothCursorsShowTheRun(acts: seq<Action>, k: nat)
    requires After(acts).Some?
    requires var t := After(acts).value.committed; k < |t.runs| && RunRows(t.events, t.runs[k].id) != []
    ensures var t := After(acts).value.committed;
      && Assembled(t, Some(t.runs[k].id)).runs == [Shown(t, t.runs[k])]
      && Shown(t, t.runs[k]) in Assembled(t, None).runs
      && ShowsRun(Shown(t, t.runs[k]), t.runs[k], RunLog(t.events, t.runs[k].id))
  {
    RecordTells(After(acts).value.committed.runs[k].id,
                RunLog(After(acts).value.committed.events, After(acts).value.committed.runs[k].id));
    DualCursorAlways(acts);
    RunsAlwaysKeyed(acts);
    ReplayShowsTheRun(After(acts).value.committed, k);
    LiveShowsTheRun(After(acts).value.committed, k);
  }
}
