/**
 The projection reducer: a fold of log rows into per-run records and a pen of captures, resumable
 from any prefix and deaf to rows it has already folded.
 */
module View {
  import opened Prelude
  import opened Events
  import opened Cost
  import opened Tables
  import opened WriteAhead
  import Budget
  import Grammar
  import Loop

  datatype RunAcc = RunAcc(openTool: Option<string>, thinking: string, preyCount: nat, errorCount: nat,
                           turns: nat, usage: seq<UsageEvent>)

  const NEW_RUN := RunAcc(None, [], 0, 0, 0, [])

  datatype PreyCard = PreyCard(preyId: Id, territory: string, posting: string, status: Status,
                               reason: Option<string>, provenance: Option<string>)

  /** The runs keep the order in which they were first seen. */
  datatype Acc = Acc(highWater: nat, order: seq<Id>, runs: map<Id, RunAcc>, pen: seq<PreyCard>)

  const NOTHING := Acc(0, [], map[], [])

  function ApplyRun(r: RunAcc, e: Event): RunAcc {
    match e
    case ToolCall(tool, _, _, _) => r.(openTool := Some(tool), turns := r.turns + 1)
    case ToolResult(_, _, _, _) => r.(openTool := None)
    case Error(tool, _, _, _, _, _) =>
      r.(errorCount := r.errorCount + 1, openTool := if r.openTool == Some(tool) then None else r.openTool)
    case PreyCaptured(_, _, _) => r.(preyCount := r.preyCount + 1)
    case ThinkingDelta(text) => r.(thinking := r.thinking + text)
    case Usage(_, _, _) => r.(usage := r.usage + [e])
    case Sniff(_) => r
  }

  function Card(e: Event): PreyCard
    requires e.PreyCaptured?
  {
    PreyCard(e.preyId, e.territory, e.rawPosting, Awaiting, None, None)
  }

  function RunOf(acc: Acc, run: Id): RunAcc { if run in acc.runs then acc.runs[run] else NEW_RUN }

  /** Folding one row that has not been folded yet. */
  function Applied(acc: Acc, row: EventRow): Acc {
    Acc(acc.highWater,
        if row.runId in acc.runs then acc.order else acc.order + [row.runId],
        acc.runs[row.runId := ApplyRun(RunOf(acc, row.runId), row.event)],
        if row.event.PreyCaptured? then acc.pen + [Card(row.event)] else acc.pen)
  }

  /** A row at or below the high-water mark is a replay. */
  function Stepped(acc: Acc, row: EventRow): Acc {
    if row.id <= acc.highWater then acc else Applied(acc.(highWater := row.id), row)
  }

  function FoldFrom(acc: Acc, rows: seq<EventRow>): Acc {
    if |rows| == 0 then acc else Stepped(FoldFrom(acc, rows[..|rows| - 1]), rows[|rows| - 1])
  }

  function Fold(rows: seq<EventRow>): Acc { FoldFrom(NOTHING, rows) }

  /** The fold state as the source keeps it, updated row by row. */
  class Accumulator {
    var highWater: nat
    var order: seq<Id>
    var runs: map<Id, RunAcc>
    var pen: seq<PreyCard>

    ghost function State(): Acc
      reads this
    {
      Acc(highWater, order, runs, pen)
    }

    constructor ()
      ensures State() == NOTHING
    {
      highWater, order, runs, pen := 0, [], map[], [];
    }

    method Apply(row: EventRow)
      modifies this
      ensures State() == Applied(old(State()), row)
    {
      var run := NEW_RUN;
      if row.runId in runs {
        run := runs[row.runId];
      } else {
        order := order + [row.runId];
      }
      match row.event {
        case ToolCall(tool, _, _, _) =>
          run := run.(openTool := Some(tool));
          run := run.(turns := run.turns + 1);
        case ToolResult(_, _, _, _) =>
          run := run.(openTool := None);
        case Error(tool, _, _, _, _, _) =>
          run := run.(errorCount := run.errorCount + 1);
          if run.openTool == Some(tool) {
            run := run.(openTool := None);
          }
        case PreyCaptured(id, territory, posting) =>
          run := run.(preyCount := run.preyCount + 1);
          pen := pen + [PreyCard(id, territory, posting, Awaiting, None, None)];
        case ThinkingDelta(text) =>
          run := run.(thinking := run.thinking + text);
        case Usage(_, _, _) =>
          run := run.(usage := run.usage + [row.event]);
        case Sniff(_) =>
      }
      runs := runs[row.runId := run];
    }

    method Step(row: EventRow)
      modifies this
      ensures State() == Stepped(old(State()), row)
    {
      if row.id <= highWater {
        return;
      }
      highWater := row.id;
      Apply(row);
    }

    method StepAll(rows: seq<EventRow>)
      modifies this
      ensures State() == FoldFrom(old(State()), rows)
    {
      for i := 0 to |rows|
        invariant State() == FoldFrom(old(State()), rows[..i])
      {
        assert rows[..i + 1][..i] == rows[..i];
        Step(rows[i]);
      }
      assert rows[..|rows|] == rows;
    }
  }

  method FoldRows(rows: seq<EventRow>) returns (acc: Accumulator)
    ensures fresh(acc) && acc.State() == Fold(rows)
  {
    acc := new Accumulator();
    acc.StepAll(rows);
  }

  /** Resuming works on a copy: the accumulator it was given is left alone. */
  method FoldRowsFrom(acc: Accumulator, rows: seq<EventRow>) returns (resumed: Accumulator)
    ensures fresh(resumed) && resumed.State() == FoldFrom(acc.State(), rows)
  {
    resumed := new Accumulator();
    resumed.highWater, resumed.order, resumed.runs, resumed.pen := acc.highWater, acc.order, acc.runs, acc.pen;
    resumed.StepAll(rows);
  }

  // ----- incremental, overlapping and repeated folds -----

  lemma {:induction false} FoldConcat(acc: Acc, a: seq<EventRow>, b: seq<EventRow>)
    ensures FoldFrom(FoldFrom(acc, a), b) == FoldFrom(acc, a + b)
  {
    if |b| == 0 {
      assert a + b == a;
    } else {
      FoldConcat(acc, a, b[..|b| - 1]);
      assert (a + b)[..|a + b| - 1] == a + b[..|b| - 1];
    }
  }

  /** Folding a tail onto the fold of a prefix is folding the whole. */
  lemma {:induction false} IncrementalIsBatch(prefix: seq<EventRow>, tail: seq<EventRow>)
    ensures FoldFrom(Fold(prefix), tail) == Fold(prefix + tail)
  {
    FoldConcat(NOTHING, prefix, tail);
  }

  lemma {:induction false} FoldedBelowMark(acc: Acc, rows: seq<EventRow>)
    ensures acc.highWater <= FoldFrom(acc, rows).highWater
    ensures forall k | 0 <= k < |rows| :: rows[k].id <= FoldFrom(acc, rows).highWater
  {
    if |rows| == 0 {
    } else {
      FoldedBelowMark(acc, rows[..|rows| - 1]);
    }
  }

  lemma {:induction false} SeenRowsFoldToNothing(acc: Acc, seen: seq<EventRow>)
    requires forall k | 0 <= k < |seen| :: seen[k].id <= acc.highWater
    ensures FoldFrom(acc, seen) == acc
  {
    if |seen| == 0 {
    } else {
      SeenRowsFoldToNothing(acc, seen[..|seen| - 1]);
    }
  }

  /** Re-applying rows already folded, any of them, in any order and any number of times, changes nothing. */
  lemma {:induction false} ReplayChangesNothing(rows: seq<EventRow>, seen: seq<EventRow>)
    requires forall k | 0 <= k < |seen| :: seen[k] in rows
    ensures FoldFrom(Fold(rows), seen) == Fold(rows)
    ensures Finalize(FoldFrom(Fold(rows), seen)) == Finalize(Fold(rows))
  {
    FoldedBelowMark(NOTHING, rows);
    SeenRowsFoldToNothing(Fold(rows), seen);
  }

  lemma {:induction false} SliceSeen(rows: seq<EventRow>, i: nat, j: nat)
    requires i <= j <= |rows|
    ensures forall k | 0 <= k < |rows[i..j]| :: rows[i..j][k] in rows[..j]
    ensures rows[i..] == rows[i..j] + rows[j..] && rows == rows[..j] + rows[j..]
  {
    forall k | 0 <= k < j - i ensures rows[i..j][k] in rows[..j] {
      assert rows[i..j][k] == rows[..j][i + k];
    }
  }

  /**
   A resume that overlaps what was folded: rows from `i` onto the fold of the first `j` rows give the
   fold of the whole. It holds of every row list; id order is not needed.
   */
  lemma {:induction false} OverlappingResume(rows: seq<EventRow>, i: nat, j: nat)
    requires i <= j <= |rows|
    ensures FoldFrom(Fold(rows[..j]), rows[i..]) == Fold(rows)
  {
    var prefix, seen, tail := rows[..j], rows[i..j], rows[j..];
    SliceSeen(rows, i, j);
    ReplayChangesNothing(prefix, seen);
    FoldConcat(Fold(prefix), seen, tail);
    IncrementalIsBatch(prefix, tail);
  }

  // ----- what the view shows -----

  datatype RunView = RunView(runId: Id, currentTool: Option<string>, thinking: string, spent: int, preyCount: nat,
                             errorCount: nat, turns: nat, territory: Option<string>, outcome: Option<Outcome>,
                             costCeiling: Option<int>, maxIterations: Option<int>)

  datatype ViewState = ViewState(highWater: nat, runs: seq<RunView>, pen: seq<PreyCard>, spent: int)

  function ViewOf(run: Id, r: RunAcc): RunView {
    RunView(run, r.openTool, r.thinking, FoldCost(r.usage), r.preyCount, r.errorCount, r.turns, None, None, None, None)
  }

  function AllUsage(order: seq<Id>, acc: Acc): seq<Event> {
    if |order| == 0 then []
    else AllUsage(order[..|order| - 1], acc) + RunOf(acc, order[|order| - 1]).usage
  }

  function Views(order: seq<Id>, acc: Acc): seq<RunView> {
    seq(|order|, i requires 0 <= i < |order| => ViewOf(order[i], RunOf(acc, order[i])))
  }

  function Finalize(acc: Acc): ViewState {
    ViewState(acc.highWater, Views(acc.order, acc), acc.pen, FoldCost(AllUsage(acc.order, acc)))
  }

  // ----- one reducer, two cursors -----

  /** One run's record, from its log alone. */
  function FoldRun(log: seq<Event>): RunAcc {
    if |log| == 0 then NEW_RUN else ApplyRun(FoldRun(log[..|log| - 1]), log[|log| - 1])
  }

  /** The captures' cards, in log order. */
  function Cards(rows: seq<EventRow>): seq<PreyCard> {
    if |rows| == 0 then []
    else
      var rest := Cards(rows[..|rows| - 1]);
      if rows[|rows| - 1].event.PreyCaptured? then rest + [Card(rows[|rows| - 1].event)] else rest
  }

  /** What the fold holds of a log: each run's record is its own log's, and the mark is the last id. */
  ghost predicate Holds(rows: seq<EventRow>, acc: Acc) {
    && acc.highWater == (if |rows| == 0 then 0 else rows[|rows| - 1].id)
    && acc.pen == Cards(rows)
    && (forall run :: run in acc.runs <==> RunRows(rows, run) != [])
    && (forall run :: RunOf(acc, run) == FoldRun(RunLog(rows, run)))
  }

  lemma {:induction false} StepHolds(init: seq<EventRow>, acc: Acc, row: EventRow)
    requires Holds(init, acc) && acc.highWater < row.id
    ensures Holds(init + [row], Stepped(acc, row))
  {
    var rows, next := init + [row], Stepped(acc, row);
    assert rows[..|init|] == init;
    forall run ensures run in next.runs <==> RunRows(rows, run) != []
      ensures RunOf(next, run) == FoldRun(RunLog(rows, run))
    {
      RunRowsSnoc(init, row, run);
    }
  }

  lemma {:induction false} FoldHolds(rows: seq<EventRow>)
    requires Ascending(rows)
    ensures Holds(rows, Fold(rows))
  {
    if |rows| == 0 {
      assert RunLog(rows, 0) == [];
    } else {
      var init, row := rows[..|rows| - 1], rows[|rows| - 1];
      FoldHolds(init);
      StepHolds(init, Fold(init), row);
      assert rows == init + [row];
    }
  }

  lemma {:induction false} RunRowsTwice(rows: seq<EventRow>, run: Id)
    ensures RunRows(RunRows(rows, run), run) == RunRows(rows, run)
  {
    if |rows| == 0 {
    } else {
      RunRowsTwice(rows[..|rows| - 1], run);
      RunRowsSnoc(RunRows(rows[..|rows| - 1], run), rows[|rows| - 1], run);
    }
  }

  /** Folded alone, a run's rows give the record the run's log gives. */
  lemma {:induction false} OwnRowsRecord(rows: seq<EventRow>, run: Id)
    requires Ascending(rows)
    ensures run in Fold(RunRows(rows, run)).runs <==> RunRows(rows, run) != []
    ensures RunOf(Fold(RunRows(rows, run)), run) == FoldRun(RunLog(rows, run))
  {
    var own := RunRows(rows, run);
    RunRowsFrom(rows, run);
    RunRowsTwice(rows, run);
    FoldHolds(own);
    assert RunOf(Fold(own), run) == FoldRun(RunLog(own, run));
  }

  /**
   One reducer, two cursors: on any reachable log, a run's record in the fold of everything, by
   global id, is its record in the fold of its own rows, by seq.
   */
  lemma {:induction false} TwoCursors(t: Tables, run: Id)
    requires DualCursor(t.events)
    ensures var live, ghostly := Fold(OrderBy(ById, t.events)), Fold(OrderBy(BySeq, RunRows(t.events, run)));
      && (run in live.runs <==> run in ghostly.runs)
      && RunOf(live, run) == RunOf(ghostly, run) == FoldRun(ReadEvents(t, run))
  {
    OrderBySorted(ById, t.events);
    ReplayIsRunLog(t, run);
    FoldHolds(t.events);
    OwnRowsRecord(t.events, run);
  }

  // ----- what a record means -----

  /** The call at `i` is not yet closed: nothing after it is a call, a result, or an error of its own tool. */
  predicate OpenAt(log: seq<Event>, i: nat) {
    && i < |log| && log[i].ToolCall?
    && forall m | i < m < |log| ::
         !log[m].ToolCall? && !log[m].ToolResult? && !(log[m].Error? && log[m].tool == log[i].tool)
  }

  lemma {:induction false} OpenSnoc(log: seq<Event>, e: Event, i: nat)
    requires i < |log|
    ensures OpenAt(log + [e], i) <==>
      OpenAt(log, i) && !e.ToolCall? && !e.ToolResult? && !(e.Error? && e.tool == log[i].tool)
  {
    var all := log + [e];
    assert all[i] == log[i] && all[|log|] == e;
    assert forall m | i < m < |log| :: all[m] == log[m];
  }

  /** current_tool is the tool of the call still open, and None exactly when no call is. */
  lemma {:induction false} CurrentToolIsOpenCall(log: seq<Event>)
    ensures match FoldRun(log).openTool
      case Some(tool) => exists i: nat :: OpenAt(log, i) && log[i].tool == tool
      case None => forall i: nat :: !OpenAt(log, i)
  {
    if |log| == 0 {
    } else {
      var init, e := log[..|log| - 1], log[|log| - 1];
      assert log == init + [e];
      CurrentToolIsOpenCall(init);
      forall i: nat | i < |init| ensures OpenAt(log, i) <==>
        OpenAt(init, i) && !e.ToolCall? && !e.ToolResult? && !(e.Error? && e.tool == log[i].tool)
      {
        OpenSnoc(init, e, i);
      }
      assert OpenAt(log, |init|) <==> e.ToolCall?;
      if !e.ToolCall? && FoldRun(init).openTool.Some? {
        var i: nat :| OpenAt(init, i) && init[i].tool == FoldRun(init).openTool.value;
        assert log[i] == init[i];
      }
    }
  }

  function Captured(log: seq<Event>): nat {
    if |log| == 0 then 0 else Captured(log[..|log| - 1]) + if log[|log| - 1].PreyCaptured? then 1 else 0
  }

  function Failures(log: seq<Event>): nat {
    if |log| == 0 then 0 else Failures(log[..|log| - 1]) + if log[|log| - 1].Error? then 1 else 0
  }

  /** Everything the brain relayed, in order. */
  function Thoughts(log: seq<Event>): string {
    if |log| == 0 then []
    else Thoughts(log[..|log| - 1]) + if log[|log| - 1].ThinkingDelta? then log[|log| - 1].text else []
  }

  /** Turns are the dispatched calls, spend the log's spend, thinking its deltas; errors and catches are counted. */
  lemma {:induction false} RecordAccounts(log: seq<Event>)
    ensures FoldRun(log).turns == |Grammar.Calls(log)|
    ensures FoldCost(FoldRun(log).usage) == FoldCost(log)
    ensures FoldRun(log).thinking == Thoughts(log)
    ensures FoldRun(log).preyCount == Captured(log)
    ensures FoldRun(log).errorCount == Failures(log)
  {
    if |log| == 0 {
    } else {
      var init, e := log[..|log| - 1], log[|log| - 1];
      RecordAccounts(init);
      FoldCostSnoc(FoldRun(init).usage, e);
    }
  }

  /** The log's own counts, and the call that is still open. */
  ghost predicate Tells(v: RunView, log: seq<Event>) {
    && v.turns == |Grammar.Calls(log)| && v.spent == FoldCost(log) && v.thinking == Thoughts(log)
    && v.preyCount == Captured(log) && v.errorCount == Failures(log)
    && match v.currentTool
       case Some(tool) => exists i: nat :: OpenAt(log, i) && log[i].tool == tool
       case None => forall i: nat :: !OpenAt(log, i)
  }

  lemma {:induction false} RecordTells(run: Id, log: seq<Event>)
    ensures Tells(ViewOf(run, FoldRun(log)), log)
  {
    RecordAccounts(log);
    CurrentToolIsOpenCall(log);
  }

  /** Where a run's first row stands; past the end if it has none. */
  function FirstRow(rows: seq<EventRow>, run: Id): nat {
    if |rows| == 0 then 0
    else
      var n := |rows| - 1;
      var first := FirstRow(rows[..n], run);
      if first < n then first else if rows[n].runId == run then n else |rows|
  }

  /** The runs in the order of their first rows; so each stands there once. */
  predicate FirstSeen(rows: seq<EventRow>, order: seq<Id>) {
    && (forall i | 0 <= i < |order| :: FirstRow(rows, order[i]) < |rows|)
    && (forall i, j | 0 <= i < j < |order| :: FirstRow(rows, order[i]) < FirstRow(rows, order[j]))
  }

  lemma {:induction false} FirstRowHasRows(rows: seq<EventRow>, run: Id)
    ensures FirstRow(rows, run) <= |rows| && (FirstRow(rows, run) < |rows| <==> RunRows(rows, run) != [])
  {
    if |rows| == 0 {
    } else {
      FirstRowHasRows(rows[..|rows| - 1], run);
    }
  }

  lemma {:induction false} FirstSeenSnoc(init: seq<EventRow>, order: seq<Id>, row: EventRow)
    requires FirstSeen(init, order)
    ensures FirstSeen(init + [row], order)
    ensures RunRows(init, row.runId) == [] ==> FirstSeen(init + [row], order + [row.runId])
  {
    var rows := init + [row];
    assert rows[..|init|] == init;
    FirstRowHasRows(init, row.runId);
    assert forall i | 0 <= i < |order| :: FirstRow(rows, order[i]) == FirstRow(init, order[i]);
  }

  lemma {:induction false} OrderIsFirstSeen(rows: seq<EventRow>)
    requires Ascending(rows)
    ensures FirstSeen(rows, Fold(rows).order)
  {
    if |rows| == 0 {
    } else {
      var init, row := rows[..|rows| - 1], rows[|rows| - 1];
      OrderIsFirstSeen(init);
      FoldHolds(init);
      FirstSeenSnoc(init, Fold(init).order, row);
      assert rows == init + [row];
    }
  }

  /** The runs a view shows, in its order. */
  function Shows(v: ViewState): seq<Id> { seq(|v.runs|, i requires 0 <= i < |v.runs| => v.runs[i].runId) }

  lemma {:induction false} ShowsTheOrder(acc: Acc)
    ensures Shows(Finalize(acc)) == acc.order
  {
  }

  lemma {:induction false} EachRunTells(rows: seq<EventRow>, i: nat)
    requires Holds(rows, Fold(rows)) && i < |Fold(rows).order|
    ensures var v := Finalize(Fold(rows)).runs[i]; Tells(v, RunLog(rows, v.runId))
  {
    RecordTells(Fold(rows).order[i], RunLog(rows, Fold(rows).order[i]));
  }

  lemma {:induction false} OrderHasTheRuns(rows: seq<EventRow>, run: Id)
    requires Holds(rows, Fold(rows)) && Listed(Fold(rows))
    ensures run in Fold(rows).order <==> RunRows(rows, run) != []
  {
    assert run in Fold(rows).order <==> run in Fold(rows).runs;
  }

  /**
   What the view of a log shows: the runs that have rows, in the order of their first ones, each with
   the counts, the spend, the thinking and the open call of its own log; and the last row's id.
   */
  lemma {:induction false} ViewShowsTheLog(rows: seq<EventRow>)
    requires Ascending(rows)
    ensures var v := Finalize(Fold(rows));
      && v.highWater == (if |rows| == 0 then 0 else rows[|rows| - 1].id)
      && (forall i | 0 <= i < |v.runs| :: Tells(v.runs[i], RunLog(rows, v.runs[i].runId)))
      && FirstSeen(rows, Shows(v)) && forall run :: run in Shows(v) <==> RunRows(rows, run) != []
  {
    FoldHolds(rows);
    FoldConserves(rows);
    OrderIsFirstSeen(rows);
    ShowsTheOrder(Fold(rows));
    forall i | 0 <= i < |Fold(rows).order|
      ensures Tells(Finalize(Fold(rows)).runs[i], RunLog(rows, Finalize(Fold(rows)).runs[i].runId))
    {
      EachRunTells(rows, i);
    }
    forall run ensures run in Fold(rows).order <==> RunRows(rows, run) != [] {
      OrderHasTheRuns(rows, run);
    }
  }

  /** A run that the hunt loop wrote never shows more turns than its max_iterations. */
  lemma {:induction false} StaminaBound(rows: seq<EventRow>, run: Id, w: Loop.World, caps: Grammar.Caps,
          territory: string)
    requires Ascending(rows) && RunLog(rows, run) == Loop.Hunt(w, caps, territory).log
    ensures RunOf(Fold(rows), run).turns <= Loop.Turns(caps)
    ensures FoldCost(RunOf(Fold(rows), run).usage) == FoldCost(Loop.Hunt(w, caps, territory).log)
  {
    FoldHolds(rows);
    RecordAccounts(RunLog(rows, run));
    Loop.HuntTheorem(w, caps, territory);
    Grammar.Accounting(caps, Loop.Hunt(w, caps, territory).log);
  }

  // ----- conservation -----

  function SumSpent(views: seq<RunView>): int {
    if |views| == 0 then 0 else SumSpent(views[..|views| - 1]) + views[|views| - 1].spent
  }

  function SumPrey(views: seq<RunView>): nat {
    if |views| == 0 then 0 else SumPrey(views[..|views| - 1]) + views[|views| - 1].preyCount
  }

  /** The order lists each run once. */
  ghost predicate Listed(acc: Acc) {
    && (forall i, j | 0 <= i < j < |acc.order| :: acc.order[i] != acc.order[j])
    && (forall run :: run in acc.order <==> run in acc.runs)
  }

  function TotalSpent(order: seq<Id>, acc: Acc): int {
    if |order| == 0 then 0
    else TotalSpent(order[..|order| - 1], acc) + FoldCost(RunOf(acc, order[|order| - 1]).usage)
  }

  function TotalPrey(order: seq<Id>, acc: Acc): nat {
    if |order| == 0 then 0 else TotalPrey(order[..|order| - 1], acc) + RunOf(acc, order[|order| - 1]).preyCount
  }

  lemma {:induction false} SumsAreTotals(order: seq<Id>, acc: Acc)
    ensures SumSpent(Views(order, acc)) == TotalSpent(order, acc) == FoldCost(AllUsage(order, acc))
    ensures SumPrey(Views(order, acc)) == TotalPrey(order, acc)
  {
    if |order| == 0 {
    } else {
      var n := |order| - 1;
      SumsAreTotals(order[..n], acc);
      FoldCostConcat(AllUsage(order[..n], acc), RunOf(acc, order[n]).usage);
      assert Views(order, acc)[..n] == Views(order[..n], acc);
    }
  }

  /** Changing the record of one listed run shifts both totals by its own change. */
  lemma {:induction false} TotalsShift(order: seq<Id>, a: Acc, b: Acc, run: Id)
    requires forall i, j | 0 <= i < j < |order| :: order[i] != order[j]
    requires forall r | r != run :: RunOf(a, r) == RunOf(b, r)
    ensures TotalSpent(order, b) == TotalSpent(order, a) +
      if run in order then FoldCost(RunOf(b, run).usage) - FoldCost(RunOf(a, run).usage) else 0
    ensures TotalPrey(order, b) == TotalPrey(order, a) +
      if run in order then RunOf(b, run).preyCount - RunOf(a, run).preyCount else 0
  {
    if |order| == 0 {
    } else {
      var n := |order| - 1;
      TotalsShift(order[..n], a, b, run);
      assert run in order <==> run in order[..n] || run == order[n];
      assert order[n] !in order[..n];
    }
  }

  /** The totals are those of the rows folded. */
  ghost predicate Conserved(rows: seq<EventRow>, acc: Acc) {
    && Listed(acc)
    && TotalSpent(acc.order, acc) == FoldCost(EventsOf(rows))
    && TotalPrey(acc.order, acc) == |acc.pen|
  }

  /** One row changes its own run's record by its own charge and catch. */
  lemma {:induction false} RecordConserves(acc: Acc, row: EventRow)
    ensures var r, next := RunOf(acc, row.runId), RunOf(Applied(acc, row), row.runId);
      && FoldCost(next.usage) == FoldCost(r.usage) + Charge(row.event)
      && next.preyCount == r.preyCount + if row.event.PreyCaptured? then 1 else 0
  {
    FoldCostSnoc(RunOf(acc, row.runId).usage, row.event);
  }

  lemma {:induction false} AppliedConserves(acc: Acc, row: EventRow)
    requires Listed(acc)
    ensures var next := Applied(acc, row);
      && TotalSpent(next.order, next) == TotalSpent(acc.order, acc) + Charge(row.event)
      && TotalPrey(next.order, next) == TotalPrey(acc.order, acc) + if row.event.PreyCaptured? then 1 else 0
  {
    var next, run := Applied(acc, row), row.runId;
    RecordConserves(acc, row);
    TotalsShift(acc.order, acc, next, run);
    assert run in acc.order <==> run in acc.runs;
  }

  lemma {:induction false} MarkDoesNotCount(order: seq<Id>, acc: Acc, mark: nat)
    ensures TotalSpent(order, acc.(highWater := mark)) == TotalSpent(order, acc)
    ensures TotalPrey(order, acc.(highWater := mark)) == TotalPrey(order, acc)
  {
    if |order| == 0 {
    } else {
      MarkDoesNotCount(order[..|order| - 1], acc, mark);
    }
  }

  lemma {:induction false} MarkConserves(init: seq<EventRow>, acc: Acc, mark: nat)
    requires Conserved(init, acc)
    ensures Conserved(init, acc.(highWater := mark))
  {
    MarkDoesNotCount(acc.order, acc, mark);
  }

  lemma {:induction false} AppliedListed(acc: Acc, row: EventRow)
    requires Listed(acc)
    ensures Listed(Applied(acc, row))
  {
    var next := Applied(acc, row);
    forall run ensures run in next.order <==> run in next.runs {
      assert run in acc.order <==> run in acc.runs;
    }
  }

  lemma {:induction false} RowConserves(init: seq<EventRow>, acc: Acc, row: EventRow)
    requires Conserved(init, acc)
    ensures Conserved(init + [row], Applied(acc, row))
  {
    AppliedListed(acc, row);
    AppliedConserves(acc, row);
    Budget.EventsOfSnoc(init, row);
  }

  lemma {:induction false} StepConserves(init: seq<EventRow>, acc: Acc, row: EventRow)
    requires Conserved(init, acc) && acc.highWater < row.id
    ensures Conserved(init + [row], Stepped(acc, row))
  {
    MarkConserves(init, acc, row.id);
    RowConserves(init, acc.(highWater := row.id), row);
  }

  lemma {:induction false} NextRowIsNew(rows: seq<EventRow>)
    requires |rows| > 0 && Ascending(rows)
    ensures Ascending(rows[..|rows| - 1])
    ensures Fold(rows[..|rows| - 1]).highWater < rows[|rows| - 1].id
  {
    FoldHolds(rows[..|rows| - 1]);
  }

  lemma {:induction false} FoldConserves(rows: seq<EventRow>)
    requires Ascending(rows)
    ensures Conserved(rows, Fold(rows))
  {
    if |rows| == 0 {
    } else {
      NextRowIsNew(rows);
      FoldConserves(rows[..|rows| - 1]);
      StepConserves(rows[..|rows| - 1], Fold(rows[..|rows| - 1]), rows[|rows| - 1]);
      assert rows[..|rows| - 1] + [rows[|rows| - 1]] == rows;
    }
  }

  /**
   Conservation in the view of any reachable log: the total spend is the sum of the runs' spends and
   is what the daemon's own gate folds; the pen holds as many cards as the runs' prey counts add up to.
   */
  lemma {:induction false} Conservation(t: Tables)
    requires DualCursor(t.events)
    ensures var v := Finalize(Fold(OrderBy(ById, t.events)));
      && v.spent == SumSpent(v.runs) == Budget.Spend(t)
      && |v.pen| == SumPrey(v.runs)
  {
    OrderBySorted(ById, t.events);
    var acc := Fold(t.events);
    FoldConserves(t.events);
    SumsAreTotals(acc.order, acc);
    Budget.SpendIsWholeLog(t);
  }
}
