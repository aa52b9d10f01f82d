/** The daemon-wide spend gate under concurrent hunts, which write what the hunt loop writes, and restarts. */
module Budget {
  import opened Prelude
  import opened Events
  import opened Cost
  import opened Tables
  import opened WriteAhead
  import opened HuntSpend
  import Loop

  /** What the holder of a semaphore slot is doing. */
  datatype Slot = Checking | Admitted | Hunts(run: Id)

  datatype Daemon = Daemon(t: Tables, slots: seq<Slot>)

  /** daemon_spend_usd: the fold of every run's usage events, in id order. */
  function Spend(t: Tables): int { FoldCost(ReadUsage(t)) }

  function RunSpend(t: Tables, run: Id): int { FoldCost(RunLog(t.events, run)) }

  datatype Action =
    | Acquire
    | Gate(slot: nat)
    | Start(slot: nat, run: Id, territory: string, now: Time)
    | Write(slot: nat, event: Event, now: Time)
    | Release(slot: nat)
    | Crash

  ghost predicate Enabled(l: Limits, d: Daemon, a: Action) {
    match a
    case Acquire => |d.slots| < l.maxConcurrent
    case Gate(i) => i < |d.slots| && d.slots[i].Checking?
    case Start(i, run, _, _) =>
      && i < |d.slots| && d.slots[i].Admitted? && !RunExists(d.t, run)
      && (forall k | 0 <= k < |d.t.events| :: d.t.events[k].runId != run)
      && (forall k | 0 <= k < |d.slots| :: d.slots[k] != Hunts(run))
    case Write(i, e, now) =>
      && i < |d.slots| && d.slots[i].Hunts?
      && Hunted(l.caps, RunLog(d.t.events, d.slots[i].run) + [e])
      && Affordable(l.callCost, RunLog(d.t.events, d.slots[i].run) + [e])
      && InsertEvent(d.t, d.slots[i].run, e, now).Ok?
    case Release(i) => i < |d.slots|
    case Crash => true
  }

  function Without(slots: seq<Slot>, i: nat): seq<Slot>
    requires i < |slots|
  {
    slots[..i] + slots[i + 1..]
  }

  ghost function Step(l: Limits, d: Daemon, a: Action): Daemon
    requires Enabled(l, d, a)
  {
    match a
    case Acquire => d.(slots := d.slots + [Checking])
    case Gate(i) =>
      if Spend(d.t) >= l.daemonCeiling then d.(slots := Without(d.slots, i)) else d.(slots := d.slots[i := Admitted])
    case Start(i, run, territory, now) =>
      Daemon(InsertRun(d.t, run, territory, now, Some(l.caps.ceiling), Some(l.caps.maxIterations)),
             d.slots[i := Hunts(run)])
    case Write(i, e, now) => d.(t := InsertEvent(d.t, d.slots[i].run, e, now).value)
    case Release(i) => d.(slots := Without(d.slots, i))
    case Crash => d.(slots := [])
  }

  ghost function After(l: Limits, t: Tables, acts: seq<Action>): Option<Daemon> {
    if |acts| == 0 then Some(Daemon(t, []))
    else
      var before := After(l, t, acts[..|acts| - 1]);
      if before.Some? && Enabled(l, before.value, acts[|acts| - 1])
      then Some(Step(l, before.value, acts[|acts| - 1])) else None
  }

  /** What the slot's holder may still spend. */
  function Headroom(l: Limits, t: Tables, s: Slot): int {
    match s
    case Checking => 0
    case Admitted => PerRun(l)
    case Hunts(run) => PerRun(l) - RunSpend(t, run)
  }

  function Total(l: Limits, t: Tables, slots: seq<Slot>): int {
    if |slots| == 0 then 0 else Total(l, t, slots[..|slots| - 1]) + Headroom(l, t, slots[|slots| - 1])
  }

  /** The most the gate lets through, plus one full run per slot. */
  function Most(l: Limits): nat { Whole(l.daemonCeiling - 1) + Times(l.maxConcurrent, PerRun(l)) }

  /** That, or what was spent before, if more. */
  function Bound(l: Limits, spent: int): int { if spent < Most(l) then Most(l) else spent }

  ghost predicate Inv(l: Limits, spent: int, d: Daemon) {
    && DualCursor(d.t.events) && |d.slots| <= l.maxConcurrent
    && (forall i, j | 0 <= i < j < |d.slots| && d.slots[i].Hunts? :: d.slots[i] != d.slots[j])
    && (forall i | 0 <= i < |d.slots| && d.slots[i].Hunts? :: 0 <= RunSpend(d.t, d.slots[i].run) <= PerRun(l))
    && Spend(d.t) + Total(l, d.t, d.slots) <= Bound(l, spent)
  }

  lemma {:induction false} BoundFromBelow(l: Limits, t: Tables)
    requires Spend(t) < l.daemonCeiling
    ensures Spend(t) <= Whole(l.daemonCeiling - 1)
    ensures Bound(l, Spend(t)) == Most(l)
  {
    var q := SpendIsWhole(ReadUsage(t));
    WholeIsMost(q, l.daemonCeiling - 1);
  }

  lemma {:induction false} EventsOfSnoc(rows: seq<EventRow>, row: EventRow)
    ensures EventsOf(rows + [row]) == EventsOf(rows) + [row.event]
    ensures FoldCost(EventsOf(rows + [row])) == FoldCost(EventsOf(rows)) + Charge(row.event)
  {
    FoldCostSnoc(EventsOf(rows), row.event);
  }

  lemma {:induction false} UsageLogSpend(rows: seq<EventRow>)
    ensures FoldCost(UsageLog(rows)) == FoldCost(EventsOf(rows))
  {
    if |rows| == 0 {
    } else {
      var init, row := rows[..|rows| - 1], rows[|rows| - 1];
      UsageLogSpend(init);
      EventsOfSnoc(init, row);
      assert rows == init + [row];
      FoldCostSnoc(UsageLog(init), row.event);
    }
  }

  /** The gate's fold counts every row of the log once, whatever run wrote it. */
  lemma {:induction false} SpendIsWholeLog(t: Tables)
    requires DualCursor(t.events)
    ensures Spend(t) == FoldCost(EventsOf(t.events))
  {
    OrderBySorted(ById, t.events);
    UsageLogSpend(t.events);
  }

  lemma {:induction false} TotalUpdate(l: Limits, t: Tables, u: Tables, slots: seq<Slot>, i: nat, s: Slot)
    requires i < |slots|
    requires forall j | 0 <= j < |slots| && j != i :: Headroom(l, u, slots[j]) == Headroom(l, t, slots[j])
    ensures Total(l, u, slots[i := s]) == Total(l, t, slots) - Headroom(l, t, slots[i]) + Headroom(l, u, s)
  {
    var n := |slots| - 1;
    if i < n {
      TotalUpdate(l, t, u, slots[..n], i, s);
      assert slots[i := s][..n] == slots[..n][i := s];
    } else {
      TotalSame(l, t, u, slots[..n]);
      assert slots[i := s][..n] == slots[..n];
    }
  }

  lemma {:induction false} TotalSame(l: Limits, t: Tables, u: Tables, slots: seq<Slot>)
    requires forall j | 0 <= j < |slots| :: Headroom(l, u, slots[j]) == Headroom(l, t, slots[j])
    ensures Total(l, u, slots) == Total(l, t, slots)
  {
    if |slots| == 0 {
    } else {
      TotalSame(l, t, u, slots[..|slots| - 1]);
    }
  }

  lemma {:induction false} TotalAtMost(l: Limits, t: Tables, slots: seq<Slot>)
    requires forall j | 0 <= j < |slots| :: 0 <= Headroom(l, t, slots[j]) <= PerRun(l)
    ensures 0 <= Total(l, t, slots) <= Times(|slots|, PerRun(l))
  {
    if |slots| == 0 {
    } else {
      TotalAtMost(l, t, slots[..|slots| - 1]);
    }
  }

  lemma {:induction false} TotalWithout(l: Limits, t: Tables, slots: seq<Slot>, i: nat)
    requires i < |slots|
    ensures Total(l, t, Without(slots, i)) == Total(l, t, slots) - Headroom(l, t, slots[i])
  {
    var n := |slots| - 1;
    if i < n {
      TotalWithout(l, t, slots[..n], i);
      assert Without(slots, i)[..n - 1] == Without(slots[..n], i);
    } else {
      assert Without(slots, i) == slots[..n];
    }
  }

  /** An appended event is charged to the daemon and to its own run, and to no other run. */
  lemma {:induction false} WriteCharges(t: Tables, run: Id, e: Event, now: Time)
    requires DualCursor(t.events) && InsertEvent(t, run, e, now).Ok?
    ensures var u := InsertEvent(t, run, e, now).value;
      && DualCursor(u.events) && Spend(u) == Spend(t) + Charge(e)
      && forall r :: RunSpend(u, r) == RunSpend(t, r) + if r == run then Charge(e) else 0
  {
    var row := NewRow(t.events, run, e, now);
    var u := InsertEvent(t, run, e, now).value;
    NewRowKeepsDualCursor(t.events, run, e, now);
    SpendIsWholeLog(t);
    SpendIsWholeLog(u);
    EventsOfSnoc(t.events, row);
    forall r ensures RunSpend(u, r) == RunSpend(t, r) + if r == run then Charge(e) else 0 {
      RunRowsSnoc(t.events, row, r);
      FoldCostSnoc(RunLog(t.events, r), e);
    }
  }

  /** Such a write leaves the run within what a run can record. */
  lemma {:induction false} WriteFits(l: Limits, t: Tables, run: Id, e: Event)
    requires Hunted(l.caps, RunLog(t.events, run) + [e]) && Affordable(l.callCost, RunLog(t.events, run) + [e])
    ensures 0 <= RunSpend(t, run) + Charge(e) <= PerRun(l)
  {
    HuntedFits(l, RunLog(t.events, run) + [e]);
    FoldCostSnoc(RunLog(t.events, run), e);
  }

  lemma {:induction false} GateKeeps(l: Limits, spent: int, d: Daemon, i: nat)
    requires Inv(l, spent, d) && i < |d.slots| && d.slots[i].Checking? && Spend(d.t) < l.daemonCeiling
    ensures Inv(l, spent, d.(slots := d.slots[i := Admitted]))
  {
    var slots := d.slots[i := Admitted];
    forall j | 0 <= j < |slots| ensures 0 <= Headroom(l, d.t, slots[j]) <= PerRun(l) {
      assert j != i ==> slots[j] == d.slots[j];
    }
    BoundFromBelow(l, d.t);
    TotalAtMost(l, d.t, slots);
    TimesGrows(|slots|, l.maxConcurrent, PerRun(l), PerRun(l));
  }

  /** Only the writer's own headroom moves, by what the event costs. */
  lemma {:induction false} WriteMovesTotal(l: Limits, t: Tables, u: Tables, slots: seq<Slot>, i: nat, run: Id,
          charge: int)
    requires i < |slots| && slots[i] == Hunts(run)
    requires forall j | 0 <= j < |slots| && j != i :: slots[j] != Hunts(run)
    requires forall r :: RunSpend(u, r) == RunSpend(t, r) + if r == run then charge else 0
    ensures Total(l, u, slots) == Total(l, t, slots) - charge
  {
    forall j | 0 <= j < |slots| && j != i ensures Headroom(l, u, slots[j]) == Headroom(l, t, slots[j]) {
    }
    TotalUpdate(l, t, u, slots, i, slots[i]);
    assert slots[i := slots[i]] == slots;
  }

  lemma {:induction false} WriteKeeps(l: Limits, spent: int, d: Daemon, i: nat, run: Id, e: Event, now: Time)
    requires Inv(l, spent, d) && i < |d.slots| && d.slots[i] == Hunts(run) && InsertEvent(d.t, run, e, now).Ok?
    requires 0 <= RunSpend(d.t, run) + Charge(e) <= PerRun(l)
    ensures Inv(l, spent, d.(t := InsertEvent(d.t, run, e, now).value))
  {
    WriteCharges(d.t, run, e, now);
    WriteMovesTotal(l, d.t, InsertEvent(d.t, run, e, now).value, d.slots, i, run, Charge(e));
  }

  lemma {:induction false} StartKeeps(l: Limits, spent: int, d: Daemon, a: Action)
    requires Inv(l, spent, d) && a.Start? && Enabled(l, d, a)
    ensures Inv(l, spent, Step(l, d, a))
  {
    var u := Step(l, d, a);
    NoRowsNoLog(d.t.events, a.run);
    assert RunSpend(u.t, a.run) == 0;
    TotalUpdate(l, d.t, u.t, d.slots, a.slot, Hunts(a.run));
  }

  lemma {:induction false} ReleaseKeeps(l: Limits, spent: int, d: Daemon, i: nat)
    requires Inv(l, spent, d) && i < |d.slots|
    ensures Inv(l, spent, d.(slots := Without(d.slots, i)))
  {
    TotalWithout(l, d.t, d.slots, i);
    assert 0 <= Headroom(l, d.t, d.slots[i]);
  }

  lemma {:induction false} StepKeeps(l: Limits, spent: int, d: Daemon, a: Action)
    requires Inv(l, spent, d) && Enabled(l, d, a)
    ensures Inv(l, spent, Step(l, d, a))
  {
    match a
    case Acquire => assert (d.slots + [Checking])[..|d.slots|] == d.slots;
    case Gate(i) =>
      if Spend(d.t) >= l.daemonCeiling {
        ReleaseKeeps(l, spent, d, i);
      } else {
        GateKeeps(l, spent, d, i);
      }
    case Start(_, _, _, _) => StartKeeps(l, spent, d, a);
    case Write(i, e, now) =>
      WriteFits(l, d.t, d.slots[i].run, e);
      WriteKeeps(l, spent, d, i, d.slots[i].run, e, now);
    case Release(i) => ReleaseKeeps(l, spent, d, i);
    case Crash =>
      TotalAtMost(l, d.t, d.slots);
  }

  lemma {:induction false} InvAlways(l: Limits, t: Tables, acts: seq<Action>)
    requires DualCursor(t.events) && After(l, t, acts).Some?
    ensures Inv(l, Spend(t), After(l, t, acts).value)
  {
    if |acts| == 0 {
    } else {
      InvAlways(l, t, acts[..|acts| - 1]);
      StepKeeps(l, Spend(t), After(l, t, acts[..|acts| - 1]).value, acts[|acts| - 1]);
    }
  }

  /**
   The daemon spend bound: from a database that has spent `Spend(t)`, through any interleaving of
   hunts, gate reads, crashes and restarts, the recorded spend never passes that, or the daemon
   ceiling plus one full run per slot.
   */
  lemma {:induction false} SpendBound(l: Limits, t: Tables, acts: seq<Action>)
    requires DualCursor(t.events) && After(l, t, acts).Some?
    ensures Spend(After(l, t, acts).value.t) <= Bound(l, Spend(t))
  {
    InvAlways(l, t, acts);
    TotalAtMost(l, After(l, t, acts).value.t, After(l, t, acts).value.slots);
  }

  /**
   From an empty log the spend stays below the daemon ceiling plus slots * (run ceiling + one call), and
   below the daemon ceiling plus slots * iterations * one call.
   */
  lemma {:induction false} SpendBoundFromEmpty(l: Limits, acts: seq<Action>)
    requires After(l, EMPTY, acts).Some? && l.daemonCeiling > 0 && l.caps.ceiling >= 0
    ensures Spend(After(l, EMPTY, acts).value.t) < l.daemonCeiling + l.maxConcurrent * (l.caps.ceiling + l.callCost)
    ensures Spend(After(l, EMPTY, acts).value.t) < l.daemonCeiling + l.maxConcurrent * (Loop.Turns(l.caps) * l.callCost)
  {
    SpendBound(l, EMPTY, acts);
    PerRunFits(l);
    MostFits(l, l.caps.ceiling + l.callCost);
    MostFits(l, Loop.Turns(l.caps) * l.callCost);
  }

  lemma {:induction false} MostFits(l: Limits, perRun: nat)
    requires l.daemonCeiling > 0 && PerRun(l) <= perRun
    ensures Bound(l, 0) < l.daemonCeiling + l.maxConcurrent * perRun
  {
    var below := WholeThirds(l.daemonCeiling - 1);
    TimesGrows(l.maxConcurrent, l.maxConcurrent, PerRun(l), perRun);
    TimesIsProduct(l.maxConcurrent, perRun);
  }

}
