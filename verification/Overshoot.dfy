/**
 How far past its ceiling the daemon can get. The gate is read before a hunt, not during it, so every
 slot can be let through at once and then run the costliest hunt there is.

 The costliest hunt is the one of `HuntSpend`.
 */
module Overshoot {
  import opened Prelude
  import opened Events
  import opened Cost
  import opened Tables
  import opened HuntSpend
  import opened Budget
  import WriteAhead

  // ----- a run of the daemon in which every slot hunts like that -----

  ghost predicate LeadsTo(l: Limits, t: Tables, acts: seq<Action>, d: Daemon) { After(l, t, acts) == Some(d) }

  /** The daemon can get here from an empty database. */
  ghost predicate Reached(l: Limits, d: Daemon) { exists acts :: LeadsTo(l, EMPTY, acts, d) }

  lemma {:induction false} ReachNext(l: Limits, d: Daemon, a: Action)
    requires Reached(l, d) && Enabled(l, d, a)
    ensures Reached(l, Step(l, d, a))
  {
    var acts :| LeadsTo(l, EMPTY, acts, d);
    assert (acts + [a])[..|acts|] == acts;
    assert LeadsTo(l, EMPTY, acts + [a], Step(l, d, a));
  }

  lemma {:induction false} ReachedKeepsCursors(l: Limits, d: Daemon)
    requires Reached(l, d)
    ensures WriteAhead.DualCursor(d.t.events)
  {
    var acts :| LeadsTo(l, EMPTY, acts, d);
    InvAlways(l, EMPTY, acts);
  }

  /** Only runs up to `i` have rows. */
  predicate RunsUpTo(t: Tables, i: nat) {
    && (forall k | 0 <= k < |t.runs| :: t.runs[k].id <= i)
    && (forall k | 0 <= k < |t.events| :: t.events[k].runId <= i)
  }

  /** A reached state in which slot `i` hunts the last run. */
  ghost predicate HuntsLast(l: Limits, u: Tables, slots: seq<Slot>, i: nat, run: Id) {
    && Reached(l, Daemon(u, slots)) && i < |slots| && slots[i] == Hunts(run)
    && WriteAhead.DualCursor(u.events) && RunExists(u, run) && RunsUpTo(u, run)
  }

  lemma {:induction false} RowOfLastRun(u: Tables, run: Id, e: Event) returns (v: Tables)
    requires WriteAhead.DualCursor(u.events) && RunExists(u, run) && RunsUpTo(u, run)
    ensures InsertEvent(u, run, e, 0) == Ok(v)
    ensures WriteAhead.DualCursor(v.events) && RunExists(v, run) && RunsUpTo(v, run)
    ensures Spend(v) == Spend(u) + Charge(e) && RunLog(v.events, run) == RunLog(u.events, run) + [e]
  {
    WriteAhead.InsertEventOk(u, run, e, 0);
    WriteCharges(u, run, e, 0);
    WriteAhead.RunRowsSnoc(u.events, NewRow(u.events, run, e, 0), run);
    v := u.(events := u.events + [NewRow(u.events, run, e, 0)]);
  }

  /** Some hunt writes these events, in affordable calls. */
  ghost predicate Writable(l: Limits, log: seq<Event>) {
    Affordable(l.callCost, log) && forall n | 0 <= n <= |log| :: Hunted(l.caps, log[..n])
  }

  lemma {:induction false} RoundsWritable(l: Limits, tokens: seq<nat>)
    requires Payable(l.caps, tokens) && Cheap(l.callCost, tokens)
    ensures Writable(l, Rounds(tokens))
  {
    RoundsAffordable(l.callCost, tokens);
    forall n | 0 <= n <= |Rounds(tokens)| ensures Hunted(l.caps, Rounds(tokens)[..n]) {
      PayerWrites(l.caps, tokens, n);
    }
  }

  lemma {:induction false} WritableNext(l: Limits, log: seq<Event>, n: nat)
    requires Writable(l, log) && n < |log|
    ensures log[..n + 1] == log[..n] + [log[n]]
    ensures Hunted(l.caps, log[..n] + [log[n]]) && Affordable(l.callCost, log[..n] + [log[n]])
    ensures FoldCost(log[..n + 1]) == FoldCost(log[..n]) + Charge(log[n])
  {
    assert log[..n + 1] == log[..n] + [log[n]];
    FoldCostSnoc(log[..n], log[n]);
  }

  /** The slot's hunt writes its first `n` events. */
  lemma {:induction false} WriteUpTo(l: Limits, u: Tables, slots: seq<Slot>, i: nat, run: Id, log: seq<Event>, n: nat)
    returns (v: Tables)
    requires HuntsLast(l, u, slots, i, run) && RunLog(u.events, run) == []
    requires Writable(l, log) && n <= |log|
    ensures HuntsLast(l, v, slots, i, run) && RunLog(v.events, run) == log[..n]
    ensures Spend(v) == Spend(u) + FoldCost(log[..n])
  {
    if n == 0 {
      v := u;
    } else {
      v := WriteUpTo(l, u, slots, i, run, log, n - 1);
      WritableNext(l, log, n - 1);
      WriteAhead.InsertEventOk(v, run, log[n - 1], 0);
      ReachNext(l, Daemon(v, slots), Write(i, log[n - 1], 0));
      v := RowOfLastRun(v, run, log[n - 1]);
    }
  }

  lemma {:induction false} WriteAll(l: Limits, u: Tables, slots: seq<Slot>, i: nat, run: Id, tokens: seq<nat>)
    returns (v: Tables)
    requires HuntsLast(l, u, slots, i, run) && RunLog(u.events, run) == []
    requires Payable(l.caps, tokens) && Cheap(l.callCost, tokens)
    ensures HuntsLast(l, v, slots, i, run) && Spend(v) == Spend(u) + 3 * Sum(tokens)
  {
    var log := Rounds(tokens);
    RoundsWritable(l, tokens);
    v := WriteUpTo(l, u, slots, i, run, log, |log|);
    assert log[..|log|] == log;
    RoundsCost(tokens);
  }

  /** The first `i` of `n` slots hunt, runs b + 1 to b + i; the others are past the gate. */
  function SlotsAt(b: nat, i: nat, n: nat): seq<Slot> {
    seq(n, k requires 0 <= k < n => if k < i then Hunts(b + k + 1) else Admitted)
  }

  lemma {:induction false} NextSlot(b: nat, i: nat, n: nat)
    requires 0 < i <= n
    ensures SlotsAt(b, i - 1, n)[i - 1] == Admitted && Hunts(b + i) !in SlotsAt(b, i - 1, n)
    ensures SlotsAt(b, i - 1, n)[i - 1 := Hunts(b + i)] == SlotsAt(b, i, n)
  {
  }

  lemma {:induction false} InsertedRun(l: Limits, u: Tables, run: nat)
    requires run > 0 && RunsUpTo(u, run - 1)
    ensures var v := InsertRun(u, run, [], 0, Some(l.caps.ceiling), Some(l.caps.maxIterations));
      && RunExists(v, run) && RunsUpTo(v, run) && v.events == u.events
      && Spend(v) == Spend(u) && RunLog(v.events, run) == []
  {
    var v := InsertRun(u, run, [], 0, Some(l.caps.ceiling), Some(l.caps.maxIterations));
    assert v.runs[|u.runs|].id == run;
    WriteAhead.NoRowsNoLog(u.events, run);
  }

  lemma {:induction false} StartIn(l: Limits, u: Tables, slots: seq<Slot>, i: nat, run: nat) returns (v: Tables)
    requires Reached(l, Daemon(u, slots)) && run > 0 && RunsUpTo(u, run - 1)
    requires i < |slots| && slots[i] == Admitted && Hunts(run) !in slots
    ensures HuntsLast(l, v, slots[i := Hunts(run)], i, run)
    ensures Spend(v) == Spend(u) && RunLog(v.events, run) == []
  {
    v := InsertRun(u, run, [], 0, Some(l.caps.ceiling), Some(l.caps.maxIterations));
    InsertedRun(l, u, run);
    ReachedKeepsCursors(l, Daemon(u, slots));
    ReachNext(l, Daemon(u, slots), Start(i, run, [], 0));
  }

  /** The slot's hunt starts and makes these calls. */
  lemma {:induction false} HuntIn(l: Limits, u: Tables, slots: seq<Slot>, i: nat, run: nat, tokens: seq<nat>)
    returns (v: Tables)
    requires Reached(l, Daemon(u, slots)) && run > 0 && RunsUpTo(u, run - 1)
    requires i < |slots| && slots[i] == Admitted && Hunts(run) !in slots
    requires Payable(l.caps, tokens) && Cheap(l.callCost, tokens)
    ensures Reached(l, Daemon(v, slots[i := Hunts(run)])) && RunsUpTo(v, run) && Spend(v) == Spend(u) + 3 * Sum(tokens)
  {
    v := StartIn(l, u, slots, i, run);
    v := WriteAll(l, v, slots[i := Hunts(run)], i, run, tokens);
  }

  /** A reached state in which runs b + 1 to b + i hunt in `n` slots, and `x` has been spent. */
  ghost predicate StandsAt(l: Limits, u: Tables, b: nat, i: nat, n: nat, x: int) {
    i <= n && Reached(l, Daemon(u, SlotsAt(b, i, n))) && RunsUpTo(u, b + i) && Spend(u) == x
  }

  ghost predicate CanSpend(l: Limits, b: nat, i: nat, n: nat, x: int) {
    exists u: Tables :: StandsAt(l, u, b, i, n, x)
  }

  /** Slot `i` takes up its hunt, which makes these calls, and `y` has been spent. */
  lemma {:induction false} SpendNext(l: Limits, b: nat, i: nat, n: nat, x: int, tokens: seq<nat>, y: int)
    requires 0 < i <= n && CanSpend(l, b, i - 1, n, x) && y == x + 3 * Sum(tokens)
    requires Payable(l.caps, tokens) && Cheap(l.callCost, tokens)
    ensures CanSpend(l, b, i, n, y)
  {
    var u: Tables :| StandsAt(l, u, b, i - 1, n, x);
    NextSlot(b, i, n);
    var v := HuntIn(l, u, SlotsAt(b, i - 1, n), i - 1, b + i, tokens);
    assert StandsAt(l, v, b, i, n, y);
  }

  lemma {:induction false} SpendAll(l: Limits, b: nat, i: nat, n: nat, x: int, tokens: seq<nat>, y: int)
    requires CanSpend(l, b, 0, n, x) && i <= n && y == x + Times(i, 3 * Sum(tokens))
    requires Payable(l.caps, tokens) && Cheap(l.callCost, tokens)
    ensures CanSpend(l, b, i, n, y)
    decreases i
  {
    if i == 0 {
    } else {
      var before := y - 3 * Sum(tokens);
      SpendAll(l, b, i - 1, n, x, tokens, before);
      SpendNext(l, b, i, n, before, tokens, y);
    }
  }

  /** One more slot is taken and let through. */
  lemma {:induction false} AdmitNext(l: Limits, b: nat, n: nat, x: int)
    requires 0 < n <= l.maxConcurrent && CanSpend(l, b, 0, n - 1, x) && x < l.daemonCeiling
    ensures CanSpend(l, b, 0, n, x)
  {
    var u: Tables :| StandsAt(l, u, b, 0, n - 1, x);
    var before := SlotsAt(b, 0, n - 1);
    ReachNext(l, Daemon(u, before), Acquire);
    ReachNext(l, Daemon(u, before + [Checking]), Gate(n - 1));
    assert (before + [Checking])[n - 1 := Admitted] == SlotsAt(b, 0, n);
    assert StandsAt(l, u, b, 0, n, x);
  }

  lemma {:induction false} AdmitAll(l: Limits, b: nat, n: nat, x: int)
    requires CanSpend(l, b, 0, 0, x) && n <= l.maxConcurrent && x < l.daemonCeiling
    ensures CanSpend(l, b, 0, n, x)
  {
    if n == 0 {
    } else {
      AdmitAll(l, b, n - 1, x);
      AdmitNext(l, b, n, x);
    }
  }

  /** The only hunt is over, and its slot free again. */
  lemma {:induction false} ReleaseOnly(l: Limits, b: nat, x: int)
    requires CanSpend(l, b, 1, 1, x)
    ensures CanSpend(l, b + 1, 0, 0, x)
  {
    var u: Tables :| StandsAt(l, u, b, 1, 1, x);
    ReachNext(l, Daemon(u, SlotsAt(b, 1, 1)), Action.Release(0));
    assert Without(SlotsAt(b, 1, 1), 0) == SlotsAt(b + 1, 0, 0);
    assert StandsAt(l, u, b + 1, 0, 0, x);
  }

  lemma {:induction false} NothingSpent(l: Limits)
    ensures CanSpend(l, 0, 0, 0, 0) && Spend(EMPTY) == 0
  {
    assert ReadUsage(EMPTY) == [];
    assert SlotsAt(0, 0, 0) == [];
    assert LeadsTo(l, EMPTY, [], Daemon(EMPTY, []));
    assert StandsAt(l, EMPTY, 0, 0, 0, 0);
  }

  lemma {:induction false} LeastCall(l: Limits) returns (tokens: seq<nat>)
    requires PerRun(l) > 0
    ensures Payable(l.caps, tokens) && Cheap(l.callCost, tokens) && Sum(tokens) == 1
  {
    tokens := [] + [1];
    PayableSnoc(l.caps, [], 1);
    TimesIsProduct(l.caps.maxIterations - 1, Whole(l.callCost));
  }

  /** One hunt, from its slot to its end, that makes one call of the least price. */
  lemma {:induction false} SpendThree(l: Limits, b: nat, x: int, tokens: seq<nat>)
    requires CanSpend(l, b, 0, 0, x) && x < l.daemonCeiling && l.maxConcurrent > 0
    requires Payable(l.caps, tokens) && Cheap(l.callCost, tokens) && Sum(tokens) == 1
    ensures CanSpend(l, b + 1, 0, 0, x + 3)
  {
    AdmitNext(l, b, 1, x);
    SpendNext(l, b, 1, 1, x, tokens, x + 3);
    ReleaseOnly(l, b, x + 3);
  }

  /** `b` hunts, one after the other, that make one call each, of the least price. */
  lemma {:induction false} SpendByThrees(l: Limits, b: nat, x: int, tokens: seq<nat>)
    requires x == 3 * b && x < l.daemonCeiling + 3 && l.maxConcurrent > 0
    requires Payable(l.caps, tokens) && Cheap(l.callCost, tokens) && Sum(tokens) == 1
    ensures CanSpend(l, b, 0, 0, x)
  {
    if b == 0 {
      NothingSpent(l);
    } else {
      SpendByThrees(l, b - 1, x - 3, tokens);
      SpendThree(l, b - 1, x - 3, tokens);
    }
  }

  /** A run of the daemon from below its ceiling. */
  ghost predicate FromBelow(l: Limits, t: Tables, acts: seq<Action>) {
    WriteAhead.DualCursor(t.events) && Spend(t) < l.daemonCeiling && After(l, t, acts).Some?
  }

  ghost function SpentAfter(l: Limits, t: Tables, acts: seq<Action>): int
    requires After(l, t, acts).Some?
  {
    Spend(After(l, t, acts).value.t)
  }

  lemma {:induction false} RunThatSpends(l: Limits, b: nat, n: nat, x: int) returns (acts: seq<Action>)
    requires CanSpend(l, b, n, n, x) && l.daemonCeiling > 0
    ensures FromBelow(l, EMPTY, acts) && SpentAfter(l, EMPTY, acts) == x
  {
    var u: Tables :| StandsAt(l, u, b, n, n, x);
    acts :| LeadsTo(l, EMPTY, acts, Daemon(u, SlotsAt(b, n, n)));
    NothingSpent(l);
  }

  /** Hunts up to just below the ceiling; then every slot is let through, and every hunt is the costliest. */
  lemma {:induction false} MostIsReached(l: Limits) returns (acts: seq<Action>)
    requires l.daemonCeiling > 0 && l.maxConcurrent > 0 && PerRun(l) > 0
    ensures FromBelow(l, EMPTY, acts) && SpentAfter(l, EMPTY, acts) == Most(l)
  {
    var n := l.maxConcurrent;
    var b := WholeThirds(l.daemonCeiling - 1);
    var tokens := LeastCall(l);
    SpendByThrees(l, b, 3 * b, tokens);
    AdmitAll(l, b, n, 3 * b);
    tokens := DearestCalls(l);
    SpendAll(l, b, n, n, 3 * b, tokens, Most(l));
    acts := RunThatSpends(l, b, n, Most(l));
  }

  lemma {:induction false} NeverPastMost(l: Limits, t: Tables, acts: seq<Action>)
    requires FromBelow(l, t, acts)
    ensures SpentAfter(l, t, acts) <= Most(l)
  {
    SpendBound(l, t, acts);
    BoundFromBelow(l, t);
  }

  /**
   The spend bound is tight: of all runs from below the ceiling none records more than `Most`, and if
   there is a slot and a hunt can spend at all, one from an empty database records exactly that.
   */
  lemma {:induction false} MostIsTheMaximum(l: Limits)
    requires l.daemonCeiling > 0
    ensures forall t: Tables, acts | FromBelow(l, t, acts) :: SpentAfter(l, t, acts) <= Most(l)
    ensures l.maxConcurrent > 0 && PerRun(l) > 0 ==>
      exists acts :: FromBelow(l, EMPTY, acts) && SpentAfter(l, EMPTY, acts) == Most(l)
  {
    forall t: Tables, acts | FromBelow(l, t, acts) ensures SpentAfter(l, t, acts) <= Most(l) {
      NeverPastMost(l, t, acts);
    }
    if l.maxConcurrent > 0 && PerRun(l) > 0 {
      var acts := MostIsReached(l);
    }
  }

  /** From this database the daemon can get past its ceiling. */
  ghost predicate Overshoots(l: Limits, t: Tables) {
    exists acts :: FromBelow(l, t, acts) && SpentAfter(l, t, acts) > l.daemonCeiling
  }

  /** From below its ceiling the daemon can get past it. */
  ghost predicate CanOvershoot(l: Limits) { exists t: Tables :: Overshoots(l, t) }

  lemma {:induction false} RoomToOvershoot(l: Limits)
    requires l.daemonCeiling > 0 && Most(l) > l.daemonCeiling
    ensures l.maxConcurrent > 0 && PerRun(l) > 0
  {
    var below := WholeThirds(l.daemonCeiling - 1);
    TimesIsProduct(l.maxConcurrent, PerRun(l));
  }

  lemma {:induction false} SixIsEnough(l: Limits)
    requires l.daemonCeiling > 0 && l.callCost >= 6
    ensures Most(l) > l.daemonCeiling <==> l.maxConcurrent > 0 && l.caps.maxIterations > 0 && l.caps.ceiling > 0
  {
    var d := WholeThirds(l.daemonCeiling - 1);
    WholeIsMost(2, l.callCost);
    TimesIsProduct(l.maxConcurrent, PerRun(l));
    if l.maxConcurrent > 0 && PerRun(l) > 0 {
      TimesGrows(1, l.maxConcurrent, 6, PerRun(l));
      assert Times(1, 6) == 6;
    }
  }

  /**
   The ceiling itself is not a bound, although the source says the daemon cannot exceed its budget: it
   can be exceeded exactly if what the gate lets through plus a costliest hunt per slot comes to more,
   and if it can be at all it can be from an empty database. As soon as one call may cost 6, that is
   whenever there is a slot and a hunt may make a call.
   */
  lemma {:induction false} CeilingIsOvershotIff(l: Limits)
    requires l.daemonCeiling > 0
    ensures CanOvershoot(l) <==>
      Whole(l.daemonCeiling - 1) + l.maxConcurrent * PerRun(l) > l.daemonCeiling
    ensures CanOvershoot(l) ==> Overshoots(l, EMPTY)
    ensures l.callCost >= 6 ==>
      (CanOvershoot(l) <==> l.maxConcurrent > 0 && l.caps.maxIterations > 0 && l.caps.ceiling > 0)
  {
    TimesIsProduct(l.maxConcurrent, PerRun(l));
    if CanOvershoot(l) {
      var t: Tables :| Overshoots(l, t);
      var acts :| FromBelow(l, t, acts) && SpentAfter(l, t, acts) > l.daemonCeiling;
      NeverPastMost(l, t, acts);
    }
    if Most(l) > l.daemonCeiling {
      RoomToOvershoot(l);
      var acts := MostIsReached(l);
      assert Overshoots(l, EMPTY);
    }
    if l.callCost >= 6 {
      SixIsEnough(l);
    }
  }
}
