/**
 One launch under the daemon's spend gate, as the source runs it inside its semaphore slot.

 The interleaving of many launches is the machine in `Budget`.
 */
module Scheduler {
  import opened Prelude
  import opened Events
  import opened Cost
  import opened Tables
  import opened WriteAhead
  import opened Store
  import opened Grammar
  import opened Loop
  import opened Hunting
  import Budget

  /** daemon_spend_usd: the fold of every run's usage, in id order. */
  method DaemonSpend(t: Tables) returns (spent: int)
    requires DualCursor(t.events)
    ensures spent == Budget.Spend(t) == FoldCost(EventsOf(t.events))
  {
    spent := FoldCostLoop(ReadUsage(t));
    Budget.SpendIsWholeLog(t);
  }

  /**
   The gate refuses exactly when a ceiling is set and the whole log's spend has reached it, and then
   nothing is written; otherwise the hunt runs to its outcome.
   */
  method BoundedHunt(db: Database, run: Id, w: World, caps: Caps, territory: string, daemonCeiling: Option<int>)
    returns (launched: Option<Id>)
    requires db.Idle() && DualCursor(db.committed.events) && Fresh(w, db.committed, 0)
    requires !RunExists(db.committed, run)
    requires forall i | 0 <= i < |db.committed.events| :: db.committed.events[i].runId != run
    modifies db
    ensures launched.None? <==>
      daemonCeiling.Some? && FoldCost(EventsOf(old(db.committed.events))) >= daemonCeiling.value
    ensures launched.None? ==> db.committed == old(db.committed)
    ensures launched.Some? ==>
      && launched.value == run
      && RunLog(db.committed.events, run) == Hunt(w, caps, territory).log
      && |db.committed.runs| == |old(db.committed.runs)| + 1
      && Hunting.ClosedWith(db.committed.runs[|old(db.committed.runs)|], run, territory, caps, Hunt(w, caps, territory))
    ensures forall r | r != run :: RunLog(db.committed.events, r) == RunLog(old(db.committed.events), r)
  {
    if daemonCeiling.Some? {
      var spent := DaemonSpend(db.committed);
      if spent >= daemonCeiling.value {
        return None;
      }
    }
    Budget.SpendIsWholeLog(db.committed);
    RunHunt(db, run, w, caps, territory);
    return Some(run);
  }
}
