/**
 The hunt loop as the source runs it, appending to the database at the site of each transition.

 Each method is proved against the function of the same step in `Loop`: it leaves the run's log, and
 the pen, as that function says, and touches no other run.
 */
module Hunting {
  import opened Prelude
  import opened Events
  import opened Cost
  import opened Tables
  import opened WriteAhead
  import opened Store
  import opened Grammar
  import opened Loop
  import opened Record

  /** The connection is between transactions and the run is on record. */
  ghost predicate CanWrite(db: Database, run: Id)
    reads db
  {
    db.Idle() && DualCursor(db.committed.events) && RunExists(db.committed, run)
  }

  method Append(db: Database, run: Id, event: Event)
    requires CanWrite(db, run)
    modifies db
    ensures CanWrite(db, run) && Wrote(old(db.committed), db.committed, run, [event])
      && db.committed.prey == old(db.committed.prey)
  {
    var r := db.AppendEvent(run, event, null);
  }

  /** The live relay: each streamed delta is its own committed event. */
  method Relay(db: Database, run: Id, texts: seq<string>)
    requires CanWrite(db, run)
    modifies db
    ensures CanWrite(db, run) && Wrote(old(db.committed), db.committed, run, Deltas(texts))
    ensures db.committed.prey == old(db.committed.prey)
  {
    for i := 0 to |texts|
      invariant CanWrite(db, run) && Wrote(old(db.committed), db.committed, run, Deltas(texts[..i]))
      invariant db.committed.prey == old(db.committed.prey)
    {
      Append(db, run, ThinkingDelta(texts[i]));
      assert Deltas(texts[..i + 1]) == Deltas(texts[..i]) + [ThinkingDelta(texts[i])];
    }
    assert texts[..|texts|] == texts;
  }

  method AttemptBrain(db: Database, run: Id, w: World, context: seq<Event>, used: nat) returns (end: BrainEnd)
    requires CanWrite(db, run)
    modifies db
    ensures CanWrite(db, run) && db.committed.prey == old(db.committed.prey)
    ensures end == w.brain(used, context).end
    ensures Wrote(old(db.committed), db.committed, run, AttemptEvents(w.brain(used, context)))
  {
    var reply := w.brain(used, context);
    end := reply.end;
    Relay(db, run, reply.deltas);
    if end.Raises? && IsHttp(end.raised.exc) {
      Append(db, run, BrainError(end.raised));
    } else {
      assert AttemptEvents(reply) == Deltas(reply.deltas);
    }
  }

  /** Asks once, and again while the failure is retryable and the budget lasts. */
  method AskBrain(db: Database, run: Id, w: World, budget: nat, context: seq<Event>, used: nat)
    returns (asked: Asked, attempts: nat)
    requires CanWrite(db, run)
    modifies db
    ensures CanWrite(db, run) && db.committed.prey == old(db.committed.prey)
    ensures Wrote(old(db.committed), db.committed, run, CallBrain(w, budget, context, 0, used).events)
    ensures attempts == CallBrain(w, budget, context, 0, used).attempts
    ensures asked == CallBrain(w, budget, context, 0, used).result
  {
    var attempt := 0;
    attempts := used;
    ghost var done: seq<Event> := [];
    ghost var base := db.committed;
    while true
      invariant attempt <= budget && CanWrite(db, run) && db.committed.prey == base.prey
      invariant Wrote(base, db.committed, run, done)
      invariant GoesOn(CallBrain(w, budget, context, 0, used), done, CallBrain(w, budget, context, attempt, attempts))
      decreases budget - attempt
    {
      ghost var before := db.committed;
      var end := AttemptBrain(db, run, w, context, attempts);
      WroteTransitive(base, before, db.committed, run, done, AttemptEvents(w.brain(attempts, context)));
      if attempt < budget {
        ConcatAssoc(done, AttemptEvents(w.brain(attempts, context)),
                    CallBrain(w, budget, context, attempt + 1, attempts + 1).events);
      }
      done := done + AttemptEvents(w.brain(attempts, context));
      attempts := attempts + 1;
      if end.Decides? {
        return Answer(end.decision), attempts;
      } else if !IsHttp(end.raised.exc) {
        return Escaped(end.raised), attempts;
      } else if !(Classify(end.raised.exc) && attempt < budget) {
        return GaveUp, attempts;
      }
      attempt := attempt + 1;
    }
  }

  /** `rest` is what remains of `whole` once `done` is written. */
  ghost predicate GoesOn<T>(whole: Effect<T>, done: seq<Event>, rest: Effect<T>) {
    whole.events == done + rest.events && whole.attempts == rest.attempts && whole.result == rest.result
  }

  method DispatchTool(db: Database, run: Id, w: World, budget: nat, d: Decision, used: nat)
    returns (end: ToolEnd, attempts: nat)
    requires CanWrite(db, run) && d.ToolCallDecision?
    modifies db
    ensures CanWrite(db, run) && db.committed.prey == old(db.committed.prey)
    ensures Wrote(old(db.committed), db.committed, run, RunTool(w, budget, d, used).events)
    ensures end == RunTool(w, budget, d, used).result && attempts == RunTool(w, budget, d, used).attempts
  {
    match w.validate(d.tool, d.args)
    case UnknownTool(detail) =>
      Append(db, run, RefusedCall(d, NoSuchTool(d.tool), detail));
      return Failed, used;
    case InvalidArgs(detail) =>
      Append(db, run, RefusedCall(d, BadArgs, detail));
      return Failed, used;
    case Breaks(raised) =>
      return Broke(raised), used;
    case Valid(raw) =>
      var call := ToolCall(d.tool, raw, d.toolUseId, d.thinking);
      Append(db, run, call);
      attempts := used;
      var attempt := 0;
      ghost var written := [call];
      while true
        invariant attempt <= budget && CanWrite(db, run) && db.committed.prey == old(db.committed.prey)
        invariant Wrote(old(db.committed), db.committed, run, written)
        invariant var rest := Attempts(w, budget, call, attempt, attempts);
          RunTool(w, budget, d, used) == rest.(events := written + rest.events)
        decreases budget - attempt
      {
        var reply := w.tool(attempts, call.tool, raw);
        attempts := attempts + 1;
        if reply.Returns? {
          Append(db, run, ToolResult(call.tool, raw, reply.response, call.toolUseId));
          return Ran, attempts;
        }
        var error := ToolError(call.tool, raw, reply.raised);
        Append(db, run, error);
        written := written + [error];
        if !(Classify(reply.raised.exc) && attempt < budget) {
          return Failed, attempts;
        }
        ghost var rest := Attempts(w, budget, call, attempt + 1, attempts);
        assert RunTool(w, budget, d, used).events == written + rest.events;
        attempt := attempt + 1;
      }
  }

  /** The ids uuid4 will hand out from `n` on are new, and all different. */
  ghost predicate Fresh(w: World, t: Tables, n: nat) {
    && (forall k: nat, i | n <= k && 0 <= i < |t.prey| :: t.prey[i].id != w.uuid(k))
    && (forall j: nat, k: nat | j < k :: w.uuid(j) != w.uuid(k))
  }

  /** The prey row a capture leaves. */
  predicate Penned(p: PreyRow, id: Id, run: Id, territory: string, posting: string) {
    && p.id == id && p.runId == run && p.territory == territory && p.posting == posting
    && p.status.Awaiting? && p.decidedAt.None? && p.reason.None? && p.provenance.None?
  }

  /** From row `base` on, the pen holds these captures and no more, in order, awaiting a verdict. */
  predicate HoldsCatch(base: nat, prey: seq<PreyRow>, run: Id, catch: seq<Event>) {
    && |prey| == base + |catch|
    && forall i | 0 <= i < |catch| :: catch[i].PreyCaptured?
         && Penned(prey[base + i], catch[i].preyId, run, catch[i].territory, catch[i].rawPosting)
  }

  lemma {:induction false} HoldsMoreCatch(base: nat, prey: seq<PreyRow>, more: seq<PreyRow>, run: Id,
          catch: seq<Event>, events: seq<Event>)
    requires HoldsCatch(base, prey, run, catch) && prey <= more && HoldsCatch(|prey|, more, run, events)
    ensures HoldsCatch(base, more, run, catch + events)
  {
    var all := catch + events;
    forall i | 0 <= i < |all|
      ensures all[i].PreyCaptured? && Penned(more[base + i], all[i].preyId, run, all[i].territory, all[i].rawPosting)
    {
      if i >= |catch| {
        assert events[i - |catch|] == all[i];
      }
    }
  }

  /** The captures of the run's log are what the pen has held since row `base`. */
  predicate PennedFrom(base: nat, prey: seq<PreyRow>, run: Id, log: seq<Event>) {
    HoldsCatch(base, prey, run, Pick(Catching, log))
  }

  lemma {:induction false} PennedStays(base: nat, prey: seq<PreyRow>, run: Id, log: seq<Event>, events: seq<Event>)
    requires PennedFrom(base, prey, run, log) && Pick(Catching, events) == []
    ensures PennedFrom(base, prey, run, log + events)
  {
    PickConcat(Catching, log, events);
    assert Pick(Catching, log) + [] == Pick(Catching, log);
  }

  lemma {:induction false} PennedGrows(base: nat, prey: seq<PreyRow>, more: seq<PreyRow>, run: Id, log: seq<Event>,
          w: World, territory: string, postings: seq<string>, ids: nat)
    requires PennedFrom(base, prey, run, log) && prey <= more && |more| == |prey| + |postings|
    requires forall i | 0 <= i < |postings| ::
      Penned(more[|prey| + i], w.uuid(ids + i), run, territory, postings[i])
    ensures PennedFrom(base, more, run, log + CaptureEvents(w, territory, postings, ids))
  {
    var events := CaptureEvents(w, territory, postings, ids);
    PickAll(Catching, events);
    PickConcat(Catching, log, events);
    HoldsMoreCatch(base, prey, more, run, Pick(Catching, log), events);
  }

  lemma {:induction false} BackstopPensNothing(base: nat, prey: seq<PreyRow>, run: Id, log: seq<Event>, raised: Raised)
    requires PennedFrom(base, prey, run, log)
    ensures PennedFrom(base, prey, run, log + [Backstop(raised)])
  {
    PickNone(Catching, [Backstop(raised)]);
    PennedStays(base, prey, run, log, [Backstop(raised)]);
  }

  method PenTheCatch(db: Database, run: Id, w: World, territory: string, postings: seq<string>, ids: nat)
    requires CanWrite(db, run) && Fresh(w, db.committed, ids)
    modifies db
    ensures CanWrite(db, run)
    ensures Wrote(old(db.committed), db.committed, run, CaptureEvents(w, territory, postings, ids))
    ensures |db.committed.prey| == |old(db.committed).prey| + |postings|
    ensures forall i | 0 <= i < |postings| ::
      Penned(db.committed.prey[|old(db.committed).prey| + i], w.uuid(ids + i), run, territory, postings[i])
  {
    ghost var base := |db.committed.prey|;
    for i := 0 to |postings|
      invariant CanWrite(db, run) && Fresh(w, db.committed, ids + i)
      invariant Wrote(old(db.committed), db.committed, run, CaptureEvents(w, territory, postings[..i], ids))
      invariant |db.committed.prey| == base + i
      invariant forall j | 0 <= j < i ::
        Penned(db.committed.prey[base + j], w.uuid(ids + j), run, territory, postings[j])
    {
      ghost var before := db.committed;
      var r := db.CapturePrey(run, w.uuid(ids + i), territory, postings[i], null);
      assert before.prey <= db.committed.prey;
      assert CaptureEvents(w, territory, postings[..i + 1], ids)
          == CaptureEvents(w, territory, postings[..i], ids) + [PreyCaptured(w.uuid(ids + i), territory, postings[i])];
    }
    assert postings[..|postings|] == postings;
  }

  /** How one turn of the loop ends. */
  datatype TurnEnd = Continue | Return(outcome: Outcome, reason: Option<AbortReason>) | Throw(raised: Raised)

  predicate Reaches(s: State, log: seq<Event>, used: Used, end: TurnEnd) {
    match end
    case Continue => s == Going(log, used)
    case Return(outcome, reason) => s == Stopped(log, used, outcome, reason)
    case Throw(raised) => s == Threw(log, used, raised)
  }

  method Act(db: Database, run: Id, w: World, caps: Caps, territory: string, decision: Decision, used: Used,
          ghost base: nat)
    returns (end: TurnEnd, after: Used)
    requires CanWrite(db, run) && Fresh(w, db.committed, used.ids)
    requires PennedFrom(base, db.committed.prey, run, RunLog(db.committed.events, run))
    modifies db
    ensures CanWrite(db, run) && Grew(old(db.committed), db.committed, run)
    ensures PennedFrom(base, db.committed.prey, run, RunLog(db.committed.events, run))
    ensures end.Continue? ==> Fresh(w, db.committed, after.ids)
    ensures Reaches(ActOn(w, caps, territory, old(RunLog(db.committed.events, run)), used, decision),
                    RunLog(db.committed.events, run), after, end)
  {
    ghost var was, log := db.committed.prey, RunLog(db.committed.events, run);
    match decision
    case ToolCallDecision(_, _, _, _, _) =>
      DispatchPicks(Catching, w, caps.retryBudget, decision, used.tools);
      PennedStays(base, was, run, log, RunTool(w, caps.retryBudget, decision, used.tools).events);
      var ran, tools := DispatchTool(db, run, w, caps.retryBudget, decision, used.tools);
      after := used.(tools := tools);
      match ran {
        case Ran => return Continue, after;
        case Failed => return Return(Aborted, Some(ToolFailure)), after;
        case Broke(raised) => return Throw(raised), after;
      }
    case HuntComplete(caught, _) =>
      PenTheCatch(db, run, w, territory, caught, used.ids);
      PennedGrows(base, was, db.committed.prey, run, log, w, territory, caught, used.ids);
      return Return(Completed, None), used.(ids := used.ids + |caught|);
    case NeedsHelp(_) =>
      return Return(Outcome.NeedsHelp, None), used;
  }

  /** What the brain writes when it is asked, and what it is paid, pens nothing. */
  lemma {:induction false} AskingPensNothing(base: nat, prey: seq<PreyRow>, run: Id, w: World, budget: nat,
          context: seq<Event>, used: nat)
    requires PennedFrom(base, prey, run, context)
    ensures var asked := CallBrain(w, budget, context, 0, used);
      && PennedFrom(base, prey, run, context + asked.events)
      && (asked.result.Answer? ==>
            PennedFrom(base, prey, run, context + asked.events + UsageOf(asked.result.decision)))
  {
    var asked := CallBrain(w, budget, context, 0, used);
    CallPicks(Catching, w, budget, context, used);
    PennedStays(base, prey, run, context, asked.events);
    if asked.result.Answer? {
      UsagePicks(Catching, asked.result.decision);
      PennedStays(base, prey, run, context + asked.events, UsageOf(asked.result.decision));
    }
  }

  method TakeTurn(db: Database, run: Id, w: World, caps: Caps, territory: string, used: Used, ghost turn: nat,
          ghost base: nat)
    returns (end: TurnEnd, after: Used)
    requires CanWrite(db, run) && Fresh(w, db.committed, used.ids)
    requires PennedFrom(base, db.committed.prey, run, RunLog(db.committed.events, run))
    requires AfterTurns(w, caps, territory, turn) == Going(RunLog(db.committed.events, run), used)
    modifies db
    ensures CanWrite(db, run) && Grew(old(db.committed), db.committed, run)
    ensures end.Continue? ==> Fresh(w, db.committed, after.ids)
    ensures Reaches(AfterTurns(w, caps, territory, turn + 1), RunLog(db.committed.events, run), after, end)
    ensures PennedFrom(base, db.committed.prey, run, RunLog(db.committed.events, run))
  {
    var context := ReadEvents(db.committed, run);
    ReplayIsRunLog(db.committed, run);
    var spent := FoldCostLoop(context);
    if spent >= caps.ceiling {
      return Return(Aborted, Some(CostCeiling)), used;
    }
    AskingPensNothing(base, db.committed.prey, run, w, caps.retryBudget, context, used.brains);
    var asked, brains := AskBrain(db, run, w, caps.retryBudget, context, used.brains);
    after := used.(brains := brains);
    match asked
    case GaveUp => end := Return(Aborted, Some(BrainCallFailed));
    case Escaped(raised) => end := Throw(raised);
    case Answer(decision) =>
      if decision.usage.Some? {
        Append(db, run, decision.usage.value);
      }
      assert RunLog(db.committed.events, run) ==
        context + CallBrain(w, caps.retryBudget, context, 0, used.brains).events + UsageOf(decision);
      end, after := Act(db, run, w, caps, territory, decision, after, base);
  }

  lemma {:induction false} DriveReaches(w: World, caps: Caps, territory: string, turn: nat, log: seq<Event>,
          used: Used, end: TurnEnd)
    requires turn <= Turns(caps) && Reaches(AfterTurns(w, caps, territory, turn), log, used, end)
    requires end.Continue? ==> turn == Turns(caps)
    ensures Reaches(Drive(w, caps, territory), log, used,
                    if end.Continue? then Return(Aborted, Some(MaxIterations)) else end)
  {
    if !end.Continue? {
      SettledStays(w, caps, territory, turn, Turns(caps));
    }
  }

  /** plan -> act -> observe, until a terminal decision, a breaker or a failure. */
  method DriveHunt(db: Database, run: Id, w: World, caps: Caps, territory: string, ghost base: nat)
    returns (end: TurnEnd, ghost used: Used)
    requires CanWrite(db, run) && RunLog(db.committed.events, run) == [] && Fresh(w, db.committed, 0)
    requires base == |db.committed.prey|
    modifies db
    ensures CanWrite(db, run) && Grew(old(db.committed), db.committed, run) && !end.Continue?
    ensures Reaches(Drive(w, caps, territory), RunLog(db.committed.events, run), used, end)
    ensures PennedFrom(base, db.committed.prey, run, RunLog(db.committed.events, run))
  {
    var now, turn := Used(0, 0, 0), 0;
    end := Continue;
    while turn < caps.maxIterations && end.Continue?
      invariant 0 <= turn <= Turns(caps) && CanWrite(db, run) && Grew(old(db.committed), db.committed, run)
      invariant end.Continue? ==> Fresh(w, db.committed, now.ids)
      invariant PennedFrom(base, db.committed.prey, run, RunLog(db.committed.events, run))
      invariant Reaches(AfterTurns(w, caps, territory, turn), RunLog(db.committed.events, run), now, end)
      decreases caps.maxIterations - turn
    {
      end, now := TakeTurn(db, run, w, caps, territory, now, turn, base);
      turn := turn + 1;
    }
    DriveReaches(w, caps, territory, turn, RunLog(db.committed.events, run), now, end);
    used := now;
    if end.Continue? {
      end := Return(Aborted, Some(MaxIterations));
    }
  }

  /** The run's row: its caps recorded at the start, its one outcome at the end. */
  predicate ClosedWith(row: RunRow, run: Id, territory: string, caps: Caps, s: State)
    requires s.Stopped?
  {
    && row.id == run && row.territory == territory
    && row.costCeiling == Some(caps.ceiling) && row.maxIterations == Some(caps.maxIterations)
    && row.outcome == Some(s.outcome) && row.abortReason == s.reason && row.endedAt.Some?
  }

  /**
   One hunt from its first row to its outcome: the log it leaves is the hunt's, its caps are on its
   row from the start, its row is closed exactly once, and no other run is touched.
   */
  method RunHunt(db: Database, run: Id, w: World, caps: Caps, territory: string)
    requires db.Idle() && DualCursor(db.committed.events) && Fresh(w, db.committed, 0)
    requires !RunExists(db.committed, run)
    requires forall i | 0 <= i < |db.committed.events| :: db.committed.events[i].runId != run
    modifies db
    ensures CanWrite(db, run)
    ensures RunLog(db.committed.events, run) == Hunt(w, caps, territory).log
    ensures forall r | r != run :: RunLog(db.committed.events, r) == RunLog(old(db.committed.events), r)
    ensures |db.committed.runs| == |old(db.committed.runs)| + 1
    ensures db.committed.runs[..|old(db.committed.runs)|] == old(db.committed.runs)
    ensures ClosedWith(db.committed.runs[|old(db.committed.runs)|], run, territory, caps, Hunt(w, caps, territory))
    ensures old(db.committed.prey) <= db.committed.prey
    ensures PennedFrom(|old(db.committed.prey)|, db.committed.prey, run, Hunt(w, caps, territory).log)
  {
    ghost var before := db.committed;
    NoRowsNoLog(db.committed.events, run);
    db.StartRun(run, territory, Some(caps.ceiling), Some(caps.maxIterations));
    assert db.committed.runs[|before.runs|].id == run;
    ghost var started := db.committed;
    ghost var used;
    var end;
    end, used := DriveHunt(db, run, w, caps, territory, |before.prey|);
    ghost var log := RunLog(db.committed.events, run);
    var outcome, reason := Aborted, None;
    match end {
      case Return(o, r) =>
        outcome, reason := o, r;
      case Throw(raised) =>
        BackstopPensNothing(|before.prey|, db.committed.prey, run, log, raised);
        if raised.exc.BrainParseError? {
          Append(db, run, Error(BRAIN, false, BadResponse, "", Some(raised.exc.raw), Some(raised.exc.detail)));
          reason := Some(MalformedResponse);
        } else {
          Append(db, run, Error(LOOP, false, Repr(raised.repr), "", None, Some(raised.trace)));
          reason := Some(UnhandledException);
        }
    }
    assert db.committed.runs == started.runs && started.runs[|before.runs|].outcome.None?;
    assert outcome == Hunt(w, caps, territory).outcome && reason == Hunt(w, caps, territory).reason;
    db.FinishRun(run, outcome, reason);
    assert ClosedWith(db.committed.runs[|before.runs|], run, territory, caps, Hunt(w, caps, territory));
    assert forall i | 0 <= i < |before.runs| :: before.runs[i].id != run;
    assert db.committed.runs[|before.runs|].id == run;
    assert db.committed.runs[..|before.runs|] == before.runs;
  }
}
