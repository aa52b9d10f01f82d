/**
 What a hunt leaves on record of its brain's replies and its tools' answers. Every claim is about the
 oracles' own answers and the fields of the events.
 */
module Record {
  import opened Prelude
  import opened Events
  import opened Cost
  import opened Tables
  import opened Grammar
  import opened Loop

  // ----- parts of a log -----

  datatype Part = Thinking | Spending | Catching

  predicate Of(part: Part, e: Event) {
    match part
    case Thinking => e.ThinkingDelta?
    case Spending => e.Usage?
    case Catching => e.PreyCaptured?
  }

  function Pick(part: Part, log: seq<Event>): seq<Event> {
    if |log| == 0 then []
    else
      var rest, e := Pick(part, log[..|log| - 1]), log[|log| - 1];
      if Of(part, e) then rest + [e] else rest
  }

  lemma {:induction false} PickConcat(part: Part, a: seq<Event>, b: seq<Event>)
    ensures Pick(part, a + b) == Pick(part, a) + Pick(part, b)
  {
    if |b| == 0 {
      assert a + b == a;
    } else {
      PickConcat(part, a, b[..|b| - 1]);
      assert (a + b)[..|a + b| - 1] == a + b[..|b| - 1];
    }
  }

  lemma {:induction false} PickAll(part: Part, log: seq<Event>)
    requires forall i | 0 <= i < |log| :: Of(part, log[i])
    ensures Pick(part, log) == log
  {
    if |log| == 0 {
    } else {
      PickAll(part, log[..|log| - 1]);
    }
  }

  lemma {:induction false} PickNone(part: Part, log: seq<Event>)
    requires forall e | e in log :: !Of(part, e)
    ensures Pick(part, log) == []
  {
    if |log| == 0 {
    } else {
      PickNone(part, log[..|log| - 1]);
    }
  }

  // ----- which failures are asked again -----

  /** A failure of the connection, or an answer that says to come back: 429 or a 5xx status. */
  predicate Passing(exc: Exc) {
    exc.TransportError? || (exc.HTTPStatusError? && (exc.code == 429 || exc.code / 100 == 5))
  }

  /** A tool may besides run out of time, or say that it may be tried again. */
  predicate ToolPassing(exc: Exc) { exc.TimeoutError? || exc.RetryableToolError? || Passing(exc) }

  predicate Fell(end: BrainEnd) { end.Raises? && Passing(end.raised.exc) }

  // ----- one brain call -----

  /** Attempt number `last` is the one that settles a call begun with number `used`. */
  predicate SettlesCall(w: World, budget: nat, context: seq<Event>, used: nat, last: nat) {
    && used <= last <= used + budget
    && (forall j | used <= j < last :: Fell(w.brain(j, context).end))
    && (Fell(w.brain(last, context).end) ==> last == used + budget)
  }

  /** How a call ends, by its settling reply. */
  predicate EndsAs(asked: Asked, end: BrainEnd) {
    match end
    case Decides(d) => asked == Answer(d)
    case Raises(r) => if r.exc.TransportError? || r.exc.HTTPStatusError? then asked == GaveUp else asked == Escaped(r)
  }

  lemma {:induction false} CallSettles(w: World, budget: nat, context: seq<Event>, attempt: nat, used: nat)
    requires attempt <= budget
    ensures var asked := CallBrain(w, budget, context, attempt, used);
      && asked.attempts > used && SettlesCall(w, budget - attempt, context, used, asked.attempts - 1)
      && EndsAs(asked.result, w.brain(asked.attempts - 1, context).end)
    decreases budget - attempt
  {
    var reply := w.brain(used, context);
    if reply.end.Raises? && IsHttp(reply.end.raised.exc) && Classify(reply.end.raised.exc) && attempt < budget {
      CallSettles(w, budget, context, attempt + 1, used + 1);
    }
  }

  lemma {:induction false} SettledOnce(w: World, budget: nat, context: seq<Event>, used: nat, a: nat, b: nat)
    requires SettlesCall(w, budget, context, used, a) && SettlesCall(w, budget, context, used, b)
    ensures a == b
  {
    assert a < b ==> Fell(w.brain(a, context).end);
    assert b < a ==> Fell(w.brain(b, context).end);
  }

  lemma {:induction false} FellIsRetried(w: World, budget: nat, context: seq<Event>, used: nat, last: nat)
    requires SettlesCall(w, budget, context, used, last)
    ensures Retried(w, context, used, last - used)
  {
    assert forall j | used <= j < last :: Fell(w.brain(j, context).end);
  }

  /** A call's events are those of its attempts, up to the one that settles it. */
  lemma {:induction false} CallEvents(w: World, budget: nat, context: seq<Event>, used: nat, last: nat)
    requires SettlesCall(w, budget, context, used, last)
    ensures CallBrain(w, budget, context, 0, used).attempts == last + 1
    ensures CallBrain(w, budget, context, 0, used).events == Prior(w, context, used, last + 1 - used)
    ensures EndsAs(CallBrain(w, budget, context, 0, used).result, w.brain(last, context).end)
  {
    CallSettles(w, budget, context, 0, used);
    SettledOnce(w, budget, context, used, last, CallBrain(w, budget, context, 0, used).attempts - 1);
    FellIsRetried(w, budget, context, used, last);
    PriorIsPrefix(w, budget, context, used, last - used);
    LastAttempt(w, budget, context, used, last);
  }

  lemma {:induction false} LastAttempt(w: World, budget: nat, context: seq<Event>, used: nat, last: nat)
    requires SettlesCall(w, budget, context, used, last)
    ensures CallBrain(w, budget, context, last - used, last).events == AttemptEvents(w.brain(last, context))
  {
    var reply := w.brain(last, context);
    assert Deltas(reply.deltas) + [] == Deltas(reply.deltas);
  }

  /**
   An attempt leaves each text it relayed, in order, and then, if the connection failed or an HTTP
   status came back, that error: with its body, if it has one, and marked by whether it may pass.
   */
  lemma {:induction false} AttemptRecords(reply: BrainReply)
    ensures var log, n := AttemptEvents(reply), |reply.deltas|;
      && n <= |log| && (forall i | 0 <= i < n :: log[i] == ThinkingDelta(reply.deltas[i]))
      && match reply.end
         case Decides(_) => |log| == n
         case Raises(r) =>
           if r.exc.TransportError? || r.exc.HTTPStatusError? then
             && |log| == n + 1 && log[n].Error? && log[n].tool == BRAIN && log[n].rawRequest == ""
             && log[n].error == Repr(r.repr) && log[n].detail == Some(r.trace)
             && (log[n].retryable <==> Passing(r.exc))
             && log[n].response == (if r.exc.HTTPStatusError? then Some(r.exc.body) else None)
           else |log| == n
  {
  }

  // ----- one dispatch -----

  /** The event a failed attempt at this call leaves. */
  predicate Records(e: Event, tool: string, raw: Bytes, r: Raised) {
    && e.Error? && e.tool == tool && e.rawRequest == raw && e.error == Repr(r.repr)
    && e.response.None? && e.detail == Some(r.trace) && (e.retryable <==> ToolPassing(r.exc))
  }

  predicate FellTool(reply: ToolReply) { reply.Fails? && ToolPassing(reply.raised.exc) }

  /** Attempt `number` at the call failed in a way that may pass, and left this event. */
  predicate AttemptFails(w: World, call: CallEvent, number: nat, e: Event) {
    var reply := w.tool(number, call.tool, call.rawRequest);
    FellTool(reply) && Records(e, call.tool, call.rawRequest, reply.raised)
  }

  /** The attempts at an open call: one event each, of which the last says how the dispatch ended. */
  predicate AttemptsRecorded(w: World, budget: nat, call: CallEvent, used: nat, ran: Effect<ToolEnd>) {
    var n := |ran.events|;
    && 0 < n <= budget + 1 && ran.attempts == used + n
    && (forall j: nat | j < n - 1 :: AttemptFails(w, call, used + j, ran.events[j]))
    && match w.tool(used + n - 1, call.tool, call.rawRequest)
       case Returns(response) =>
         ran.result == Ran && ran.events[n - 1] == ToolResult(call.tool, call.rawRequest, response, call.toolUseId)
       case Fails(r) =>
         && ran.result == Failed && Records(ran.events[n - 1], call.tool, call.rawRequest, r)
         && (ToolPassing(r.exc) ==> n == budget + 1)
  }

  lemma {:induction false} AttemptsLeave(w: World, budget: nat, call: CallEvent, attempt: nat, used: nat)
    requires attempt <= budget
    ensures AttemptsRecorded(w, budget - attempt, call, used, Attempts(w, budget, call, attempt, used))
    decreases budget - attempt
  {
    match w.tool(used, call.tool, call.rawRequest)
    case Returns(_) =>
    case Fails(r) =>
      if Classify(r.exc) && attempt < budget {
        AttemptsLeave(w, budget, call, attempt + 1, used + 1);
        OneMoreAttempt(w, budget, call, attempt, used);
      }
  }

  lemma {:induction false} OneMoreAttempt(w: World, budget: nat, call: CallEvent, attempt: nat, used: nat)
    requires attempt < budget && FellTool(w.tool(used, call.tool, call.rawRequest))
    requires AttemptsRecorded(w, budget - attempt - 1, call, used + 1, Attempts(w, budget, call, attempt + 1, used + 1))
    ensures AttemptsRecorded(w, budget - attempt, call, used, Attempts(w, budget, call, attempt, used))
  {
    var rest, all := Attempts(w, budget, call, attempt + 1, used + 1), Attempts(w, budget, call, attempt, used);
    var n := |all.events|;
    forall j: nat | j < n - 1 ensures AttemptFails(w, call, used + j, all.events[j]) {
      if j > 0 {
        assert all.events[j] == rest.events[j - 1];
        assert AttemptFails(w, call, used + 1 + (j - 1), rest.events[j - 1]);
      }
    }
    assert all.events[n - 1] == rest.events[n - 2];
  }

  /**
   A dispatch leaves the decision's own tool, id and thinking, with the validated request, and then one
   event for each answer of the tool, with that answer in it; a refused one leaves one fatal error.
   */
  lemma {:induction false} DispatchRecords(w: World, budget: nat, d: Decision, used: nat)
    requires d.ToolCallDecision?
    ensures var ran := RunTool(w, budget, d, used);
      match w.validate(d.tool, d.args)
      case UnknownTool(detail) =>
        ran == Effect([Error(d.tool, false, NoSuchTool(d.tool), d.args, None, Some(detail))], used, Failed)
      case InvalidArgs(detail) =>
        ran == Effect([Error(d.tool, false, BadArgs, d.args, None, Some(detail))], used, Failed)
      case Breaks(raised) => ran == Effect([], used, Broke(raised))
      case Valid(raw) =>
        var call := ToolCall(d.tool, raw, d.toolUseId, d.thinking);
        && |ran.events| > 0 && ran.events[0] == call
        && AttemptsRecorded(w, budget, call, used, ran.(events := ran.events[1..]))
  {
    if w.validate(d.tool, d.args).Valid? {
      var call := ToolCall(d.tool, w.validate(d.tool, d.args).rawRequest, d.toolUseId, d.thinking);
      AttemptsLeave(w, budget, call, 0, used);
      assert RunTool(w, budget, d, used).events[1..] == Attempts(w, budget, call, 0, used).events;
    }
  }

  // ----- one turn -----

  /** Turn `n` asks the brain, and attempt number `k` settles the call. */
  predicate Asks(w: World, caps: Caps, territory: string, n: nat, k: nat) {
    && n < Turns(caps)
    && var s := AfterTurns(w, caps, territory, n);
    && s.Going? && FoldCost(s.log) < caps.ceiling && SettlesCall(w, caps.retryBudget, s.log, s.used.brains, k)
  }

  /** And its reply is this decision. */
  predicate DecidesTurn(w: World, caps: Caps, territory: string, n: nat, k: nat, d: Decision) {
    Asks(w, caps, territory, n, k) && w.brain(k, AfterTurns(w, caps, territory, n).log).end == Decides(d)
  }

  /** The log once that reply is in and paid for. */
  function PaidLog(w: World, s: State, k: nat, d: Decision): seq<Event>
    requires s.used.brains <= k
  {
    s.log + Prior(w, s.log, s.used.brains, k + 1 - s.used.brains) + UsageOf(d)
  }

  lemma {:induction false} IterateActs(w: World, caps: Caps, territory: string, s: State, k: nat, d: Decision)
    requires s.Going? && FoldCost(s.log) < caps.ceiling && SettlesCall(w, caps.retryBudget, s.log, s.used.brains, k)
    requires w.brain(k, s.log).end == Decides(d)
    ensures Iterate(w, caps, territory, s) ==
      ActOn(w, caps, territory, PaidLog(w, s, k, d), s.used.(brains := k + 1), d)
  {
    CallEvents(w, caps.retryBudget, s.log, s.used.brains, k);
  }

  lemma {:induction false} AttemptPicks(part: Part, reply: BrainReply)
    requires !part.Thinking?
    ensures Pick(part, AttemptEvents(reply)) == []
  {
    PickNone(part, AttemptEvents(reply));
  }

  lemma {:induction false} PriorPicks(part: Part, w: World, context: seq<Event>, used: nat, k: nat)
    requires !part.Thinking?
    ensures Pick(part, Prior(w, context, used, k)) == []
  {
    if k == 0 {
    } else {
      PriorPicks(part, w, context, used, k - 1);
      AttemptPicks(part, w.brain(used + k - 1, context));
      PickConcat(part, Prior(w, context, used, k - 1), AttemptEvents(w.brain(used + k - 1, context)));
    }
  }

  lemma {:induction false} CallPicks(part: Part, w: World, budget: nat, context: seq<Event>, used: nat)
    requires !part.Thinking?
    ensures Pick(part, CallBrain(w, budget, context, 0, used).events) == []
  {
    CallSettles(w, budget, context, 0, used);
    var last: nat := CallBrain(w, budget, context, 0, used).attempts - 1;
    CallEvents(w, budget, context, used, last);
    PriorPicks(part, w, context, used, last + 1 - used);
  }

  lemma {:induction false} UsagePicks(part: Part, d: Decision)
    requires !part.Thinking?
    ensures Pick(part, UsageOf(d)) == if part.Spending? && d.usage.Some? then [d.usage.value] else []
  {
    if part.Spending? {
      PickAll(part, UsageOf(d));
    } else {
      PickNone(part, UsageOf(d));
    }
  }

  lemma {:induction false} PaidPicks(part: Part, w: World, s: State, k: nat, d: Decision)
    requires s.used.brains <= k && !part.Thinking?
    ensures Pick(part, PaidLog(w, s, k, d)) == Pick(part, s.log) + Pick(part, UsageOf(d))
  {
    var told := Prior(w, s.log, s.used.brains, k + 1 - s.used.brains);
    PriorPicks(part, w, s.log, s.used.brains, k + 1 - s.used.brains);
    PickConcat(part, s.log, told);
    PickConcat(part, s.log + told, UsageOf(d));
    assert Pick(part, s.log) + [] == Pick(part, s.log);
  }

  lemma {:induction false} AttemptsAreToolTraffic(w: World, budget: nat, call: CallEvent, attempt: nat, used: nat)
    requires attempt <= budget
    ensures forall e | e in Attempts(w, budget, call, attempt, used).events :: e.Error? || e.ToolResult?
    decreases budget - attempt
  {
    match w.tool(used, call.tool, call.rawRequest)
    case Returns(_) =>
    case Fails(r) =>
      if Classify(r.exc) && attempt < budget {
        AttemptsAreToolTraffic(w, budget, call, attempt + 1, used + 1);
      }
  }

  lemma {:induction false} DispatchPicks(part: Part, w: World, budget: nat, d: Decision, used: nat)
    requires d.ToolCallDecision?
    ensures Pick(part, RunTool(w, budget, d, used).events) == []
  {
    if w.validate(d.tool, d.args).Valid? {
      var call := ToolCall(d.tool, w.validate(d.tool, d.args).rawRequest, d.toolUseId, d.thinking);
      AttemptsAreToolTraffic(w, budget, call, 0, used);
    }
    PickNone(part, RunTool(w, budget, d, used).events);
  }

  /** These captures are of these postings, in order, under this territory. */
  predicate CatchIs(territory: string, catch: seq<Event>, postings: seq<string>) {
    && |catch| == |postings|
    && forall i | 0 <= i < |catch| ::
         catch[i].PreyCaptured? && catch[i].territory == territory && catch[i].rawPosting == postings[i]
  }

  function CaughtBy(d: Decision): seq<string> { if d.HuntComplete? then d.caught else [] }

  /** `log` has one part of `before`, and then this catch. */
  predicate Catches(territory: string, before: seq<Event>, log: seq<Event>, postings: seq<string>) {
    && Pick(Catching, before) <= Pick(Catching, log)
    && CatchIs(territory, Pick(Catching, log)[|Pick(Catching, before)|..], postings)
  }

  lemma {:induction false} CatchesTail(territory: string, log: seq<Event>, events: seq<Event>, postings: seq<string>)
    requires CatchIs(territory, Pick(Catching, events), postings)
    ensures Catches(territory, log, log + events, postings)
  {
    var before, more := Pick(Catching, log), Pick(Catching, events);
    PickConcat(Catching, log, events);
    assert (before + more)[|before|..] == more;
  }

  /** Events without usage that hold this catch, added to a log. */
  lemma {:induction false} EventsPick(territory: string, log: seq<Event>, events: seq<Event>, postings: seq<string>)
    requires Pick(Spending, events) == [] && CatchIs(territory, Pick(Catching, events), postings)
    ensures Pick(Spending, log + events) == Pick(Spending, log) && Catches(territory, log, log + events, postings)
  {
    PickConcat(Spending, log, events);
    assert Pick(Spending, log) + [] == Pick(Spending, log);
    CatchesTail(territory, log, events, postings);
  }

  lemma {:induction false} ActAppends(w: World, caps: Caps, territory: string, log: seq<Event>, used: Used, d: Decision)
    ensures ActOn(w, caps, territory, log, used, d).log == log +
      match d
      case ToolCallDecision(_, _, _, _, _) => RunTool(w, caps.retryBudget, d, used.tools).events
      case HuntComplete(caught, _) => CaptureEvents(w, territory, caught, used.ids)
      case NeedsHelp(_) => []
  {
    assert log + [] == log;
  }

  lemma {:induction false} CapturesPick(w: World, territory: string, postings: seq<string>, ids: nat)
    ensures Pick(Spending, CaptureEvents(w, territory, postings, ids)) == []
    ensures CatchIs(territory, Pick(Catching, CaptureEvents(w, territory, postings, ids)), postings)
  {
    PickAll(Catching, CaptureEvents(w, territory, postings, ids));
    PickNone(Spending, CaptureEvents(w, territory, postings, ids));
  }

  lemma {:induction false} ActPicks(w: World, caps: Caps, territory: string, log: seq<Event>, used: Used, d: Decision)
    ensures var s := ActOn(w, caps, territory, log, used, d);
      Pick(Spending, s.log) == Pick(Spending, log) && Catches(territory, log, s.log, CaughtBy(d))
  {
    ActAppends(w, caps, territory, log, used, d);
    match d
    case ToolCallDecision(_, _, _, _, _) =>
      var events := RunTool(w, caps.retryBudget, d, used.tools).events;
      DispatchPicks(Spending, w, caps.retryBudget, d, used.tools);
      DispatchPicks(Catching, w, caps.retryBudget, d, used.tools);
      EventsPick(territory, log, events, []);
    case HuntComplete(caught, _) =>
      CapturesPick(w, territory, caught, used.ids);
      EventsPick(territory, log, CaptureEvents(w, territory, caught, used.ids), caught);
    case NeedsHelp(_) => EventsPick(territory, log, [], []);
  }

  lemma {:induction false} IterateRecords(w: World, caps: Caps, territory: string, s: State, k: nat, d: Decision)
    requires s.Going? && FoldCost(s.log) < caps.ceiling && SettlesCall(w, caps.retryBudget, s.log, s.used.brains, k)
    requires w.brain(k, s.log).end == Decides(d)
    ensures var t := Iterate(w, caps, territory, s);
      && Pick(Spending, t.log) == Pick(Spending, s.log) + Pick(Spending, UsageOf(d))
      && Catches(territory, s.log, t.log, CaughtBy(d))
  {
    var log := PaidLog(w, s, k, d);
    IterateActs(w, caps, territory, s, k, d);
    PaidPicks(Spending, w, s, k, d);
    PaidPicks(Catching, w, s, k, d);
    UsagePicks(Catching, d);
    assert Pick(Catching, s.log) + [] == Pick(Catching, s.log);
    ActPicks(w, caps, territory, log, s.used.(brains := k + 1), d);
  }

  /** A decided turn records its reply's usage, and its catch if it ends the hunt with one, and no other. */
  lemma {:induction false} TurnRecords(w: World, caps: Caps, territory: string, n: nat, k: nat, d: Decision)
    requires DecidesTurn(w, caps, territory, n, k, d)
    ensures var s, t := AfterTurns(w, caps, territory, n), AfterTurns(w, caps, territory, n + 1);
      && Pick(Spending, t.log) == Pick(Spending, s.log) + (if d.usage.Some? then [d.usage.value] else [])
      && Catches(territory, s.log, t.log, CaughtBy(d))
  {
    IterateRecords(w, caps, territory, AfterTurns(w, caps, territory, n), k, d);
    UsagePicks(Spending, d);
  }

  // ----- the whole hunt -----

  /** A turn ended by a failure of the brain ends the hunt, and records neither. */
  lemma {:induction false} FailedTurn(w: World, caps: Caps, territory: string, s: State, k: nat)
    requires s.Going? && FoldCost(s.log) < caps.ceiling && SettlesCall(w, caps.retryBudget, s.log, s.used.brains, k)
    requires w.brain(k, s.log).end.Raises?
    ensures var t := Iterate(w, caps, territory, s);
      && !t.Going? && (t.Stopped? ==> t.outcome.Aborted?)
      && Pick(Spending, t.log) == Pick(Spending, s.log) && Pick(Catching, t.log) == Pick(Catching, s.log)
  {
    CallEvents(w, caps.retryBudget, s.log, s.used.brains, k);
    ToldPicks(w, s, k);
  }

  lemma {:induction false} ToldPicks(w: World, s: State, k: nat)
    requires s.used.brains <= k
    ensures var told := Prior(w, s.log, s.used.brains, k + 1 - s.used.brains);
      Pick(Spending, s.log + told) == Pick(Spending, s.log) && Pick(Catching, s.log + told) == Pick(Catching, s.log)
  {
    var told := Prior(w, s.log, s.used.brains, k + 1 - s.used.brains);
    PriorPicks(Spending, w, s.log, s.used.brains, k + 1 - s.used.brains);
    PriorPicks(Catching, w, s.log, s.used.brains, k + 1 - s.used.brains);
    PickConcat(Spending, s.log, told);
    PickConcat(Catching, s.log, told);
  }

  lemma {:induction false} SettlingReply(w: World, caps: Caps, s: State) returns (k: nat)
    requires s.Going?
    ensures SettlesCall(w, caps.retryBudget, s.log, s.used.brains, k)
  {
    CallSettles(w, caps.retryBudget, s.log, 0, s.used.brains);
    k := CallBrain(w, caps.retryBudget, s.log, 0, s.used.brains).attempts - 1;
  }

  /** The decision that settles turn `n`; without one the turn ends the hunt and records neither. */
  lemma {:induction false} DecisionOf(w: World, caps: Caps, territory: string, n: nat)
    returns (k: nat, d: Option<Decision>)
    requires n < Turns(caps) && AfterTurns(w, caps, territory, n).Going?
    ensures d.Some? ==> DecidesTurn(w, caps, territory, n, k, d.value)
    ensures d.None? ==>
      var s, t := AfterTurns(w, caps, territory, n), AfterTurns(w, caps, territory, n + 1);
      && !t.Going? && (t.Stopped? ==> t.outcome.Aborted?)
      && Pick(Spending, t.log) == Pick(Spending, s.log) && Pick(Catching, t.log) == Pick(Catching, s.log)
  {
    var s := AfterTurns(w, caps, territory, n);
    d := None;
    k := SettlingReply(w, caps, s);
    if FoldCost(s.log) < caps.ceiling {
      match w.brain(k, s.log).end
      case Decides(decision) => d := Some(decision);
      case Raises(_) => FailedTurn(w, caps, territory, s, k);
    }
  }

  /** A terminal decision stops the hunt where it stands after that turn. */
  lemma {:induction false} TerminalTurn(w: World, caps: Caps, territory: string, n: nat, k: nat, d: Decision)
    requires DecidesTurn(w, caps, territory, n, k, d)
    ensures var t := AfterTurns(w, caps, territory, n + 1);
      match d
      case ToolCallDecision(_, _, _, _, _) => t.Stopped? ==> t.outcome.Aborted?
      case HuntComplete(_, _) => t.Stopped? && t.outcome.Completed? && t.reason.None? && t.used.brains == k + 1
      case NeedsHelp(_) => t.Stopped? && t.outcome.NeedsHelp? && t.reason.None? && t.used.brains == k + 1
  {
    IterateActs(w, caps, territory, AfterTurns(w, caps, territory, n), k, d);
  }

  lemma {:induction false} GoingIsCatchless(w: World, caps: Caps, territory: string, n: nat)
    requires n <= Turns(caps) && AfterTurns(w, caps, territory, n).Going?
    ensures Pick(Catching, AfterTurns(w, caps, territory, n).log) == []
  {
    if n == 0 {
    } else {
      GoingIsCatchless(w, caps, territory, n - 1);
      var k, d := DecisionOf(w, caps, territory, n - 1);
      TerminalTurn(w, caps, territory, n - 1, k, d.value);
      TurnRecords(w, caps, territory, n - 1, k, d.value);
    }
  }

  /** The turn after which a hunt does not go on. */
  lemma {:induction false} LastTurn(w: World, caps: Caps, territory: string, m: nat) returns (n: nat)
    requires m <= Turns(caps) && !AfterTurns(w, caps, territory, m).Going?
    ensures n < m && AfterTurns(w, caps, territory, n).Going?
    ensures AfterTurns(w, caps, territory, m) == AfterTurns(w, caps, territory, n + 1)
  {
    if AfterTurns(w, caps, territory, m - 1).Going? {
      n := m - 1;
    } else {
      n := LastTurn(w, caps, territory, m - 1);
    }
  }

  /** This decision, which is not a tool call, settled a turn and was the hunt's last reply. */
  ghost predicate Concluded(w: World, caps: Caps, territory: string, d: Decision) {
    && !d.ToolCallDecision?
    && exists n: nat, k: nat ::
         DecidesTurn(w, caps, territory, n, k, d) && Hunt(w, caps, territory).used.brains == k + 1
  }

  lemma {:induction false} TerminalHunt(w: World, caps: Caps, territory: string, n: nat, k: nat, d: Decision)
    requires DecidesTurn(w, caps, territory, n, k, d) && !d.ToolCallDecision?
    ensures var s := Hunt(w, caps, territory);
      && s == AfterTurns(w, caps, territory, n + 1) && Concluded(w, caps, territory, d)
      && s.outcome == (if d.HuntComplete? then Completed else Outcome.NeedsHelp)
      && CatchIs(territory, Pick(Catching, s.log), CaughtBy(d))
  {
    TerminalTurn(w, caps, territory, n, k, d);
    SettledStays(w, caps, territory, n + 1, Turns(caps));
    GoingIsCatchless(w, caps, territory, n);
    TurnRecords(w, caps, territory, n, k, d);
  }

  /** A hunt that no decision concluded aborts, and has caught nothing. */
  lemma {:induction false} ConclusionOf(w: World, caps: Caps, territory: string) returns (d: Option<Decision>)
    ensures var s := Hunt(w, caps, territory);
      if d.Some?
      then && Concluded(w, caps, territory, d.value) && CatchIs(territory, Pick(Catching, s.log), CaughtBy(d.value))
           && s.outcome == (if d.value.HuntComplete? then Completed else Outcome.NeedsHelp)
      else s.outcome.Aborted? && Pick(Catching, s.log) == []
  {
    var m := Turns(caps);
    d := None;
    if AfterTurns(w, caps, territory, m).Going? {
      GoingIsCatchless(w, caps, territory, m);
    } else {
      var n := LastTurn(w, caps, territory, m);
      GoingIsCatchless(w, caps, territory, n);
      var k, e := DecisionOf(w, caps, territory, n);
      if e.Some? && !e.value.ToolCallDecision? {
        TerminalHunt(w, caps, territory, n, k, e.value);
        d := e;
      } else {
        if e.Some? {
          TerminalTurn(w, caps, territory, n, k, e.value);
          TurnRecords(w, caps, territory, n, k, e.value);
        }
        BackstopCatchesNothing(w, caps, territory);
      }
    }
  }

  lemma {:induction false} BackstopCatchesNothing(w: World, caps: Caps, territory: string)
    ensures Pick(Catching, Hunt(w, caps, territory).log) == Pick(Catching, Drive(w, caps, territory).log)
  {
    var s := Drive(w, caps, territory);
    if s.Threw? {
      PickNone(Catching, [Backstop(s.raised)]);
      PickConcat(Catching, s.log, [Backstop(s.raised)]);
    }
  }

  /**
   How a hunt ends is its last reply: completed exactly if that reply decided HuntComplete, and then the
   log's captures are its catch, in order, under the hunt's territory; needs_help exactly if it decided
   NeedsHelp; and a hunt that is not completed has caught nothing.
   */
  lemma {:induction false} HuntIsDecided(w: World, caps: Caps, territory: string)
    ensures var s := Hunt(w, caps, territory);
      && (s.outcome.Completed? <==> exists d :: Concluded(w, caps, territory, d) && d.HuntComplete?)
      && (s.outcome.NeedsHelp? <==> exists d :: Concluded(w, caps, territory, d) && d.NeedsHelp?)
      && (forall d | Concluded(w, caps, territory, d) :: CatchIs(territory, Pick(Catching, s.log), CaughtBy(d)))
      && (!s.outcome.Completed? ==> Pick(Catching, s.log) == [])
  {
    var c := ConclusionOf(w, caps, territory);
    forall d | Concluded(w, caps, territory, d)
      ensures CatchIs(territory, Pick(Catching, Hunt(w, caps, territory).log), CaughtBy(d))
      ensures Hunt(w, caps, territory).outcome == (if d.HuntComplete? then Completed else Outcome.NeedsHelp)
    {
      var n: nat, k: nat :| DecidesTurn(w, caps, territory, n, k, d) && Hunt(w, caps, territory).used.brains == k + 1;
      TerminalHunt(w, caps, territory, n, k, d);
    }
  }

  /** An exception that leaves the drive is recorded with its bytes, if it is a malformed response. */
  lemma {:induction false} EscapesAreRecorded(w: World, caps: Caps, territory: string)
    requires Drive(w, caps, territory).Threw?
    ensures var s, r := Hunt(w, caps, territory), Drive(w, caps, territory).raised;
      && |s.log| > 0 && s.log[..|s.log| - 1] == Drive(w, caps, territory).log && s.outcome.Aborted?
      && var e := s.log[|s.log| - 1];
      && e.Error? && !e.retryable && e.rawRequest == ""
      && if r.exc.BrainParseError?
         then e.tool == BRAIN && e.response == Some(r.exc.raw) && e.detail == Some(r.exc.detail)
              && s.reason == Some(MalformedResponse)
         else e.tool == LOOP && e.error == Repr(r.repr) && e.response.None? && e.detail == Some(r.trace)
              && s.reason == Some(UnhandledException)
  {
  }
}
