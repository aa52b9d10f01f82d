/** The hunt loop, as the function that gives its log and its outcome, whatever its brain and tools answer. */
module Loop {
  import opened Prelude
  import opened Events
  import opened Cost
  import opened Tables
  import opened Grammar
  import opened Conversation

  datatype Exc =
    | TimeoutError | RetryableToolError | TransportError
    | HTTPStatusError(code: int, body: Bytes)
    | BrainParseError(raw: Bytes, detail: string)
    | OtherException

  /** An exception with its repr and its formatted traceback. */
  datatype Raised = Raised(exc: Exc, repr: string, trace: string)

  /** True = retryable. */
  predicate Classify(exc: Exc) {
    match exc
    case TimeoutError => true
    case RetryableToolError => true
    case TransportError => true
    case HTTPStatusError(code, _) => code == 429 || 500 <= code < 600
    case _ => false
  }

  /** The exceptions `_call_brain` catches; everything else escapes it. */
  predicate IsHttp(exc: Exc) { exc.TransportError? || exc.HTTPStatusError? }

  datatype Decision =
    | ToolCallDecision(tool: string, args: Bytes, toolUseId: string, thinking: Bytes, usage: Option<UsageEvent>)
    | HuntComplete(caught: seq<string>, usage: Option<UsageEvent>)
    | NeedsHelp(usage: Option<UsageEvent>)

  datatype BrainEnd = Decides(decision: Decision) | Raises(raised: Raised)

  /** One brain attempt: the thinking it relays through the sink, then how it ends. */
  datatype BrainReply = BrainReply(deltas: seq<string>, end: BrainEnd)

  datatype ToolReply = Returns(response: Bytes) | Fails(raised: Raised)

  /** What the registry and the tool's validator make of a call; `Breaks` is anything but a ValidationError. */
  datatype Validation =
    | UnknownTool(detail: string)
    | InvalidArgs(detail: string)
    | Breaks(raised: Raised)
    | Valid(rawRequest: Bytes)

  /** Attempt number -> reply, registry and argument validation, and the ids uuid4 will hand out. */
  datatype World = World(brain: (nat, seq<Event>) -> BrainReply,
                         tool: (nat, string, Bytes) -> ToolReply,
                         validate: (string, Bytes) -> Validation,
                         uuid: nat -> Id)

  // ----- _call_brain -----

  datatype Asked = Answer(decision: Decision) | GaveUp | Escaped(raised: Raised)

  /** The events an operation appends, the attempts used up so far, and its result. */
  datatype Effect<T> = Effect(events: seq<Event>, attempts: nat, result: T)

  function Deltas(texts: seq<string>): seq<Event> {
    seq(|texts|, i requires 0 <= i < |texts| => ThinkingDelta(texts[i]))
  }

  function BrainError(r: Raised): Event {
    Error(BRAIN, Classify(r.exc), Repr(r.repr), "",
          if r.exc.HTTPStatusError? then Some(r.exc.body) else None, Some(r.trace))
  }

  function CallBrain(w: World, budget: nat, context: seq<Event>, attempt: nat, used: nat): Effect<Asked>
    requires attempt <= budget
    decreases budget - attempt
  {
    var reply := w.brain(used, context);
    var deltas := Deltas(reply.deltas);
    match reply.end
    case Decides(d) => Effect(deltas, used + 1, Answer(d))
    case Raises(r) =>
      if !IsHttp(r.exc) then Effect(deltas, used + 1, Escaped(r))
      else if Classify(r.exc) && attempt < budget then
        var rest := CallBrain(w, budget, context, attempt + 1, used + 1);
        rest.(events := deltas + [BrainError(r)] + rest.events)
      else Effect(deltas + [BrainError(r)], used + 1, GaveUp)
  }

  /** What one attempt appends: its deltas, then the transport error if it ended in one. */
  function AttemptEvents(reply: BrainReply): seq<Event> {
    Deltas(reply.deltas)
    + if reply.end.Raises? && IsHttp(reply.end.raised.exc) then [BrainError(reply.end.raised)] else []
  }

  // ----- _run_tool -----

  function ToolError(tool: string, rawRequest: Bytes, r: Raised): Event {
    Error(tool, Classify(r.exc), Repr(r.repr), rawRequest, None, Some(r.trace))
  }

  /** True, False, or an exception that leaves `_run_tool`. */
  datatype ToolEnd = Ran | Failed | Broke(raised: Raised)

  function Attempts(w: World, budget: nat, call: CallEvent, attempt: nat, used: nat): Effect<ToolEnd>
    requires attempt <= budget
    decreases budget - attempt
  {
    match w.tool(used, call.tool, call.rawRequest)
    case Returns(response) => Effect([ToolResult(call.tool, call.rawRequest, response, call.toolUseId)], used + 1, Ran)
    case Fails(r) =>
      var error := ToolError(call.tool, call.rawRequest, r);
      if Classify(r.exc) && attempt < budget then
        var rest := Attempts(w, budget, call, attempt + 1, used + 1);
        rest.(events := [error] + rest.events)
      else Effect([error], used + 1, Failed)
  }

  function RefusedCall(d: Decision, error: ErrorText, detail: string): Event
    requires d.ToolCallDecision?
  {
    Error(d.tool, false, error, d.args, None, Some(detail))
  }

  function RunTool(w: World, budget: nat, d: Decision, used: nat): Effect<ToolEnd>
    requires d.ToolCallDecision?
  {
    match w.validate(d.tool, d.args)
    case UnknownTool(detail) => Effect([RefusedCall(d, NoSuchTool(d.tool), detail)], used, Failed)
    case InvalidArgs(detail) => Effect([RefusedCall(d, BadArgs, detail)], used, Failed)
    case Breaks(raised) => Effect([], used, Broke(raised))
    case Valid(raw) =>
      var call := ToolCall(d.tool, raw, d.toolUseId, d.thinking);
      var rest := Attempts(w, budget, call, 0, used);
      rest.(events := [call] + rest.events)
  }

  // ----- _drive -----

  /** The oracle attempts a hunt has used up. */
  datatype Used = Used(brains: nat, tools: nat, ids: nat)

  datatype State =
    | Going(log: seq<Event>, used: Used)
    | Stopped(log: seq<Event>, used: Used, outcome: Outcome, reason: Option<AbortReason>)
    | Threw(log: seq<Event>, used: Used, raised: Raised)

  function UsageOf(d: Decision): seq<Event> { if d.usage.Some? then [d.usage.value] else [] }

  function CaptureEvents(w: World, territory: string, postings: seq<string>, ids: nat): seq<Event> {
    seq(|postings|, i requires 0 <= i < |postings| => PreyCaptured(w.uuid(ids + i), territory, postings[i]))
  }

  function Iterate(w: World, caps: Caps, territory: string, s: State): State
    requires s.Going?
  {
    if FoldCost(s.log) >= caps.ceiling then Stopped(s.log, s.used, Aborted, Some(CostCeiling))
    else
      var asked := CallBrain(w, caps.retryBudget, s.log, 0, s.used.brains);
      var used := s.used.(brains := asked.attempts);
      var log := s.log + asked.events;
      match asked.result
      case GaveUp => Stopped(log, used, Aborted, Some(BrainCallFailed))
      case Escaped(r) => Threw(log, used, r)
      case Answer(d) => ActOn(w, caps, territory, log + UsageOf(d), used, d)
  }

  function ActOn(w: World, caps: Caps, territory: string, log: seq<Event>, used: Used, d: Decision): State {
    match d
    case ToolCallDecision(_, _, _, _, _) =>
      var ran := RunTool(w, caps.retryBudget, d, used.tools);
      var after := used.(tools := ran.attempts);
      (match ran.result
       case Ran => Going(log + ran.events, after)
       case Failed => Stopped(log + ran.events, after, Aborted, Some(ToolFailure))
       case Broke(raised) => Threw(log + ran.events, after, raised))
    case HuntComplete(caught, _) =>
      Stopped(log + CaptureEvents(w, territory, caught, used.ids), used.(ids := used.ids + |caught|), Completed, None)
    case NeedsHelp(_) => Stopped(log, used, Outcome.NeedsHelp, None)
  }

  /** Where the hunt stands after `n` turns of the loop. */
  function AfterTurns(w: World, caps: Caps, territory: string, n: nat): State {
    if n == 0 then Going([], Used(0, 0, 0))
    else
      var s := AfterTurns(w, caps, territory, n - 1);
      if s.Going? then Iterate(w, caps, territory, s) else s
  }

  function Turns(caps: Caps): nat { if caps.maxIterations < 0 then 0 else caps.maxIterations }

  /** `_drive`: it stops with an outcome, or an exception leaves it. */
  function Drive(w: World, caps: Caps, territory: string): (s: State)
    ensures !s.Going?
  {
    var s := AfterTurns(w, caps, territory, Turns(caps));
    if s.Going? then Stopped(s.log, s.used, Aborted, Some(MaxIterations)) else s
  }

  lemma {:induction false} SettledStays(w: World, caps: Caps, territory: string, n: nat, m: nat)
    requires n <= m && !AfterTurns(w, caps, territory, n).Going?
    ensures AfterTurns(w, caps, territory, m) == AfterTurns(w, caps, territory, n)
  {
    if n == m {
    } else {
      SettledStays(w, caps, territory, n, m - 1);
    }
  }

  /** The error event the backstop records. */
  function Backstop(raised: Raised): Event {
    if raised.exc.BrainParseError?
    then Error(BRAIN, false, BadResponse, "", Some(raised.exc.raw), Some(raised.exc.detail))
    else Error(LOOP, false, Repr(raised.repr), "", None, Some(raised.trace))
  }

  /** `run_hunt`'s backstop: whatever left `_drive` becomes one error event and a typed outcome. */
  function Hunt(w: World, caps: Caps, territory: string): (s: State)
    ensures s.Stopped?
  {
    var s := Drive(w, caps, territory);
    if s.Threw? then
      Stopped(s.log + [Backstop(s.raised)], s.used, Aborted,
              Some(if s.raised.exc.BrainParseError? then MalformedResponse else UnhandledException))
    else s
  }

  // ----- the log is a word of the grammar -----

  lemma {:induction false} DeltasParse(caps: Caps, w: Word, texts: seq<string>)
    requires w.phase.Asking? && w.rounds < caps.maxIterations && w.spent < caps.ceiling
    ensures ParseFrom(caps, w, Deltas(texts)) == Some(w)
  {
    if |texts| == 0 {
    } else {
      DeltasParse(caps, w, texts[..|texts| - 1]);
      assert Deltas(texts)[..|texts| - 1] == Deltas(texts[..|texts| - 1]);
    }
  }

  /** The error a brain call that gave up leaves. */
  predicate GaveUpWith(e: Event) { e.Error? && e.tool == BRAIN && e.error.Repr? }

  /** How far a brain call's events take the word it started in. */
  ghost predicate BrainParses(caps: Caps, at: Word, asked: Effect<Asked>, attempt: nat) {
    var after := ParseFrom(caps, at, asked.events);
    && after.Some?
    && if asked.result.GaveUp? then exists e :: GaveUpWith(e) && after.value == at.(phase := Ended(e, false))
       else exists k :: attempt <= k <= caps.retryBudget && after.value == at.(phase := Asking(k))
  }

  lemma {:induction false} AttemptParses(caps: Caps, at: Word, reply: BrainReply, attempt: nat)
    requires attempt <= caps.retryBudget && at.phase == Asking(attempt)
    requires at.rounds < caps.maxIterations && at.spent < caps.ceiling
    ensures ParseFrom(caps, at, Deltas(reply.deltas)) == Some(at)
    ensures reply.end.Raises? && IsHttp(reply.end.raised.exc) ==>
      var e := BrainError(reply.end.raised);
      ParseFrom(caps, at, Deltas(reply.deltas) + [e]) == Some(at.(phase :=
        if Classify(reply.end.raised.exc) && attempt < caps.retryBudget then Asking(attempt + 1) else Ended(e, false)))
  {
    DeltasParse(caps, at, reply.deltas);
  }

  lemma {:induction false} CallBrainParses(caps: Caps, at: Word, w: World, context: seq<Event>, attempt: nat, used: nat)
    requires attempt <= caps.retryBudget && at.phase == Asking(attempt)
    requires at.rounds < caps.maxIterations && at.spent < caps.ceiling
    ensures var asked := CallBrain(w, caps.retryBudget, context, attempt, used);
      && used < asked.attempts <= used + (caps.retryBudget + 1 - attempt)
      && BrainParses(caps, at, asked, attempt)
    decreases caps.retryBudget - attempt
  {
    var reply := w.brain(used, context);
    var asked := CallBrain(w, caps.retryBudget, context, attempt, used);
    AttemptParses(caps, at, reply, attempt);
    if reply.end.Raises? && IsHttp(reply.end.raised.exc) {
      var e := BrainError(reply.end.raised);
      if Classify(reply.end.raised.exc) && attempt < caps.retryBudget {
        var next := at.(phase := Asking(attempt + 1));
        CallBrainParses(caps, next, w, context, attempt + 1, used + 1);
        ParseConcat(caps, at, Deltas(reply.deltas) + [e],
                    CallBrain(w, caps.retryBudget, context, attempt + 1, used + 1).events);
      } else {
        assert GaveUpWith(e);
      }
    } else {
      assert ParseFrom(caps, at, asked.events).value == at.(phase := Asking(attempt));
    }
  }

  lemma {:induction false} ParseCons(caps: Caps, at: Word, e: Event, rest: seq<Event>)
    requires Read(caps, at, e).Some?
    ensures ParseFrom(caps, at, [e] + rest) == ParseFrom(caps, Read(caps, at, e).value, rest)
  {
    ParseConcat(caps, at, [e], rest);
  }

  /** How far the attempts at an open call take the word they started in. */
  ghost predicate AttemptsTake(caps: Caps, at: Word, ran: Effect<ToolEnd>) {
    && |ran.events| > 0 && !ran.result.Broke?
    && ParseFrom(caps, at, ran.events) ==
         Some(if ran.result.Ran? then Word(at.rounds + 1, at.spent, Asking(0))
              else at.(phase := Ended(ran.events[|ran.events| - 1], true)))
  }

  lemma {:induction false} RetryTakes(caps: Caps, at: Word, next: Word, e: Event, rest: Effect<ToolEnd>)
    requires Read(caps, at, e) == Some(next) && next.rounds == at.rounds && next.spent == at.spent
    requires AttemptsTake(caps, next, rest)
    ensures AttemptsTake(caps, at, rest.(events := [e] + rest.events))
  {
    ParseCons(caps, at, e, rest.events);
  }

  lemma {:induction false} AttemptsParse(caps: Caps, at: Word, w: World, call: CallEvent, attempt: nat, used: nat)
    requires attempt <= caps.retryBudget && at.phase == Dispatched(call, attempt)
    ensures var ran := Attempts(w, caps.retryBudget, call, attempt, used);
      && used < ran.attempts <= used + (caps.retryBudget + 1 - attempt)
      && AttemptsTake(caps, at, ran)
    decreases caps.retryBudget - attempt
  {
    match w.tool(used, call.tool, call.rawRequest)
    case Returns(response) =>
    case Fails(raised) =>
      var e := ToolError(call.tool, call.rawRequest, raised);
      if Classify(raised.exc) && attempt < caps.retryBudget {
        var next := at.(phase := Dispatched(call, attempt + 1));
        AttemptsParse(caps, next, w, call, attempt + 1, used + 1);
        RetryTakes(caps, at, next, e, Attempts(w, caps.retryBudget, call, attempt + 1, used + 1));
      }
  }

  /** A phase in which a decision may be acted on. */
  predicate CanAct(caps: Caps, at: Word) {
    at.phase.Decided? || (at.phase.Asking? && at.rounds < caps.maxIterations && at.spent < caps.ceiling)
  }

  /** The error of a call refused before it was dispatched. */
  predicate RefusedWith(e: Event) { e.Error? && (e.error.NoSuchTool? || e.error.BadArgs?) }

  lemma {:induction false} RunToolParses(caps: Caps, at: Word, w: World, d: Decision, used: nat)
    requires d.ToolCallDecision? && CanAct(caps, at)
    ensures var ran := RunTool(w, caps.retryBudget, d, used);
      && used <= ran.attempts <= used + caps.retryBudget + 1
      && if ran.result.Broke? then ran.events == []
         else
           && |ran.events| > 0
           && (!ran.events[0].ToolCall? ==> |ran.events| == 1 && RefusedWith(ran.events[0]))
           && ParseFrom(caps, at, ran.events) ==
             Some(if ran.result.Ran? then Word(at.rounds + 1, at.spent, Asking(0))
                  else at.(phase := Ended(ran.events[|ran.events| - 1], ran.events[0].ToolCall?)))
  {
    match w.validate(d.tool, d.args)
    case Valid(raw) => CallParses(caps, at, w, ToolCall(d.tool, raw, d.toolUseId, d.thinking), used);
    case Breaks(_) =>
    case UnknownTool(detail) =>
    case InvalidArgs(detail) =>
  }

  lemma {:induction false} CallParses(caps: Caps, at: Word, w: World, call: CallEvent, used: nat)
    requires CanAct(caps, at)
    ensures var ran := Attempts(w, caps.retryBudget, call, 0, used);
      && used < ran.attempts <= used + caps.retryBudget + 1 && |ran.events| > 0 && !ran.result.Broke?
      && ParseFrom(caps, at, [call] + ran.events) ==
           Some(if ran.result.Ran? then Word(at.rounds + 1, at.spent, Asking(0))
                else at.(phase := Ended(ran.events[|ran.events| - 1], true)))
  {
    AttemptsParse(caps, at.(phase := Dispatched(call, 0)), w, call, 0, used);
    ParseCons(caps, at, call, Attempts(w, caps.retryBudget, call, 0, used).events);
  }

  lemma {:induction false} CapturesParse(caps: Caps, at: Word, w: World, territory: string, postings: seq<string>,
          ids: nat)
    requires CanAct(caps, at)
    ensures ParseFrom(caps, at, CaptureEvents(w, territory, postings, ids)) ==
      Some(if |postings| == 0 then at else at.(phase := Capturing))
  {
    if |postings| == 0 {
    } else {
      CapturesParse(caps, at, w, territory, postings[..|postings| - 1], ids);
      assert CaptureEvents(w, territory, postings, ids)[..|postings| - 1]
          == CaptureEvents(w, territory, postings[..|postings| - 1], ids);
    }
  }

  /** The reason the closing error gives away. */
  function Blame(error: Event, inCall: bool): AbortReason
    requires error.Error?
  {
    if inCall || RefusedWith(error) then ToolFailure
    else if error.error.BadResponse? then MalformedResponse
    else if error.tool == LOOP then UnhandledException
    else BrainCallFailed
  }

  /** How the last phase and the recorded reason go together. */
  predicate ReasonFits(caps: Caps, at: Word, outcome: Outcome, reason: Option<AbortReason>) {
    match reason
    case None =>
      (outcome.Completed? && (CanAct(caps, at) || at.phase.Capturing?)) || (outcome.NeedsHelp? && CanAct(caps, at))
    case Some(r) =>
      && outcome.Aborted?
      && match r
         case CostCeiling => at.phase == Asking(0) && at.spent >= caps.ceiling && at.rounds < caps.maxIterations
         case MaxIterations => at.phase == Asking(0) && at.rounds == Turns(caps)
         case DaemonShutdown => false
         case _ => at.phase.Ended? && at.phase.error.Error? && r == Blame(at.phase.error, at.phase.inCall)
  }

  /** What the log says of the state it was written by. */
  ghost predicate Written(caps: Caps, n: nat, s: State) {
    && Parse(caps, s.log).Some?
    && var at := Parse(caps, s.log).value;
    && at.spent == FoldCost(s.log)
    && s.used.brains <= Times(n, caps.retryBudget + 1) && s.used.tools <= Times(n, caps.retryBudget + 1)
    && match s
       case Going(_, _) => at.phase == Asking(0) && at.rounds == n
       case Stopped(_, _, outcome, reason) =>
         at.rounds < n && reason != Some(MaxIterations) && ReasonFits(caps, at, outcome, reason)
       case Threw(_, _, _) => at.rounds < n && CanAct(caps, at)
  }

  lemma {:induction false} ToolTurnWrites(w: World, caps: Caps, territory: string, log: seq<Event>, used: Used,
          d: Decision, n: nat)
    requires Parse(caps, log).Some? && Parse(caps, log).value.rounds == n && CanAct(caps, Parse(caps, log).value)
    requires used.brains <= Times(n + 1, caps.retryBudget + 1) && used.tools <= Times(n, caps.retryBudget + 1)
    requires d.ToolCallDecision?
    ensures Written(caps, n + 1, ActOn(w, caps, territory, log, used, d))
  {
    var at := Parse(caps, log).value;
    var ran := RunTool(w, caps.retryBudget, d, used.tools);
    RunToolParses(caps, at, w, d, used.tools);
    if ran.result.Broke? {
      assert log + [] == log;
      Accounting(caps, log);
    } else {
      ParseConcat(caps, START, log, ran.events);
      Accounting(caps, log + ran.events);
    }
  }

  lemma {:induction false} CatchTurnWrites(w: World, caps: Caps, territory: string, log: seq<Event>, used: Used,
          d: Decision, n: nat)
    requires Parse(caps, log).Some? && Parse(caps, log).value.rounds == n && CanAct(caps, Parse(caps, log).value)
    requires used.brains <= Times(n + 1, caps.retryBudget + 1) && used.tools <= Times(n, caps.retryBudget + 1)
    requires d.HuntComplete?
    ensures Written(caps, n + 1, ActOn(w, caps, territory, log, used, d))
  {
    var at := Parse(caps, log).value;
    var events := CaptureEvents(w, territory, d.caught, used.ids);
    CapturesParse(caps, at, w, territory, d.caught, used.ids);
    ParseConcat(caps, START, log, events);
    Accounting(caps, log + events);
  }

  lemma {:induction false} ActOnWrites(w: World, caps: Caps, territory: string, log: seq<Event>, used: Used,
          d: Decision, n: nat)
    requires Parse(caps, log).Some? && Parse(caps, log).value.rounds == n && CanAct(caps, Parse(caps, log).value)
    requires used.brains <= Times(n + 1, caps.retryBudget + 1) && used.tools <= Times(n, caps.retryBudget + 1)
    ensures Written(caps, n + 1, ActOn(w, caps, territory, log, used, d))
  {
    match d
    case ToolCallDecision(_, _, _, _, _) => ToolTurnWrites(w, caps, territory, log, used, d, n);
    case HuntComplete(_, _) => CatchTurnWrites(w, caps, territory, log, used, d, n);
    case NeedsHelp(_) =>
      Accounting(caps, log);
  }

  lemma {:induction false} UsageParses(caps: Caps, log: seq<Event>, d: Decision)
    requires Parse(caps, log).Some? && Parse(caps, log).value.phase.Asking? && CanAct(caps, Parse(caps, log).value)
    ensures Parse(caps, log + UsageOf(d)).Some?
    ensures Parse(caps, log + UsageOf(d)).value.rounds == Parse(caps, log).value.rounds
    ensures CanAct(caps, Parse(caps, log + UsageOf(d)).value)
  {
    if d.usage.Some? {
    } else {
      assert log + UsageOf(d) == log;
    }
  }

  /** The brain is asked from a log still going: what its events make of the log. */
  lemma {:induction false} AskedParses(w: World, caps: Caps, s: State, n: nat)
    requires s.Going? && Written(caps, n, s) && n < caps.maxIterations && FoldCost(s.log) < caps.ceiling
    ensures var asked := CallBrain(w, caps.retryBudget, s.log, 0, s.used.brains);
      && asked.attempts <= Times(n + 1, caps.retryBudget + 1)
      && Parse(caps, s.log + asked.events).Some?
      && var after := Parse(caps, s.log + asked.events).value;
      && after.rounds == n && after.spent == FoldCost(s.log + asked.events)
      && if asked.result.GaveUp? then after.phase.Ended? && !after.phase.inCall && GaveUpWith(after.phase.error)
         else after.phase.Asking? && CanAct(caps, after)
  {
    var at := Parse(caps, s.log).value;
    var asked := CallBrain(w, caps.retryBudget, s.log, 0, s.used.brains);
    CallBrainParses(caps, at, w, s.log, 0, s.used.brains);
    ParseConcat(caps, START, s.log, asked.events);
    Accounting(caps, s.log + asked.events);
  }

  lemma {:induction false} IterateWrites(w: World, caps: Caps, territory: string, s: State, n: nat)
    requires s.Going? && Written(caps, n, s) && n < caps.maxIterations
    ensures Written(caps, n + 1, Iterate(w, caps, territory, s))
  {
    if FoldCost(s.log) < caps.ceiling {
      var asked := CallBrain(w, caps.retryBudget, s.log, 0, s.used.brains);
      AskedParses(w, caps, s, n);
      if asked.result.Answer? {
        var d := asked.result.decision;
        UsageParses(caps, s.log + asked.events, d);
        ActOnWrites(w, caps, territory, s.log + asked.events + UsageOf(d), s.used.(brains := asked.attempts), d, n);
      }
    }
  }

  lemma {:induction false} NextTurnWrites(w: World, caps: Caps, territory: string, s: State, n: nat)
    requires Written(caps, n, s) && n < Turns(caps)
    ensures Written(caps, n + 1, if s.Going? then Iterate(w, caps, territory, s) else s)
  {
    if s.Going? {
      IterateWrites(w, caps, territory, s, n);
    }
  }

  lemma {:induction false} AfterTurnsWrites(w: World, caps: Caps, territory: string, n: nat)
    requires n <= Turns(caps)
    ensures Written(caps, n, AfterTurns(w, caps, territory, n))
  {
    if n == 0 {
      assert Parse(caps, []) == Some(START);
    } else {
      AfterTurnsWrites(w, caps, territory, n - 1);
      NextTurnWrites(w, caps, territory, AfterTurns(w, caps, territory, n - 1), n - 1);
    }
  }

  /** The backstop's error ends the word a drive that threw had got to. */
  lemma {:induction false} BackstopEnds(caps: Caps, log: seq<Event>, e: Event)
    requires Parse(caps, log).Some? && CanAct(caps, Parse(caps, log).value) && e.Error? && !e.retryable
    ensures Parse(caps, log + [e]) == Some(Parse(caps, log).value.(phase := Ended(e, false)))
    ensures Results(log + [e]) == Results(log)
  {
    assert (log + [e])[..|log|] == log;
  }

  /** The attempts of `n` iterations, each with its retries. */
  lemma {:induction false} AttemptsOf(caps: Caps, n: nat, used: Used)
    requires used.brains <= Times(n, caps.retryBudget + 1) && used.tools <= Times(n, caps.retryBudget + 1)
    ensures used.brains <= n * (caps.retryBudget + 1) && used.tools <= n * (caps.retryBudget + 1)
  {
    TimesIsProduct(n, caps.retryBudget + 1);
  }

  /**
   Totality and grammar of a run, whatever the brain and the tools do: the log is a word of the
   grammar whose last phase fits the one outcome recorded; brain attempts and tool attempts are at
   most max_iterations * (retry_budget + 1); and the reason is "max iterations" exactly when that
   many tool rounds completed.
   */
  lemma {:induction false} HuntTheorem(w: World, caps: Caps, territory: string)
    ensures var s := Hunt(w, caps, territory);
      && Parse(caps, s.log).Some?
      && ReasonFits(caps, Parse(caps, s.log).value, s.outcome, s.reason)
      && (s.reason == Some(MaxIterations) <==> |Results(s.log)| == Turns(caps))
      && s.used.brains <= Turns(caps) * (caps.retryBudget + 1)
      && s.used.tools <= Turns(caps) * (caps.retryBudget + 1)
  {
    AfterTurnsWrites(w, caps, territory, Turns(caps));
    var s := Drive(w, caps, territory);
    AttemptsOf(caps, Turns(caps), s.used);
    Accounting(caps, s.log);
    if s.Threw? {
      BackstopEnds(caps, s.log, Backstop(s.raised));
    }
  }

  /**
   Every context `_drive` hands a brain projects to a valid conversation, of 2n + 1 turns after n
   completed tool rounds: the context of the turn after `n` turns, on its first attempt and its retries.
   */
  lemma {:induction false} ContextsAreConversations(w: World, caps: Caps, territory: string, n: nat)
    requires n <= Turns(caps) && AfterTurns(w, caps, territory, n).Going?
    ensures var context := AfterTurns(w, caps, territory, n).log;
      && ValidConversation(territory, Project(territory, context).messages)
      && |Project(territory, context).messages| == 2 * n + 1
      && |Calls(context)| == |Results(context)| == n
      && Project(territory, context).messages == Rendered(territory, Calls(context), Results(context))
      && TellsAll(Project(territory, context).messages, Calls(context), Results(context))
  {
    AfterTurnsWrites(w, caps, territory, n);
    ProjectsToConversation(caps, territory, AfterTurns(w, caps, territory, n).log);
  }

  /** Attempts `used` up to `used + k` of this call all failed in a way the loop retries. */
  predicate Retried(w: World, context: seq<Event>, used: nat, k: nat) {
    forall j: nat | used <= j < used + k ::
      var end := w.brain(j, context).end; end.Raises? && IsHttp(end.raised.exc) && Classify(end.raised.exc)
  }

  /** What those attempts appended. */
  function Prior(w: World, context: seq<Event>, used: nat, k: nat): seq<Event> {
    if k == 0 then [] else Prior(w, context, used, k - 1) + AttemptEvents(w.brain(used + k - 1, context))
  }

  lemma {:induction false} ProjectSnoc(territory: string, log: seq<Event>, e: Event)
    ensures Project(territory, log + [e]) == ProjectStep(Project(territory, log), e)
  {
    assert (log + [e])[..|log|] == log;
  }

  lemma {:induction false} DeltasProjectToNothing(territory: string, log: seq<Event>, texts: seq<string>)
    ensures Project(territory, log + Deltas(texts)) == Project(territory, log)
  {
    if |texts| == 0 {
      assert log + Deltas(texts) == log;
    } else {
      var init, e := texts[..|texts| - 1], ThinkingDelta(texts[|texts| - 1]);
      DeltasProjectToNothing(territory, log, init);
      assert log + Deltas(texts) == log + Deltas(init) + [e];
      ProjectSnoc(territory, log + Deltas(init), e);
    }
  }

  lemma {:induction false} FailedAttemptProjectsToNothing(territory: string, log: seq<Event>, reply: BrainReply)
    requires reply.end.Raises? && IsHttp(reply.end.raised.exc) && Classify(reply.end.raised.exc)
    ensures Project(territory, log + AttemptEvents(reply)) == Project(territory, log)
  {
    var deltas, e := Deltas(reply.deltas), BrainError(reply.end.raised);
    DeltasProjectToNothing(territory, log, reply.deltas);
    assert log + AttemptEvents(reply) == log + deltas + [e];
    ProjectSnoc(territory, log + deltas, e);
  }

  /**
   Retries see no stale conversation: a retry asks with the snapshot taken before the first attempt,
   and the log as it then stands, with the failed attempts' deltas and errors, projects to the same.
   */
  lemma {:induction false} RetriesSeeNoStaleConversation(w: World, territory: string, context: seq<Event>, used: nat,
          k: nat)
    requires Retried(w, context, used, k)
    ensures Project(territory, context + Prior(w, context, used, k)) == Project(territory, context)
  {
    if k == 0 {
      assert context + Prior(w, context, used, 0) == context;
    } else {
      RetriesSeeNoStaleConversation(w, territory, context, used, k - 1);
      var reply := w.brain(used + k - 1, context);
      assert reply.end.Raises? && IsHttp(reply.end.raised.exc) && Classify(reply.end.raised.exc);
      FailedAttemptProjectsToNothing(territory, context + Prior(w, context, used, k - 1), reply);
      ConcatAssoc(context, Prior(w, context, used, k - 1), AttemptEvents(reply));
    }
  }

  /** All the call appends is what the first `k` attempts appended, then the rest. */
  predicate SplitsAt(w: World, budget: nat, context: seq<Event>, used: nat, k: nat, whole: seq<Event>) {
    k <= budget && whole == Prior(w, context, used, k) + CallBrain(w, budget, context, k, used + k).events
  }

  lemma {:induction false} SplitGrows(w: World, budget: nat, context: seq<Event>, used: nat, k: nat, whole: seq<Event>)
    requires k < budget && Retried(w, context, used, k + 1) && SplitsAt(w, budget, context, used, k, whole)
    ensures SplitsAt(w, budget, context, used, k + 1, whole)
  {
    assert w.brain(used + k, context).end.Raises?;
    ConcatAssoc(Prior(w, context, used, k), AttemptEvents(w.brain(used + k, context)),
                CallBrain(w, budget, context, k + 1, used + k + 1).events);
  }

  lemma {:induction false} SplitFrom(w: World, budget: nat, context: seq<Event>, used: nat, k: nat, whole: seq<Event>)
    requires k <= budget && Retried(w, context, used, k) && SplitsAt(w, budget, context, used, 0, whole)
    ensures SplitsAt(w, budget, context, used, k, whole)
  {
    if k == 0 {
    } else {
      SplitFrom(w, budget, context, used, k - 1, whole);
      SplitGrows(w, budget, context, used, k - 1, whole);
    }
  }

  /** Those are the events `_call_brain` has appended when it makes attempt number `k`. */
  lemma {:induction false} PriorIsPrefix(w: World, budget: nat, context: seq<Event>, used: nat, k: nat)
    requires k <= budget && Retried(w, context, used, k)
    ensures CallBrain(w, budget, context, 0, used).events ==
      Prior(w, context, used, k) + CallBrain(w, budget, context, k, used + k).events
  {
    var whole := CallBrain(w, budget, context, 0, used).events;
    assert [] + whole == whole;
    SplitFrom(w, budget, context, used, k, whole);
  }

  /** In a finished hunt every dispatched call got one result, or ended the run within its retry budget. */
  lemma {:induction false} HuntCallsClose(w: World, caps: Caps, territory: string, i: nat)
    requires i < |Hunt(w, caps, territory).log| && Hunt(w, caps, territory).log[i].ToolCall?
    ensures var log := Hunt(w, caps, territory).log;
      ClosedByResult(log, i, caps.retryBudget) || EndsByErrors(log, i, caps.retryBudget)
  {
    HuntTheorem(w, caps, territory);
    CallsClose(caps, Hunt(w, caps, territory).log, i);
  }
}
