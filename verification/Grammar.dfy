/** The grammar of a run's log, as an automaton over its events: the reference a log is judged by. */
module Grammar {
  import opened Prelude
  import opened Events
  import opened Cost

  const BRAIN := "<brain>"
  const LOOP := "<loop>"

  /** A run's caps. A negative max_iterations allows no iteration at all. */
  datatype Caps = Caps(retryBudget: nat, maxIterations: int, ceiling: int)

  datatype Phase =
    | Asking(failures: nat)                    // the brain is being asked, after so many failed attempts
    | Decided                                  // its usage is recorded
    | Dispatched(call: CallEvent, failures: nat)   // a tool call is open, after so many failed attempts
    | Capturing                                // the catch is being penned
    | Ended(error: Event, inCall: bool)        // an error closed the run, a tool call still open or not

  /** How far a log has got: tool rounds completed, micro-dollars spent, and the phase. */
  datatype Word = Word(rounds: nat, spent: int, phase: Phase)

  const START := Word(0, 0, Asking(0))

  /** An event that acts on a decision. */
  function Act(w: Word, e: Event): Option<Word> {
    match e
    case ToolCall(_, _, _, _) => Some(w.(phase := Dispatched(e, 0)))
    case PreyCaptured(_, _, _) => Some(w.(phase := Capturing))
    case Error(_, retryable, _, _, _, _) => if retryable then None else Some(w.(phase := Ended(e, false)))
    case _ => None
  }

  function Read(caps: Caps, w: Word, e: Event): Option<Word> {
    match w.phase
    case Asking(k) =>
      if w.rounds >= caps.maxIterations || w.spent >= caps.ceiling then None
      else if e.ThinkingDelta? then Some(w)
      else if e.Usage? then Some(w.(spent := w.spent + CostOf(e), phase := Decided))
      else if e.Error? && e.retryable then
        if e.tool != BRAIN then None
        else if k < caps.retryBudget then Some(w.(phase := Asking(k + 1))) else Some(w.(phase := Ended(e, false)))
      else Act(w, e)
    case Decided => Act(w, e)
    case Dispatched(call, k) =>
      if e.Error? && e.tool == call.tool && e.rawRequest == call.rawRequest then
        if e.retryable && k < caps.retryBudget then Some(w.(phase := Dispatched(call, k + 1)))
        else Some(w.(phase := Ended(e, true)))
      else if e.ToolResult? && e.tool == call.tool && e.rawRequest == call.rawRequest
              && e.toolUseId == call.toolUseId
      then Some(Word(w.rounds + 1, w.spent, Asking(0)))
      else None
    case Capturing => if e.PreyCaptured? then Some(w) else None
    case Ended(_, _) => None
  }

  /** The word after reading `log` from `w`; None if the grammar rejects it. */
  function ParseFrom(caps: Caps, w: Word, log: seq<Event>): Option<Word> {
    if |log| == 0 then Some(w)
    else
      var before := ParseFrom(caps, w, log[..|log| - 1]);
      if before.None? then None else Read(caps, before.value, log[|log| - 1])
  }

  function Parse(caps: Caps, log: seq<Event>): Option<Word> { ParseFrom(caps, START, log) }

  lemma {:induction false} ParseConcat(caps: Caps, w: Word, a: seq<Event>, b: seq<Event>)
    requires ParseFrom(caps, w, a).Some?
    ensures ParseFrom(caps, w, a + b) == ParseFrom(caps, ParseFrom(caps, w, a).value, b)
  {
    if |b| == 0 {
      assert a + b == a;
    } else {
      ParseConcat(caps, w, a, b[..|b| - 1]);
      assert (a + b)[..|a + b| - 1] == a + b[..|b| - 1];
    }
  }

  lemma {:induction false} ParsePrefix(caps: Caps, log: seq<Event>, n: nat)
    requires Parse(caps, log).Some? && n <= |log|
    ensures Parse(caps, log[..n]).Some?
    decreases |log|
  {
    if n == |log| {
      assert log[..n] == log;
    } else {
      ParsePrefix(caps, log[..|log| - 1], n);
      assert log[..|log| - 1][..n] == log[..n];
    }
  }

  // ----- what every word of the grammar has -----

  function Calls(log: seq<Event>): seq<CallEvent> {
    if |log| == 0 then []
    else
      var rest, e := Calls(log[..|log| - 1]), log[|log| - 1];
      if e.ToolCall? then rest + [e] else rest
  }

  function Results(log: seq<Event>): seq<ResultEvent> {
    if |log| == 0 then []
    else
      var rest, e := Results(log[..|log| - 1]), log[|log| - 1];
      if e.ToolResult? then rest + [e] else rest
  }

  /** Result `r` answers call `c`. */
  predicate Answers(c: Event, r: Event) {
    c.ToolCall? && r.ToolResult? && r.tool == c.tool && r.rawRequest == c.rawRequest && r.toolUseId == c.toolUseId
  }

  /** Spend, rounds and calls are the log's own; failures and calls stay within the caps. */
  predicate Counted(caps: Caps, log: seq<Event>, w: Word) {
    && w.spent == FoldCost(log) && w.rounds == |Results(log)|
    && |Calls(log)| == w.rounds + (if w.phase.Dispatched? || (w.phase.Ended? && w.phase.inCall) then 1 else 0)
    && (w.phase.Ended? ==> |log| > 0 && w.phase.error == log[|log| - 1] && w.phase.error.Error?)
    && (w.phase.Dispatched? ==> w.phase.failures <= caps.retryBudget)
    && (w.phase.Asking? ==> w.phase.failures <= caps.retryBudget)
    && |Calls(log)| <= (if caps.maxIterations < 0 then 0 else caps.maxIterations)
    && (!w.phase.Asking? ==> w.rounds < caps.maxIterations)
  }

  lemma {:induction false} Counting(caps: Caps, log: seq<Event>)
    requires Parse(caps, log).Some?
    ensures Counted(caps, log, Parse(caps, log).value)
  {
    if |log| == 0 {
    } else {
      Counting(caps, log[..|log| - 1]);
    }
  }

  /**
   The rounds are the tool results, each answering its call; a call is left without a result only
   while it is open or if its error closed the run; and the spend is the fold of the usage events.
   */
  lemma {:induction false} Accounting(caps: Caps, log: seq<Event>)
    requires Parse(caps, log).Some?
    ensures var w := Parse(caps, log).value;
      && Counted(caps, log, w)
      && (forall n | 0 <= n < w.rounds :: Answers(Calls(log)[n], Results(log)[n]))
      && (w.phase.Dispatched? ==> w.phase.call == Calls(log)[w.rounds])
  {
    Counting(caps, log);
    if |log| == 0 {
    } else {
      Accounting(caps, log[..|log| - 1]);
      var rest := Parse(caps, log[..|log| - 1]).value;
      forall n | 0 <= n < Parse(caps, log).value.rounds ensures Answers(Calls(log)[n], Results(log)[n]) {
        if n < rest.rounds {
          assert Answers(Calls(log[..|log| - 1])[n], Results(log[..|log| - 1])[n]);
        }
      }
    }
  }

  /** Each paid call starts with the run's spend below its ceiling. */
  lemma {:induction false} SpendDiscipline(caps: Caps, log: seq<Event>, i: nat)
    requires Parse(caps, log).Some? && i < |log| && log[i].Usage?
    ensures FoldCost(log[..i]) < caps.ceiling
  {
    ParsePrefix(caps, log, i + 1);
    assert log[..i + 1][..i] == log[..i];
    Accounting(caps, log[..i]);
  }

  predicate FailsCall(e: Event, call: Event) {
    e.Error? && call.ToolCall? && e.tool == call.tool && e.rawRequest == call.rawRequest
  }

  /** After `i`: up to `budget` retryable errors of the call, then its result. */
  predicate ClosedByResult(log: seq<Event>, i: nat, budget: nat) {
    exists j | i < j < |log| ::
      && j - i - 1 <= budget && Answers(log[i], log[j])
      && forall m | i < m < j :: FailsCall(log[m], log[i]) && log[m].retryable
  }

  /** After `i`: nothing but at most `budget` + 1 errors of the call; all but the last are retryable. */
  predicate EndsByErrors(log: seq<Event>, i: nat, budget: nat) {
    && i < |log| - 1 <= i + budget + 1
    && (forall m | i < m < |log| :: FailsCall(log[m], log[i]))
    && (forall m | i < m < |log| - 1 :: log[m].retryable)
  }

  /** Open since `i`: nothing but `k` retryable errors of the call so far. */
  predicate OpenSince(log: seq<Event>, i: nat, k: nat) {
    && i == |log| - 1 - k
    && forall m | i < m < |log| :: FailsCall(log[m], log[i]) && log[m].retryable
  }

  lemma {:induction false} ClosedStays(log: seq<Event>, e: Event, i: nat, budget: nat)
    requires i < |log| && ClosedByResult(log, i, budget)
    ensures ClosedByResult(log + [e], i, budget)
  {
    var j :| i < j < |log| && j - i - 1 <= budget && Answers(log[i], log[j])
      && forall m | i < m < j :: FailsCall(log[m], log[i]) && log[m].retryable;
    assert Answers((log + [e])[i], (log + [e])[j]);
  }

  /** Every dispatched call is closed by one result, or ends the run after at most budget + 1 errors. */
  lemma {:induction false} CallsClose(caps: Caps, log: seq<Event>, i: nat)
    requires Parse(caps, log).Some? && i < |log| && log[i].ToolCall?
    ensures var w := Parse(caps, log).value;
      || ClosedByResult(log, i, caps.retryBudget)
      || (w.phase.Ended? && EndsByErrors(log, i, caps.retryBudget))
      || (w.phase.Dispatched? && w.phase.call == log[i] && w.phase.failures <= caps.retryBudget
          && OpenSince(log, i, w.phase.failures))
  {
    var n := |log| - 1;
    var init, e := log[..n], log[n];
    assert log == init + [e];
    if i == n {
    } else {
      CallsClose(caps, init, i);
      var w := Parse(caps, init).value;
      if ClosedByResult(init, i, caps.retryBudget) {
        ClosedStays(init, e, i, caps.retryBudget);
      } else if w.phase.Dispatched? && e.ToolResult? {
        assert Answers(log[i], log[n]);
        assert forall m | i < m < n :: log[m] == init[m];
      }
    }
  }
}
