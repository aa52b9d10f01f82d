/** Folding a run's log into the provider's message array. */
module Conversation {
  import opened Prelude
  import opened Events
  import opened Grammar

  /** The opening user turn names the territory; its fixed wording is left out. */
  datatype Message =
    | Directive(territory: string)
    | Assistant(thinking: Option<Bytes>, id: string, name: string, input: Bytes)
    | ToolReturn(forId: string, content: Content, isError: bool)

  datatype Content = Response(body: Bytes) | Failure(error: ErrorText)

  /** The array so far, and the id of the tool_use awaiting its result. */
  datatype Projection = Projection(messages: seq<Message>, openId: string)

  function AssistantTurn(call: CallEvent): Message {
    Assistant(if call.thinking == "" then None else Some(call.thinking), call.toolUseId, call.tool, call.rawRequest)
  }

  function ResultTurn(result: ResultEvent): Message {
    ToolReturn(result.toolUseId, Response(result.rawResponse), false)
  }

  function ProjectStep(p: Projection, e: Event): Projection {
    match e
    case ToolCall(_, _, id, _) => Projection(p.messages + [AssistantTurn(e)], id)
    case ToolResult(_, _, _, _) => Projection(p.messages + [ResultTurn(e)], "")
    case Error(tool, retryable, error, _, _, _) =>
      if retryable || tool == BRAIN || tool == LOOP then p
      else Projection(p.messages + [ToolReturn(p.openId, Failure(error), true)], "")
    case _ => p
  }

  function Project(territory: string, log: seq<Event>): Projection {
    if |log| == 0 then Projection([Directive(territory)], "")
    else ProjectStep(Project(territory, log[..|log| - 1]), log[|log| - 1])
  }

  method ProjectMessages(territory: string, context: seq<Event>) returns (messages: seq<Message>)
    ensures messages == Project(territory, context).messages
  {
    messages := [Directive(territory)];
    var openId := "";
    for i := 0 to |context|
      invariant Projection(messages, openId) == Project(territory, context[..i])
    {
      assert context[..i + 1][..i] == context[..i];
      var event := context[i];
      if event.ToolCall? {
        var thinking := None;
        if event.thinking != "" {
          thinking := Some(event.thinking);
        }
        messages := messages + [Assistant(thinking, event.toolUseId, event.tool, event.rawRequest)];
        openId := event.toolUseId;
      } else if event.ToolResult? {
        messages := messages + [ToolReturn(event.toolUseId, Response(event.rawResponse), false)];
        openId := "";
      } else if event.Error? {
        if event.retryable || event.tool == BRAIN || event.tool == LOOP {
          continue;
        }
        messages := messages + [ToolReturn(openId, Failure(event.error), true)];
        openId := "";
      }
    }
    assert context[..|context|] == context;
  }

  /** A user turn at an even place; at an odd one a tool_use, answered at once by its own result. */
  predicate TurnOk(messages: seq<Message>, i: nat)
    requires i < |messages|
  {
    if i % 2 == 0 then !messages[i].Assistant?
    else
      && messages[i].Assistant? && i + 1 < |messages|
      && messages[i + 1].ToolReturn? && messages[i + 1].forId == messages[i].id && !messages[i + 1].isError
  }

  /**
   What the provider accepts: the directive first, user and assistant strictly alternating, a user
   turn last, and each tool_use followed at once by one result with its id that is not an error.
   */
  predicate ValidConversation(territory: string, messages: seq<Message>) {
    && |messages| % 2 == 1
    && messages[0] == Directive(territory)
    && forall i: nat | i < |messages| :: TurnOk(messages, i)
  }

  /** The directive, then each call's turn and its result's turn, verbatim. */
  function Rendered(territory: string, calls: seq<CallEvent>, results: seq<ResultEvent>): seq<Message>
    requires |calls| == |results|
  {
    if |calls| == 0 then [Directive(territory)]
    else
      var n := |calls| - 1;
      Rendered(territory, calls[..n], results[..n]) + [AssistantTurn(calls[n]), ResultTurn(results[n])]
  }

  lemma {:induction false} RenderedIsValid(territory: string, calls: seq<CallEvent>, results: seq<ResultEvent>)
    requires |calls| == |results| && forall n | 0 <= n < |calls| :: Answers(calls[n], results[n])
    ensures |Rendered(territory, calls, results)| == 2 * |calls| + 1
    ensures ValidConversation(territory, Rendered(territory, calls, results))
  {
    var all := Rendered(territory, calls, results);
    if |calls| > 0 {
      var n := |calls| - 1;
      var init := Rendered(territory, calls[..n], results[..n]);
      RenderedIsValid(territory, calls[..n], results[..n]);
      assert Answers(calls[n], results[n]);
      forall i: nat | i < |all| ensures TurnOk(all, i) {
        if i < |init| {
          assert TurnOk(init, i);
        }
      }
    } else {
      assert TurnOk(all, 0);
    }
  }

  /** An assistant turn that makes this call, led by the call's thinking if it has any. */
  predicate Makes(m: Message, call: CallEvent) {
    && m.Assistant? && m.id == call.toolUseId && m.name == call.tool && m.input == call.rawRequest
    && m.thinking == (if |call.thinking| > 0 then Some(call.thinking) else None)
  }

  /** A user turn that hands back what the tool answered. */
  predicate HandsBack(m: Message, result: ResultEvent) {
    m.ToolReturn? && m.forId == result.toolUseId && m.content == Response(result.rawResponse) && !m.isError
  }

  /** After the directive, the calls and what each tool answered, in turn. */
  predicate TellsAll(messages: seq<Message>, calls: seq<CallEvent>, results: seq<ResultEvent>) {
    && |calls| == |results| && |messages| == 2 * |calls| + 1
    && forall n: nat | n < |calls| :: Makes(messages[2 * n + 1], calls[n]) && HandsBack(messages[2 * n + 2], results[n])
  }

  lemma {:induction false} RenderedTellsAll(territory: string, calls: seq<CallEvent>, results: seq<ResultEvent>)
    requires |calls| == |results|
    ensures TellsAll(Rendered(territory, calls, results), calls, results)
  {
    if |calls| == 0 {
    } else {
      var last := |calls| - 1;
      var init, all := Rendered(territory, calls[..last], results[..last]), Rendered(territory, calls, results);
      RenderedTellsAll(territory, calls[..last], results[..last]);
      forall n: nat | n < |calls| ensures Makes(all[2 * n + 1], calls[n]) && HandsBack(all[2 * n + 2], results[n]) {
        if n < last {
          assert Makes(init[2 * n + 1], calls[..last][n]) && HandsBack(init[2 * n + 2], results[..last][n]);
        }
      }
    }
  }

  /** The projection while no error has closed the run: complete rounds, then perhaps one open call. */
  predicate Talks(territory: string, calls: seq<CallEvent>, results: seq<ResultEvent>, w: Word, p: Projection) {
    && w.rounds == |results| <= |calls|
    && (if w.phase.Dispatched?
        then && |calls| == w.rounds + 1 && w.phase.call == calls[w.rounds]
             && p == Projection(Rendered(territory, calls[..w.rounds], results) + [AssistantTurn(w.phase.call)],
                                w.phase.call.toolUseId)
        else |calls| == w.rounds && p.messages == Rendered(territory, calls, results))
  }

  lemma {:induction false} TalkCall(territory: string, calls: seq<CallEvent>, results: seq<ResultEvent>, w: Word,
          p: Projection, e: CallEvent)
    requires Talks(territory, calls, results, w, p) && !w.phase.Dispatched?
    ensures Talks(territory, calls + [e], results, w.(phase := Dispatched(e, 0)), ProjectStep(p, e))
  {
    assert (calls + [e])[..w.rounds] == calls;
  }

  lemma {:induction false} TalkResult(territory: string, calls: seq<CallEvent>, results: seq<ResultEvent>, w: Word,
          p: Projection, e: ResultEvent)
    requires Talks(territory, calls, results, w, p) && w.phase.Dispatched?
    ensures Talks(territory, calls, results + [e], Word(w.rounds + 1, w.spent, Asking(0)), ProjectStep(p, e))
  {
    var n := w.rounds;
    var before := Rendered(territory, calls[..n], results);
    assert (results + [e])[..n] == results;
    assert Rendered(territory, calls, results + [e]) == before + [AssistantTurn(calls[n]), ResultTurn(e)];
    assert before + [AssistantTurn(calls[n])] + [ResultTurn(e)] == before + [AssistantTurn(calls[n]), ResultTurn(e)];
  }

  lemma {:induction false} ProjectionTalks(caps: Caps, territory: string, log: seq<Event>)
    requires Parse(caps, log).Some? && !Parse(caps, log).value.phase.Ended?
    ensures Talks(territory, Calls(log), Results(log), Parse(caps, log).value, Project(territory, log))
  {
    if |log| == 0 {
    } else {
      var init, e := log[..|log| - 1], log[|log| - 1];
      var w, calls, results := Parse(caps, init).value, Calls(init), Results(init);
      var p := Project(territory, init);
      ProjectionTalks(caps, territory, init);
      if e.ToolCall? {
        TalkCall(territory, calls, results, w, p, e);
      } else if e.ToolResult? {
        TalkResult(territory, calls, results, w, p, e);
      }
    }
  }

  /**
   While no error has closed the run and no call is open, the log projects to a valid conversation:
   2n + 1 turns after n completed tool rounds, the log's own calls and results in order.
   */
  lemma {:induction false} ProjectsToConversation(caps: Caps, territory: string, log: seq<Event>)
    requires Parse(caps, log).Some?
    requires var phase := Parse(caps, log).value.phase; !phase.Ended? && !phase.Dispatched?
    ensures var messages := Project(territory, log).messages;
      && ValidConversation(territory, messages)
      && |messages| == 2 * Parse(caps, log).value.rounds + 1
      && |Calls(log)| == |Results(log)| == Parse(caps, log).value.rounds
      && messages == Rendered(territory, Calls(log), Results(log))
      && TellsAll(messages, Calls(log), Results(log))
  {
    ProjectionTalks(caps, territory, log);
    Accounting(caps, log);
    RenderedIsValid(territory, Calls(log), Results(log));
    RenderedTellsAll(territory, Calls(log), Results(log));
  }

  /** Retryable errors, the brain's and the loop's errors, and whatever is not tool traffic, add no turn. */
  lemma {:induction false} OthersAddNoTurn(territory: string, log: seq<Event>, e: Event)
    requires !e.ToolCall? && !e.ToolResult?
    requires e.Error? ==> e.retryable || e.tool == BRAIN || e.tool == LOOP
    ensures Project(territory, log + [e]) == Project(territory, log)
  {
    assert (log + [e])[..|log|] == log;
  }

  /** A fatal tool error answers the open call: an error result under the id of the turn just before it. */
  lemma {:induction false} FatalErrorAnswers(caps: Caps, territory: string, log: seq<Event>, e: Event)
    requires Parse(caps, log).Some? && Parse(caps, log).value.phase.Dispatched?
    requires e.Error? && !e.retryable && e.tool != BRAIN && e.tool != LOOP
    ensures var call, messages := Parse(caps, log).value.phase.call, Project(territory, log).messages;
      && |messages| > 0 && Makes(messages[|messages| - 1], call)
      && Project(territory, log + [e]).messages == messages + [ToolReturn(call.toolUseId, Failure(e.error), true)]
  {
    ProjectionTalks(caps, territory, log);
    assert (log + [e])[..|log|] == log;
  }
}
