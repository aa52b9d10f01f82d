/** The typed events of the two logs: the per-run trajectory log and the verdict log. */
module Events {
  import opened Prelude

  /** Raw bytes are taken as the text they encode. */
  type Bytes = string

  /** uuid4 identifiers; only their freshness and equality matter. */
  type Id = nat

  /** The one model the price table lists, or any other name. */
  datatype Model = ClaudeSonnet5 | OtherModel(name: string)

  /** ErrorEvent.error: an exception's repr, or one of the loop's own fixed wordings. */
  datatype ErrorText = Repr(text: string) | NoSuchTool(name: string) | BadArgs | BadResponse

  datatype Event =
    | Sniff(prey: string)
    | ToolCall(tool: string, rawRequest: Bytes, toolUseId: string, thinking: Bytes)
    | ToolResult(tool: string, rawRequest: Bytes, rawResponse: Bytes, toolUseId: string)
    | PreyCaptured(preyId: Id, territory: string, rawPosting: Bytes)
    | Error(tool: string, retryable: bool, error: ErrorText, rawRequest: Bytes,
            response: Option<Bytes>, detail: Option<string>)
    | ThinkingDelta(text: string)
    | Usage(model: Model, inputTokens: int, outputTokens: int)

  datatype Verdict = Feast | Release | Amber | Reenter

  datatype VerdictEvent =
    VerdictEvent(preyId: Id, verdict: Verdict, reason: Option<string>, provenance: Option<string>)

  /** The brain's per-call token accounting. */
  type UsageEvent = e: Event | e.Usage? witness Usage(ClaudeSonnet5, 0, 0)

  /** A dispatched tool call. */
  type CallEvent = e: Event | e.ToolCall? witness ToolCall("", "", "", "")

  type ResultEvent = e: Event | e.ToolResult? witness ToolResult("", "", "", "")
}
