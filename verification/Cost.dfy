/** Spend in micro-dollars: a price in dollars per million tokens is micro-dollars per token. */
module Cost {
  import opened Events

  /** Priced by its model: the sticker price, or the high fallback of a model the table does not list. */
  function CostOf(usage: Event): int
    requires usage.Usage?
  {
    if usage.model.ClaudeSonnet5? then 3 * usage.inputTokens + 15 * usage.outputTokens
    else 15 * usage.inputTokens + 75 * usage.outputTokens
  }

  /** What one event adds to a fold of the log: nothing unless it is a UsageEvent. */
  function Charge(e: Event): int { if e.Usage? then CostOf(e) else 0 }

  function FoldCost(log: seq<Event>): int {
    if |log| == 0 then 0 else FoldCost(log[..|log| - 1]) + Charge(log[|log| - 1])
  }

  /** The fold of the usage sub-log as the source writes it: one pass, other events ignored. */
  method FoldCostLoop(log: seq<Event>) returns (total: int)
    ensures total == FoldCost(log)
    ensures total == 3 * InputTokens(log, true) + 15 * OutputTokens(log, true)
                     + 15 * InputTokens(log, false) + 75 * OutputTokens(log, false)
  {
    FoldCostPrices(log);
    total := 0;
    for i := 0 to |log|
      invariant total == FoldCost(log[..i])
    {
      assert log[..i + 1][..i] == log[..i];
      if log[i].Usage? {
        total := total + CostOf(log[i]);
      }
    }
    assert log[..|log|] == log;
  }

  /** The input tokens of the log's calls to the listed model, or to all the others. */
  function InputTokens(log: seq<Event>, listed: bool): int {
    if |log| == 0 then 0
    else
      var rest, e := InputTokens(log[..|log| - 1], listed), log[|log| - 1];
      if e.Usage? && e.model.ClaudeSonnet5? == listed then rest + e.inputTokens else rest
  }

  function OutputTokens(log: seq<Event>, listed: bool): int {
    if |log| == 0 then 0
    else
      var rest, e := OutputTokens(log[..|log| - 1], listed), log[|log| - 1];
      if e.Usage? && e.model.ClaudeSonnet5? == listed then rest + e.outputTokens else rest
  }

  /** Every token of the log is paid for, at its model's price for its direction. */
  lemma {:induction false} FoldCostPrices(log: seq<Event>)
    ensures FoldCost(log) == 3 * InputTokens(log, true) + 15 * OutputTokens(log, true)
                             + 15 * InputTokens(log, false) + 75 * OutputTokens(log, false)
  {
    if |log| == 0 {
    } else {
      FoldCostPrices(log[..|log| - 1]);
    }
  }

  /** No call with a token is free, and a model the table does not list is never the cheaper one. */
  lemma {:induction false} UnlistedIsNeverCheaper(name: string, input: nat, output: nat)
    ensures 0 <= FoldCost([Usage(ClaudeSonnet5, input, output)]) <= FoldCost([Usage(OtherModel(name), input, output)])
    ensures input + output > 0 ==> 0 < FoldCost([Usage(ClaudeSonnet5, input, output)])
  {
    FoldCostSnoc([], Usage(ClaudeSonnet5, input, output));
    FoldCostSnoc([], Usage(OtherModel(name), input, output));
    assert [] + [Usage(ClaudeSonnet5, input, output)] == [Usage(ClaudeSonnet5, input, output)];
    assert [] + [Usage(OtherModel(name), input, output)] == [Usage(OtherModel(name), input, output)];
  }

  lemma {:induction false} FoldCostSnoc(log: seq<Event>, e: Event)
    ensures FoldCost(log + [e]) == FoldCost(log) + Charge(e)
  {
    assert (log + [e])[..|log|] == log;
  }

  lemma {:induction false} FoldCostConcat(a: seq<Event>, b: seq<Event>)
    ensures FoldCost(a + b) == FoldCost(a) + FoldCost(b)
  {
    if |b| == 0 {
      assert a + b == a;
    } else {
      var n := |b| - 1;
      FoldCostConcat(a, b[..n]);
      assert (a + b)[..|a + b| - 1] == a + b[..n];
    }
  }
}
