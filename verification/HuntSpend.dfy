/**
 What one hunt can record under its caps: never more than `PerRun`, whatever its brain and its tools do,
 and with some brain and tools exactly that.
 */
module HuntSpend {
  import opened Prelude
  import opened Events
  import opened Cost
  import opened Grammar
  import opened Loop

  /** Every hunt runs under `caps`; `callCost` bounds what one brain call can cost; all in micro-dollars. */
  datatype Limits = Limits(maxConcurrent: nat, daemonCeiling: int, caps: Caps, callCost: nat)

  /** No call on record costs less than nothing or more than the limit. */
  predicate Affordable(callCost: nat, log: seq<Event>) {
    forall i | 0 <= i < |log| && log[i].Usage? :: 0 <= CostOf(log[i]) <= callCost
  }

  /** The first `n` events this hunt writes. */
  predicate SoFar(w: World, caps: Caps, territory: string, n: nat, log: seq<Event>) {
    n <= |Hunt(w, caps, territory).log| && log == Hunt(w, caps, territory).log[..n]
  }

  /** Some brain and some tools make a hunt that writes these events first. */
  ghost predicate Hunted(caps: Caps, log: seq<Event>) {
    exists w: World, territory, n :: SoFar(w, caps, territory, n, log)
  }

  /** Every price is a multiple of 3, so spend is too: the most of it that fits in x. */
  function Whole(x: int): nat { if x < 3 then 0 else 3 + Whole(x - 3) }

  function Least(x: nat, y: nat): nat { if x < y then x else y }

  /**
   The most a single run can record. Its last call starts just below its ceiling, and after at most
   one call in each iteration but the last.
   */
  function PerRun(l: Limits): nat {
    if l.caps.maxIterations >= 1 && l.caps.ceiling > 0
    then Least(Whole(l.caps.ceiling - 1), Times(l.caps.maxIterations - 1, Whole(l.callCost))) + Whole(l.callCost)
    else 0
  }

  lemma {:induction false} TimesGrows(m: nat, n: nat, x: nat, y: nat)
    requires m <= n && x <= y
    ensures Times(m, x) <= Times(n, y)
  {
    if n == 0 {
    } else {
      TimesGrows(if m > 0 then m - 1 else 0, n - 1, x, y);
    }
  }

  lemma {:induction false} CostIsWhole(usage: Event) returns (q: int)
    requires usage.Usage?
    ensures CostOf(usage) == 3 * q
  {
    if usage.model.ClaudeSonnet5? {
      q := usage.inputTokens + 5 * usage.outputTokens;
    } else {
      q := 5 * usage.inputTokens + 25 * usage.outputTokens;
    }
  }

  lemma {:induction false} SpendIsWhole(log: seq<Event>) returns (q: int)
    ensures FoldCost(log) == 3 * q
  {
    if |log| == 0 {
      q := 0;
    } else {
      q := SpendIsWhole(log[..|log| - 1]);
      if log[|log| - 1].Usage? {
        var c := CostIsWhole(log[|log| - 1]);
        q := q + c;
      }
    }
  }

  /** Whole(x) is the most that fits: a multiple of 3, at most x, and no larger one is. */
  lemma {:induction false} WholeThirds(x: int) returns (q: nat)
    ensures Whole(x) == 3 * q && (x >= 0 ==> x - 3 < Whole(x) <= x)
  {
    if x < 3 {
      q := 0;
    } else {
      q := WholeThirds(x - 3);
      q := q + 1;
    }
  }

  lemma {:induction false} WholeIsMost(q: int, limit: int)
    requires 3 * q <= limit
    ensures 3 * q <= Whole(limit)
  {
    if limit < 0 {
    } else {
      var p := WholeThirds(limit);
      assert q < p + 1;
    }
  }

  /** The calls a word may have paid for: one in each round, and one in the round under way. */
  function Paid(at: Word): nat { at.rounds + if at.phase.Asking? then 0 else 1 }

  predicate Within(l: Limits, at: Word) { 0 <= at.spent <= PerRun(l) && at.spent <= Times(Paid(at), Whole(l.callCost)) }

  lemma {:induction false} ReadStaysWithin(l: Limits, at: Word, e: Event, spent: int)
    requires Within(l, at) && Read(l.caps, at, e).Some? && at.spent == 3 * spent
    requires e.Usage? ==> 0 <= CostOf(e) <= l.callCost
    ensures Within(l, Read(l.caps, at, e).value)
  {
    var call := Whole(l.callCost);
    TimesGrows(at.rounds, at.rounds + 1, call, call);
    if e.Usage? && at.phase.Asking? {
      var cost := CostIsWhole(e);
      WholeIsMost(spent, l.caps.ceiling - 1);
      WholeIsMost(cost, l.callCost);
      TimesGrows(at.rounds, l.caps.maxIterations - 1, call, call);
    }
  }

  /** A word of the hunts' grammar spends no more than a run can. */
  lemma {:induction false} WordFits(l: Limits, log: seq<Event>)
    requires Parse(l.caps, log).Some? && Affordable(l.callCost, log)
    ensures Within(l, Parse(l.caps, log).value)
  {
    if |log| == 0 {
    } else {
      var init, e := log[..|log| - 1], log[|log| - 1];
      WordFits(l, init);
      Counting(l.caps, init);
      var spent := SpendIsWhole(init);
      ReadStaysWithin(l, Parse(l.caps, init).value, e, spent);
    }
  }

  lemma {:induction false} HuntedParses(caps: Caps, log: seq<Event>)
    requires Hunted(caps, log)
    ensures Parse(caps, log).Some?
  {
    var w: World, territory, n :| SoFar(w, caps, territory, n, log);
    HuntTheorem(w, caps, territory);
    ParsePrefix(caps, Hunt(w, caps, territory).log, n);
  }

  /** Whatever a hunt has written by any point, it has spent no more than a run can. */
  lemma {:induction false} HuntedFits(l: Limits, log: seq<Event>)
    requires Hunted(l.caps, log) && Affordable(l.callCost, log)
    ensures 0 <= FoldCost(log) <= PerRun(l)
  {
    HuntedParses(l.caps, log);
    WordFits(l, log);
    Counting(l.caps, log);
  }

  lemma {:induction false} PerRunFits(l: Limits)
    requires l.caps.ceiling >= 0
    ensures PerRun(l) <= l.caps.ceiling + l.callCost && PerRun(l) <= Turns(l.caps) * l.callCost
  {
    var n := Turns(l.caps);
    var ceiling := WholeThirds(l.caps.ceiling - 1);
    var call := WholeThirds(l.callCost);
    TimesGrows(n, n, Whole(l.callCost), l.callCost);
    TimesIsProduct(n, l.callCost);
  }

  /** Every paid call of a hunt starts below the run's ceiling. */
  lemma {:induction false} HuntsAreDisciplined(w: World, caps: Caps, territory: string, i: nat)
    requires i < |Hunt(w, caps, territory).log| && Hunt(w, caps, territory).log[i].Usage?
    ensures FoldCost(Hunt(w, caps, territory).log[..i]) < caps.ceiling
  {
    HuntTheorem(w, caps, territory);
    SpendDiscipline(caps, Hunt(w, caps, territory).log, i);
  }

  // ----- the costliest hunt -----

  function Sum(tokens: seq<nat>): nat {
    if |tokens| == 0 then 0 else Sum(tokens[..|tokens| - 1]) + tokens[|tokens| - 1]
  }

  /** One tool round whose brain call is paid. */
  function Round(tokens: nat): seq<Event> {
    [Usage(ClaudeSonnet5, tokens, 0), ToolCall([], [], [], []), ToolResult([], [], [], [])]
  }

  function Rounds(tokens: seq<nat>): seq<Event> {
    if |tokens| == 0 then [] else Rounds(tokens[..|tokens| - 1]) + Round(tokens[|tokens| - 1])
  }

  /** A brain that calls a tool, each call for these many tokens, until it needs help; the tool always answers. */
  function Payer(tokens: seq<nat>): World {
    World((k: nat, context) => BrainReply([], Decides(
            if k < |tokens| then ToolCallDecision([], [], [], [], Some(Usage(ClaudeSonnet5, tokens[k], 0)))
            else Decision.NeedsHelp(None))),
          (k, tool, request) => Returns([]),
          (tool, args) => Valid([]),
          k => k)
  }

  /** The loop makes all these calls: there are no more than its iterations, and each starts below the ceiling. */
  predicate Payable(caps: Caps, tokens: seq<nat>) {
    |tokens| <= Turns(caps) && forall n | 0 <= n < |tokens| :: 3 * Sum(tokens[..n]) < caps.ceiling
  }

  lemma {:induction false} RoundsCost(tokens: seq<nat>)
    ensures FoldCost(Rounds(tokens)) == 3 * Sum(tokens)
  {
    if |tokens| == 0 {
    } else {
      var init, round := tokens[..|tokens| - 1], Round(tokens[|tokens| - 1]);
      RoundsCost(init);
      FoldCostConcat(Rounds(init), round);
      assert round == [] + [round[0]] + [round[1]] + [round[2]];
      FoldCostSnoc([], round[0]);
      FoldCostSnoc([] + [round[0]], round[1]);
      FoldCostSnoc([] + [round[0]] + [round[1]], round[2]);
    }
  }

  lemma {:induction false} PayerRound(caps: Caps, tokens: seq<nat>, n: nat, log: seq<Event>)
    requires n < |tokens| && FoldCost(log) < caps.ceiling
    ensures Iterate(Payer(tokens), caps, [], Going(log, Used(n, n, 0)))
         == Going(log + Round(tokens[n]), Used(n + 1, n + 1, 0))
  {
    assert log + [] + [Usage(ClaudeSonnet5, tokens[n], 0)] + ([ToolCall([], [], [], [])] + [ToolResult([], [], [], [])])
        == log + Round(tokens[n]);
  }

  lemma {:induction false} PayerTurns(caps: Caps, tokens: seq<nat>, n: nat)
    requires Payable(caps, tokens) && n <= |tokens|
    ensures AfterTurns(Payer(tokens), caps, [], n) == Going(Rounds(tokens[..n]), Used(n, n, 0))
  {
    if n == 0 {
    } else {
      PayerTurns(caps, tokens, n - 1);
      RoundsCost(tokens[..n - 1]);
      PayerRound(caps, tokens, n - 1, Rounds(tokens[..n - 1]));
      assert tokens[..n][..n - 1] == tokens[..n - 1];
    }
  }

  /** Then it needs help, unless it has come to its ceiling or its last iteration. */
  lemma {:induction false} PayerStops(caps: Caps, tokens: seq<nat>, n: nat)
    requires Payable(caps, tokens) && |tokens| <= n
    ensures var s := AfterTurns(Payer(tokens), caps, [], n);
      s.log == Rounds(tokens) && !s.Threw? && (s.Going? ==> s.used == Used(|tokens|, |tokens|, 0))
  {
    if n == |tokens| {
      PayerTurns(caps, tokens, n);
      assert tokens[..n] == tokens;
    } else {
      PayerStops(caps, tokens, n - 1);
      assert Rounds(tokens) + [] + [] == Rounds(tokens);
    }
  }

  lemma {:induction false} PayerHunt(caps: Caps, tokens: seq<nat>)
    requires Payable(caps, tokens)
    ensures Hunt(Payer(tokens), caps, []).log == Rounds(tokens)
  {
    PayerStops(caps, tokens, Turns(caps));
  }

  lemma {:induction false} PayerWrites(caps: Caps, tokens: seq<nat>, n: nat)
    requires Payable(caps, tokens) && n <= |Rounds(tokens)|
    ensures Hunted(caps, Rounds(tokens)[..n])
  {
    PayerHunt(caps, tokens);
    assert SoFar(Payer(tokens), caps, [], n, Rounds(tokens)[..n]);
  }

  /** No call of these costs more than the limit. */
  predicate Cheap(callCost: nat, tokens: seq<nat>) { forall k | 0 <= k < |tokens| :: 3 * tokens[k] <= callCost }

  lemma {:induction false} RoundsAffordable(callCost: nat, tokens: seq<nat>)
    requires Cheap(callCost, tokens)
    ensures Affordable(callCost, Rounds(tokens))
  {
    if |tokens| == 0 {
    } else {
      var init := tokens[..|tokens| - 1];
      RoundsAffordable(callCost, init);
      forall i | 0 <= i < |Rounds(tokens)| && Rounds(tokens)[i].Usage?
        ensures 0 <= CostOf(Rounds(tokens)[i]) <= callCost
      {
        assert i < |Rounds(init)| ==> Rounds(tokens)[i] == Rounds(init)[i];
      }
    }
  }

  /** What the next call may be, after `sum`: `most` tokens, or what `limit` leaves. */
  function Allowed(limit: nat, most: nat, sum: nat): nat {
    if sum < limit then Least(most, limit - sum) else 0
  }

  /** `n` calls of `most` tokens each, as long as their sum stays within `limit`, then what is left of it. */
  function UpTo(limit: nat, most: nat, n: nat): seq<nat> {
    if n == 0 then []
    else UpTo(limit, most, n - 1) + [Allowed(limit, most, Sum(UpTo(limit, most, n - 1)))]
  }

  lemma {:induction false} UpToSum(limit: nat, most: nat, n: nat)
    ensures Sum(UpTo(limit, most, n)) == Least(limit, Times(n, most))
  {
    if n == 0 {
    } else {
      UpToSum(limit, most, n - 1);
    }
  }

  lemma {:induction false} UpToMost(limit: nat, most: nat, n: nat)
    ensures |UpTo(limit, most, n)| == n && forall k | 0 <= k < n :: UpTo(limit, most, n)[k] <= most
  {
    if n == 0 {
    } else {
      UpToMost(limit, most, n - 1);
    }
  }

  lemma {:induction false} PrefixSum(tokens: seq<nat>, n: nat)
    requires n <= |tokens|
    ensures Sum(tokens[..n]) <= Sum(tokens)
    decreases |tokens|
  {
    if n == |tokens| {
      assert tokens[..n] == tokens;
    } else {
      PrefixSum(tokens[..|tokens| - 1], n);
      assert tokens[..|tokens| - 1][..n] == tokens[..n];
    }
  }

  lemma {:induction false} TimesThree(n: nat, x: nat)
    ensures Times(n, 3 * x) == 3 * Times(n, x)
  {
    if n == 0 {
    } else {
      TimesThree(n - 1, x);
    }
  }

  lemma {:induction false} PayableSnoc(caps: Caps, before: seq<nat>, last: nat)
    requires |before| < Turns(caps) && 3 * Sum(before) < caps.ceiling
    ensures Payable(caps, before + [last])
  {
    var tokens := before + [last];
    forall n | 0 <= n < |tokens| ensures 3 * Sum(tokens[..n]) < caps.ceiling {
      PrefixSum(before, n);
      assert tokens[..n] == before[..n];
    }
  }

  /** What it comes to, in thirds. */
  lemma {:induction false} PerRunThirds(l: Limits, limit: nat, most: nat)
    requires l.caps.maxIterations >= 1 && l.caps.ceiling > 0
    requires Whole(l.caps.ceiling - 1) == 3 * limit && Whole(l.callCost) == 3 * most
    ensures PerRun(l) == 3 * (Least(limit, Times(l.caps.maxIterations - 1, most)) + most)
  {
    TimesThree(l.caps.maxIterations - 1, most);
  }

  /** Calls of the dearest kind until just below the ceiling, and one more in the last iteration. */
  function Dearest(limit: nat, most: nat, n: nat): seq<nat> { UpTo(limit, most, n) + [most] }

  lemma {:induction false} DearestSum(limit: nat, most: nat, n: nat)
    ensures Sum(UpTo(limit, most, n)) <= limit
    ensures Sum(Dearest(limit, most, n)) == Least(limit, Times(n, most)) + most
  {
    UpToSum(limit, most, n);
  }

  lemma {:induction false} DearestCheap(limit: nat, most: nat, n: nat, callCost: nat)
    requires 3 * most <= callCost
    ensures Cheap(callCost, Dearest(limit, most, n))
  {
    UpToMost(limit, most, n);
  }

  lemma {:induction false} DearestPayable(caps: Caps, limit: nat, most: nat, n: nat)
    requires n < Turns(caps) && 3 * limit < caps.ceiling
    ensures Payable(caps, Dearest(limit, most, n))
  {
    DearestSum(limit, most, n);
    UpToMost(limit, most, n);
    PayableSnoc(caps, UpTo(limit, most, n), most);
  }

  lemma {:induction false} DearestCalls(l: Limits) returns (tokens: seq<nat>)
    requires l.caps.maxIterations >= 1 && l.caps.ceiling > 0
    ensures Payable(l.caps, tokens) && Cheap(l.callCost, tokens) && 3 * Sum(tokens) == PerRun(l)
  {
    var n := l.caps.maxIterations - 1;
    var limit := WholeThirds(l.caps.ceiling - 1);
    var most := WholeThirds(l.callCost);
    PerRunThirds(l, limit, most);
    DearestSum(limit, most, n);
    DearestCheap(limit, most, n, l.callCost);
    DearestPayable(l.caps, limit, most, n);
    tokens := Dearest(limit, most, n);
  }

  /** This hunt's calls are within the limit, and they come to `x`. */
  ghost predicate HuntSpends(l: Limits, w: World, territory: string, x: int) {
    && Affordable(l.callCost, Hunt(w, l.caps, territory).log)
    && FoldCost(Hunt(w, l.caps, territory).log) == x
  }

  /** `PerRun` is the maximum: no hunt spends more, whatever its brain and its tools do, and one spends that. */
  lemma {:induction false} CostliestHunt(l: Limits)
    ensures forall w: World, territory, x | HuntSpends(l, w, territory, x) :: 0 <= x <= PerRun(l)
    ensures exists w: World, territory :: HuntSpends(l, w, territory, PerRun(l))
  {
    forall w: World, territory, x | HuntSpends(l, w, territory, x) ensures 0 <= x <= PerRun(l) {
      var log := Hunt(w, l.caps, territory).log;
      assert SoFar(w, l.caps, territory, |log|, log);
      HuntedFits(l, log);
    }
    var tokens: seq<nat> := [];
    if PerRun(l) > 0 {
      tokens := DearestCalls(l);
    }
    PayerHunt(l.caps, tokens);
    RoundsAffordable(l.callCost, tokens);
    RoundsCost(tokens);
    assert HuntSpends(l, Payer(tokens), [], PerRun(l));
  }
}
