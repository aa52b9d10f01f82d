/**
 What the order of publishes decides. The commits, publishes and restarts of a run are its script;
 everything else is what viewers and the network make of it.
 */
module PublishOrder {
  import opened Prelude
  import opened Broadcast
  import opened Stream
  import opened Protocol
  import StreamSafety

  predicate Publishers(a: Action) { a.Commit? || a.Publish? || a.Restart? }

  function Script(acts: seq<Action>): seq<Action> {
    if |acts| == 0 then []
    else
      var rest := Script(acts[..|acts| - 1]);
      if Publishers(acts[|acts| - 1]) then rest + [acts[|acts| - 1]] else rest
  }

  /** The log's side of the state after a script. */
  function Log(script: seq<Action>): Option<System> { After(0, script, false) }

  /** Each publish is of a row the log still owes its viewers; `next` of the first such row. */
  predicate PublishesFrom(script: seq<Action>, next: bool) {
    forall k | 0 <= k < |script| && script[k].Publish? ::
      && Log(script[..k]).Some?
      && var due := Log(script[..k]).value.published;
      if next then script[k].index == due else script[k].index >= due
  }

  predicate InOrder(script: seq<Action>) { PublishesFrom(script, true) }

  /** No row is published twice, or after the restart that gave it up. */
  predicate OnceEach(script: seq<Action>) { PublishesFrom(script, false) }

  /** Every viewer, right now, has what the log holds from its first cursor to its last id. */
  predicate NobodyMisses(s: System) {
    forall c | c in s.clients ::
      Real(s.clients[c].received) == Between(s.rows, s.clients[c].start, Cursor(s.clients[c]))
  }

  /** Whatever the viewers do, at every moment of the script, nobody misses anything. */
  ghost predicate Lossless(maxsize: int, script: seq<Action>) {
    forall acts :: SpotLossless(maxsize, script, acts)
  }

  /** Nobody misses anything at the end of `acts`, if it is a run of part of the script. */
  predicate SpotLossless(maxsize: int, script: seq<Action>, acts: seq<Action>) {
    Script(acts) <= script && After(maxsize, acts, false).Some? ==> NobodyMisses(After(maxsize, acts, false).value)
  }

  lemma {:induction false} ScriptSnoc(acts: seq<Action>, a: Action)
    ensures Script(acts + [a]) == if Publishers(a) then Script(acts) + [a] else Script(acts)
  {
    assert (acts + [a])[..|acts|] == acts;
  }

  lemma {:induction false} AfterSnoc(maxsize: int, acts: seq<Action>, s: System, a: Action)
    requires After(maxsize, acts, false) == Some(s) && Enabled(s, a, false)
    ensures After(maxsize, acts + [a], false) == Some(Step(s, a))
  {
    assert (acts + [a])[..|acts|] == acts;
  }

  /** Viewers do not touch the log. */
  lemma {:induction false} LogIsScripts(maxsize: int, acts: seq<Action>)
    requires After(maxsize, acts, false).Some?
    ensures Log(Script(acts)).Some?
    ensures Log(Script(acts)).value.rows == After(maxsize, acts, false).value.rows
    ensures Log(Script(acts)).value.published == After(maxsize, acts, false).value.published
  {
    if |acts| == 0 {
    } else {
      var init, a := acts[..|acts| - 1], acts[|acts| - 1];
      LogIsScripts(maxsize, init);
      if Publishers(a) {
        AfterSnoc(0, Script(init), Log(Script(init)).value, a);
      }
    }
  }

  lemma {:induction false} InOrderPrefix(script: seq<Action>, prefix: seq<Action>)
    requires prefix <= script && InOrder(script)
    ensures InOrder(prefix)
  {
    forall k | 0 <= k < |prefix| ensures prefix[..k] == script[..k] && prefix[k] == script[k] {
    }
  }

  /** A run whose script is in order is a run of the ordered protocol. */
  lemma {:induction false} OrderedRun(maxsize: int, acts: seq<Action>)
    requires After(maxsize, acts, false).Some? && InOrder(Script(acts))
    ensures After(maxsize, acts, true) == After(maxsize, acts, false)
  {
    if |acts| == 0 {
    } else {
      var init, a := acts[..|acts| - 1], acts[|acts| - 1];
      assert acts == init + [a];
      ScriptSnoc(init, a);
      InOrderPrefix(Script(acts), Script(init));
      OrderedRun(maxsize, init);
      LogIsScripts(maxsize, init);
      if a.Publish? {
        var script := Script(acts);
        assert script[|script| - 1] == a && script[..|script| - 1] == Script(init);
      }
    }
  }

  lemma {:induction false} InOrderIsLossless(maxsize: int, script: seq<Action>)
    requires InOrder(script)
    ensures Lossless(maxsize, script)
  {
    forall acts ensures SpotLossless(maxsize, script, acts) {
      if Script(acts) <= script && After(maxsize, acts, false).Some? {
        InOrderPrefix(script, Script(acts));
        OrderedRun(maxsize, acts);
        ExactlyOnceAlways(maxsize, acts);
      }
    }
  }

  // ----- out of order, somebody can miss something -----

  lemma {:induction false} LogPrefix(script: seq<Action>, k: nat)
    requires Log(script).Some? && k <= |script|
    ensures Log(script[..k]).Some?
    decreases |script|
  {
    if k == |script| {
      assert script[..k] == script;
    } else {
      LogPrefix(script[..|script| - 1], k);
      assert script[..|script| - 1][..k] == script[..k];
    }
  }

  /** The first publish that is not of the first row due. */
  lemma {:induction false} FirstOutOfOrder(script: seq<Action>) returns (k: nat)
    requires Log(script).Some? && !InOrder(script)
    ensures k < |script| && script[k].Publish? && Log(script[..k]).Some? && InOrder(script[..k])
    ensures script[k].index != Log(script[..k]).value.published
  {
    var init := script[..|script| - 1];
    LogPrefix(script, |script| - 1);
    if InOrder(init) {
      k := |script| - 1;
      assert forall j | 0 <= j < |init| :: script[..j] == init[..j];
    } else {
      k := FirstOutOfOrder(init);
      assert init[..k] == script[..k];
    }
  }

  /** A row still due was committed after the last restart. */
  lemma {:induction false} CommitOf(script: seq<Action>, p: nat) returns (q: nat)
    requires Log(script).Some? && Log(script).value.published <= p < |Log(script).value.rows|
    ensures q < |script| && script[q].Commit? && Log(script[..q]).Some? && |Log(script[..q]).value.rows| == p
    ensures forall j | q <= j < |script| :: !script[j].Restart?
  {
    var init, a := script[..|script| - 1], script[|script| - 1];
    LogPrefix(script, |script| - 1);
    if a.Commit? && |Log(init).value.rows| == p {
      q := |init|;
    } else {
      q := CommitOf(init, p);
      assert script[..q] == init[..q];
    }
  }

  function LastId(rows: seq<Row>): nat { if |rows| == 0 then 0 else rows[|rows| - 1].id }

  /** A viewer that has taken all it was offered, none of it new. */
  function Waiting(since: nat): Client { Client(since, 0, [], Streaming([], [], true, since)) }

  /** A run of the script's first `k` steps in which that viewer has been offered only what it had. */
  ghost predicate Watches(maxsize: int, script: seq<Action>, k: nat, since: nat, acts: seq<Action>)
    requires k <= |script|
  {
    && Log(script[..k]).Some? && Script(acts) == script[..k]
    && After(maxsize, acts, false) ==
         Some(System(maxsize, Log(script[..k]).value.rows, Log(script[..k]).value.published, map[0 := Waiting(since)]))
  }

  /** A script alone runs the same under any queue bound. */
  lemma {:induction false} ScriptAlone(maxsize: int, script: seq<Action>)
    requires Log(script).Some? && forall j | 0 <= j < |script| :: Publishers(script[j])
    ensures After(maxsize, script, false)
        == Some(System(maxsize, Log(script).value.rows, Log(script).value.published, map[]))
    ensures Log(script).value.clients == map[] && Script(script) == script
  {
    if |script| == 0 {
    } else {
      var init, a := script[..|script| - 1], script[|script| - 1];
      ScriptAlone(maxsize, init);
      assert Publishers(a) && script == init + [a];
    }
  }

  lemma {:induction false} NothingPast(rows: seq<Row>)
    requires Increasing(rows)
    ensures CatchUp(rows, LastId(rows)) == []
  {
    CatchUpIsTail(rows, LastId(rows));
    UptoSplits(rows, LastId(rows));
  }

  lemma {:induction false} LogIncreasing(script: seq<Action>)
    requires Log(script).Some?
    ensures Increasing(Log(script).value.rows)
  {
    StreamSafety.SafeAlways(0, script);
  }

  /** The viewer comes in before step `q`, with all the log holds. */
  lemma {:induction false} WatchBegins(maxsize: int, script: seq<Action>, q: nat) returns (acts: seq<Action>)
    requires q <= |script| && Log(script[..q]).Some? && forall j | 0 <= j < |script| :: Publishers(script[j])
    ensures Watches(maxsize, script, q, LastId(Log(script[..q]).value.rows), acts)
  {
    var rows := Log(script[..q]).value.rows;
    var since := LastId(rows);
    var s0 := System(maxsize, rows, Log(script[..q]).value.published, map[]);
    ScriptAlone(maxsize, script[..q]);
    LogIncreasing(script[..q]);
    NothingPast(rows);
    AfterSnoc(maxsize, script[..q], s0, Join(0, since));
    var s1 := Step(s0, Join(0, since));
    AfterSnoc(maxsize, script[..q] + [Join(0, since)], s1, Register(0));
    var s2 := Step(s1, Register(0));
    AfterSnoc(maxsize, script[..q] + [Join(0, since)] + [Register(0)], s2, ReadTail(0));
    assert Step(s2, ReadTail(0)).clients == map[0 := Waiting(since)];
    ScriptSnoc(script[..q], Join(0, since));
    ScriptSnoc(script[..q] + [Join(0, since)], Register(0));
    ScriptSnoc(script[..q] + [Join(0, since)] + [Register(0)], ReadTail(0));
    acts := script[..q] + [Join(0, since)] + [Register(0)] + [ReadTail(0)];
  }

  lemma {:induction false} LogStep(script: seq<Action>, k: nat)
    requires k < |script| && Log(script[..k + 1]).Some?
    ensures Log(script[..k]).Some? && Enabled(Log(script[..k]).value, script[k], false)
    ensures Log(script[..k + 1]) == Some(Step(Log(script[..k]).value, script[k]))
  {
    assert script[..k + 1][..k] == script[..k];
  }

  /** Offered a row, the waiting viewer takes it: it is yielded exactly if it is past its cursor. */
  lemma {:induction false} OfferAndDrain(s: System, since: nat, i: nat)
    requires s.clients == map[0 := Waiting(since)] && i < |s.rows|
    ensures var t := Step(s, Publish(i));
      && Enabled(s, Publish(i), false) && Enabled(t, Drain(0), false)
      && var u := Step(t, Drain(0));
      && u.maxsize == s.maxsize && u.rows == s.rows && u.published == t.published
      && u.clients.Keys == {0}
      && u.clients[0].start == since
      && u.clients[0].received == (if s.rows[i].id > since then [Env(s.rows[i])] else [])
      && (s.rows[i].id <= since ==> u.clients == map[0 := Waiting(since)])
  {
    var e, t := Env(s.rows[i]), Step(s, Publish(i));
    assert [] + [e] == [e];
    assert Offered(s.maxsize, [], e) == [e];
    assert t.clients[0] == Waiting(since).(phase := Streaming([], [e], true, since));
    assert [e][1..] == [];
    assert Step(t, Drain(0)).clients[0] == Take(t.clients[0]);
  }

  lemma {:induction false} TwoMore(maxsize: int, acts: seq<Action>, s: System, a: Action, b: Action)
    requires After(maxsize, acts, false) == Some(s) && Enabled(s, a, false) && Enabled(Step(s, a), b, false)
    requires Publishers(a) && !Publishers(b)
    ensures After(maxsize, acts + [a] + [b], false) == Some(Step(Step(s, a), b))
    ensures Script(acts + [a] + [b]) == Script(acts) + [a]
  {
    AfterSnoc(maxsize, acts, s, a);
    AfterSnoc(maxsize, acts + [a], Step(s, a), b);
    ScriptSnoc(acts, a);
    ScriptSnoc(acts + [a], b);
  }

  lemma {:induction false} WatchPublish(maxsize: int, script: seq<Action>, k: nat, since: nat, acts: seq<Action>)
    requires k < |script| && Watches(maxsize, script, k, since, acts) && script[k].Publish?
      && Log(script[..k + 1]).Some?
    requires script[k].index < |Log(script[..k]).value.rows| && Log(script[..k]).value.rows[script[k].index].id <= since
    ensures Watches(maxsize, script, k + 1, since, acts + [script[k]] + [Drain(0)])
  {
    var s := After(maxsize, acts, false).value;
    LogStep(script, k);
    OfferAndDrain(s, since, script[k].index);
    TwoMore(maxsize, acts, s, script[k], Drain(0));
    assert script[..k + 1] == script[..k] + [script[k]];
  }

  lemma {:induction false} WatchCommit(maxsize: int, script: seq<Action>, k: nat, since: nat, acts: seq<Action>)
    requires k < |script| && Watches(maxsize, script, k, since, acts) && script[k].Commit? && Log(script[..k + 1]).Some?
    ensures Watches(maxsize, script, k + 1, since, acts + [script[k]])
  {
    var s := After(maxsize, acts, false).value;
    LogStep(script, k);
    AfterSnoc(maxsize, acts, s, script[k]);
    ScriptSnoc(acts, script[k]);
    assert script[..k + 1] == script[..k] + [script[k]];
  }

  /** The log only grows, and what is due only moves on. */
  lemma {:induction false} LogGrows(script: seq<Action>, q: nat, k: nat)
    requires q <= k <= |script| && Log(script[..k]).Some? && Log(script[..q]).Some?
    ensures Log(script[..q]).value.rows <= Log(script[..k]).value.rows
    ensures Log(script[..q]).value.published <= Log(script[..k]).value.published <= |Log(script[..k]).value.rows|
    decreases k - q
  {
    PublishedFits(script[..k]);
    if q == k {
    } else {
      LogStep(script, k - 1);
      LogGrows(script, q, k - 1);
    }
  }

  lemma {:induction false} RowsArePositive(script: seq<Action>)
    requires Log(script).Some?
    ensures forall i | 0 <= i < |Log(script).value.rows| :: 0 < Log(script).value.rows[i].id
  {
    if |script| == 0 {
    } else {
      RowsArePositive(script[..|script| - 1]);
    }
  }

  lemma {:induction false} PublishedFits(script: seq<Action>)
    requires Log(script).Some?
    ensures Log(script).value.published <= |Log(script).value.rows|
  {
    if |script| == 0 {
    } else {
      PublishedFits(script[..|script| - 1]);
    }
  }

  /** What the log held at step `q` is behind the cursor of a viewer that came in then, and the rest is not. */
  lemma {:induction false} KnownIffHeld(script: seq<Action>, q: nat, k: nat, i: nat)
    requires q <= k <= |script| && Log(script[..q]).Some? && Log(script[..k]).Some?
    requires i < |Log(script[..k]).value.rows|
    ensures Log(script[..k]).value.rows[i].id <= LastId(Log(script[..q]).value.rows)
      <==> i < |Log(script[..q]).value.rows|
  {
    LogGrows(script, q, k);
    LogIncreasing(script[..k]);
    RowsArePositive(script[..k]);
    var held, rows := Log(script[..q]).value.rows, Log(script[..k]).value.rows;
    if |held| > 0 {
      assert rows[|held| - 1] == held[|held| - 1];
      assert i < |held| - 1 ==> rows[i].id < rows[|held| - 1].id;
    }
  }

  /** Up to the out-of-order publish the viewer is offered only what it has. */
  ghost predicate QuietSpell(script: seq<Action>, q: nat, k: nat, p: nat) {
    && q <= k <= |script| && (forall j | 0 <= j < |script| :: Publishers(script[j]))
    && Log(script[..q]).Some? && |Log(script[..q]).value.rows| == p && (forall j | q <= j < k :: !script[j].Restart?)
    && Log(script[..k]).Some? && Log(script[..k]).value.published <= p && InOrder(script[..k])
  }

  lemma {:induction false} QuietBefore(script: seq<Action>, q: nat, k: nat, p: nat)
    requires QuietSpell(script, q, k, p) && q < k
    ensures QuietSpell(script, q, k - 1, p) && (script[k - 1].Publish? || script[k - 1].Commit?)
    ensures script[k - 1].Publish? ==> script[k - 1].index == Log(script[..k - 1]).value.published < p
  {
    LogStep(script, k - 1);
    InOrderPrefix(script[..k], script[..k - 1]);
    assert script[..k][k - 1] == script[k - 1] && script[..k][..k - 1] == script[..k - 1];
    assert Publishers(script[k - 1]);
  }

  /** It drains after each publish. */
  lemma {:induction false} WatchNext(maxsize: int, script: seq<Action>, q: nat, k: nat, p: nat, since: nat,
          acts: seq<Action>)
    returns (next: seq<Action>)
    requires QuietSpell(script, q, k + 1, p) && q <= k
    requires since == LastId(Log(script[..q]).value.rows) && Watches(maxsize, script, k, since, acts)
    ensures Watches(maxsize, script, k + 1, since, next)
  {
    QuietBefore(script, q, k + 1, p);
    if script[k].Publish? {
      LogGrows(script, q, k);
      KnownIffHeld(script, q, k, script[k].index);
      WatchPublish(maxsize, script, k, since, acts);
      next := acts + [script[k]] + [Drain(0)];
    } else {
      WatchCommit(maxsize, script, k, since, acts);
      next := acts + [script[k]];
    }
  }

  lemma {:induction false} WatchGoesOn(maxsize: int, script: seq<Action>, q: nat, k: nat, p: nat)
    returns (acts: seq<Action>)
    requires QuietSpell(script, q, k, p)
    ensures Watches(maxsize, script, k, LastId(Log(script[..q]).value.rows), acts)
    decreases k - q
  {
    if k == q {
      acts := WatchBegins(maxsize, script, q);
    } else {
      QuietBefore(script, q, k, p);
      acts := WatchGoesOn(maxsize, script, q, k - 1, p);
      acts := WatchNext(maxsize, script, q, k - 1, p, LastId(Log(script[..q]).value.rows), acts);
    }
  }

  /** A viewer that holds one row and skipped one before it. */
  lemma {:induction false} Skipped(s: System, p: nat, i: nat)
    requires Increasing(s.rows) && p < i < |s.rows| && 0 in s.clients
    requires s.clients[0].start < s.rows[p].id && s.clients[0].received == [Env(s.rows[i])]
    ensures !NobodyMisses(s)
  {
    var c := s.clients[0];
    RealSnoc([], Env(s.rows[i]));
    assert [] + [Env(s.rows[i])] == [Env(s.rows[i])];
    assert Cursor(c) == s.rows[i].id;
    UptoOfRow(s.rows, i);
    UptoSplits(s.rows, c.start);
    BetweenIsSlice(s.rows, c.start, s.rows[i].id);
    assert |Between(s.rows, c.start, s.rows[i].id)| >= 2;
  }

  /** The out-of-order publish reaches the waiting viewer, and the row due before it is skipped. */
  lemma {:induction false} WatcherMisses(maxsize: int, s: System, watch: seq<Action>, since: nat, p: nat, i: nat)
    requires After(maxsize, watch, false) == Some(s) && s.clients == map[0 := Waiting(since)] && Increasing(s.rows)
    requires p < i < |s.rows| && since < s.rows[p].id
    ensures var acts := watch + [Publish(i)] + [Drain(0)];
      && Script(acts) == Script(watch) + [Publish(i)]
      && After(maxsize, acts, false).Some? && !NobodyMisses(After(maxsize, acts, false).value)
  {
    OfferAndDrain(s, since, i);
    AfterSnoc(maxsize, watch, s, Publish(i));
    AfterSnoc(maxsize, watch + [Publish(i)], Step(s, Publish(i)), Drain(0));
    ScriptSnoc(watch, Publish(i));
    ScriptSnoc(watch + [Publish(i)], Drain(0));
    Skipped(Step(Step(s, Publish(i)), Drain(0)), p, i);
  }

  lemma {:induction false} QuietUntil(script: seq<Action>, k: nat, p: nat) returns (q: nat)
    requires k <= |script| && forall j | 0 <= j < |script| :: Publishers(script[j])
    requires Log(script[..k]).Some? && InOrder(script[..k])
    requires Log(script[..k]).value.published == p < |Log(script[..k]).value.rows|
    ensures QuietSpell(script, q, k, p)
  {
    q := CommitOf(script[..k], p);
    assert script[..k][..q] == script[..q];
    assert forall j | q <= j < k :: script[..k][j] == script[j];
  }

  lemma {:induction false} OutOfOrderAt(maxsize: int, script: seq<Action>, k: nat) returns (acts: seq<Action>)
    requires k < |script| && Log(script[..k + 1]).Some? && forall j | 0 <= j < |script| :: Publishers(script[j])
    requires Log(script[..k]).Some? && InOrder(script[..k])
    requires script[k].Publish? && Log(script[..k]).value.published < script[k].index
    ensures Script(acts) == script[..k] + [script[k]]
    ensures After(maxsize, acts, false).Some? && !NobodyMisses(After(maxsize, acts, false).value)
  {
    var i, p := script[k].index, Log(script[..k]).value.published;
    LogStep(script, k);
    var q := QuietUntil(script, k, p);
    var since := LastId(Log(script[..q]).value.rows);
    var watch := WatchGoesOn(maxsize, script, q, k, p);
    KnownIffHeld(script, q, k, p);
    LogIncreasing(script[..k]);
    WatcherMisses(maxsize, After(maxsize, watch, false).value, watch, since, p, i);
    acts := watch + [Publish(i)] + [Drain(0)];
  }

  lemma {:induction false} OutOfOrderLoses(maxsize: int, script: seq<Action>) returns (acts: seq<Action>)
    requires Log(script).Some? && OnceEach(script) && !InOrder(script)
    requires forall j | 0 <= j < |script| :: Publishers(script[j])
    ensures Script(acts) <= script && After(maxsize, acts, false).Some?
      && !NobodyMisses(After(maxsize, acts, false).value)
  {
    var k := FirstOutOfOrder(script);
    LogPrefix(script, k + 1);
    acts := OutOfOrderAt(maxsize, script, k);
    assert script[..k] + [script[k]] == script[..k + 1];
  }

  /**
   Publish order is the whole of it: for a script in which no row is published twice, or after a restart
   that gave it up, no behaviour of any viewers and network ever loses a row if and only if each
   publish is of the oldest commit not yet published.
   */
  lemma {:induction false} LosslessIffInOrder(maxsize: int, script: seq<Action>)
    requires Log(script).Some? && OnceEach(script) && forall j | 0 <= j < |script| :: Publishers(script[j])
    ensures Lossless(maxsize, script) <==> InOrder(script)
  {
    if InOrder(script) {
      InOrderIsLossless(maxsize, script);
    } else {
      var acts := OutOfOrderLoses(maxsize, script);
      assert !SpotLossless(maxsize, script, acts);
    }
  }

  // ----- a row lost for good -----

  const FIRST := Row(1, [])

  const SECOND := Row(2, [])

  /** Two hunts publish in the other order, and the viewer comes back with the later id. */
  function LateRun(): seq<Action> {
    [Join(0, 0)] + [Register(0)] + [ReadTail(0)] + [Commit(FIRST)] + [Commit(SECOND)] + [Publish(1)]
      + [Drain(0)] + [Disconnect(0)] + [Register(0)]
  }

  /** The viewer has acknowledged the second row, and nothing else came first. */
  predicate HasSecond(s: System) {
    && 0 in s.clients
    && s.clients[0].start == 0 && 1 <= s.clients[0].base <= |s.clients[0].received|
    && s.clients[0].received[0] == Env(SECOND)
  }

  lemma {:induction false} LateRunReaches(maxsize: int)
    ensures After(maxsize, LateRun(), false).Some? && HasSecond(After(maxsize, LateRun(), false).value)
  {
    var s0 := System(maxsize, [], 0, map[]);
    assert After(maxsize, [], false) == Some(s0);
    assert [] + [Join(0, 0)] == [Join(0, 0)];
    AfterSnoc(maxsize, [], s0, Join(0, 0));
    var s1 := Step(s0, Join(0, 0));
    AfterSnoc(maxsize, [Join(0, 0)], s1, Register(0));
    var s2 := Step(s1, Register(0));
    AfterSnoc(maxsize, [Join(0, 0)] + [Register(0)], s2, ReadTail(0));
    var s3 := Step(s2, ReadTail(0));
    assert s3.clients == map[0 := Waiting(0)];
    AfterSnoc(maxsize, [Join(0, 0)] + [Register(0)] + [ReadTail(0)], s3, Commit(FIRST));
    var s4 := Step(s3, Commit(FIRST));
    AfterSnoc(maxsize, [Join(0, 0)] + [Register(0)] + [ReadTail(0)] + [Commit(FIRST)], s4, Commit(SECOND));
    var s5 := Step(s4, Commit(SECOND));
    LateRunDelivers(maxsize, s5);
  }

  lemma {:induction false} LateRunDelivers(maxsize: int, s: System)
    requires s.rows == [FIRST] + [SECOND] && s.clients == map[0 := Waiting(0)]
    requires Some(s) ==
      After(maxsize, [Join(0, 0)] + [Register(0)] + [ReadTail(0)] + [Commit(FIRST)] + [Commit(SECOND)], false)
    ensures After(maxsize, LateRun(), false).Some? && HasSecond(After(maxsize, LateRun(), false).value)
  {
    var acts := [Join(0, 0)] + [Register(0)] + [ReadTail(0)] + [Commit(FIRST)] + [Commit(SECOND)];
    OfferAndDrain(s, 0, 1);
    AfterSnoc(maxsize, acts, s, Publish(1));
    var t := Step(s, Publish(1));
    AfterSnoc(maxsize, acts + [Publish(1)], t, Drain(0));
    var u := Step(t, Drain(0));
    AfterSnoc(maxsize, acts + [Publish(1)] + [Drain(0)], u, Disconnect(0));
    var v := Step(u, Disconnect(0));
    AfterSnoc(maxsize, acts + [Publish(1)] + [Drain(0)] + [Disconnect(0)], v, Register(0));
  }

  lemma {:induction false} AfterInit(maxsize: int, acts: seq<Action>, more: seq<Action>)
    requires |more| > 0 && After(maxsize, acts + more, false).Some?
    ensures var init, a := more[..|more| - 1], more[|more| - 1];
      && After(maxsize, acts + init, false).Some?
      && Enabled(After(maxsize, acts + init, false).value, a, false)
      && After(maxsize, acts + more, false).value == Step(After(maxsize, acts + init, false).value, a)
  {
    assert (acts + more)[..|acts + more| - 1] == acts + more[..|more| - 1];
  }

  lemma {:induction false} HasSecondStays(maxsize: int, more: seq<Action>)
    requires After(maxsize, LateRun() + more, false).Some?
    ensures HasSecond(After(maxsize, LateRun() + more, false).value)
  {
    if |more| == 0 {
      assert LateRun() + more == LateRun();
      LateRunReaches(maxsize);
    } else {
      AfterInit(maxsize, LateRun(), more);
      HasSecondStays(maxsize, more[..|more| - 1]);
    }
  }

  /** The late smaller id is gone: however the run goes on, that viewer never receives row 1. */
  lemma {:induction false} LateRowIsNeverReceived(maxsize: int, more: seq<Action>)
    requires After(maxsize, LateRun() + more, false).Some?
    ensures 0 in After(maxsize, LateRun() + more, false).value.clients
    ensures Env(FIRST) !in After(maxsize, LateRun() + more, false).value.clients[0].received
  {
    HasSecondStays(maxsize, more);
    StreamSafety.SafeAlways(maxsize, LateRun() + more);
    var got := After(maxsize, LateRun() + more, false).value.clients[0].received;
    RealKeeps(got);
    RealPrefix(got, 1);
    assert got[..1] == [] + [Env(SECOND)];
    RealSnoc([], Env(SECOND));
    assert Real(got)[0] == Env(SECOND);
  }

  lemma {:induction false} RealKeeps(envs: seq<Envelope>)
    ensures forall e | e in envs && e.id.Some? :: e in Real(envs)
  {
    if |envs| == 0 {
    } else {
      RealKeeps(envs[..|envs| - 1]);
      assert envs == envs[..|envs| - 1] + [envs[|envs| - 1]];
    }
  }
}
