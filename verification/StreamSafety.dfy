/** What the streaming protocol keeps when publishes come in any order, and how a dropped stream ends. */
module StreamSafety {
  import opened Prelude
  import opened Broadcast
  import opened Stream
  import opened Protocol

  /** Real envelopes with strictly increasing ids, all above `lo`. */
  predicate Climbs(lo: nat, envs: seq<Envelope>) {
    && (forall i | 0 <= i < |envs| :: envs[i].id.Some? && lo < envs[i].id.value)
    && (forall i, j | 0 <= i < j < |envs| :: envs[i].id.value < envs[j].id.value)
  }

  predicate Safe(rows: seq<Row>, c: Client) {
    && Climbs(c.start, Real(c.received))
    && AllCommitted(rows, c.received)
    && match c.phase
       case Offline => true
       case Registered(queue, _) => AllCommitted(rows, queue)
       case Streaming(backfill, queue, _, highWater) =>
         && highWater == Cursor(c)
         && AllCommitted(rows, queue) && AllCommitted(rows, backfill)
         && Climbs(highWater, backfill)
  }

  predicate AllSafe(s: System) {
    Increasing(s.rows) && forall c | c in s.clients :: Safe(s.rows, s.clients[c])
  }

  lemma {:induction false} ClimbsOn(lo: nat, envs: seq<Envelope>, e: Envelope)
    requires Climbs(lo, envs) && e.id.Some? && lo < e.id.value
    requires |envs| > 0 ==> envs[|envs| - 1].id.value < e.id.value
    ensures Climbs(lo, envs + [e])
  {
    var all := envs + [e];
    forall i | 0 <= i < |envs| ensures envs[i].id.value < e.id.value {
      assert i < |envs| - 1 ==> envs[i].id.value < envs[|envs| - 1].id.value;
    }
    assert forall i | 0 <= i < |envs| :: all[i] == envs[i];
  }

  lemma {:induction false} ReceivePassing(rows: seq<Row>, c: Client, e: Envelope)
    requires Climbs(c.start, Real(c.received)) && AllCommitted(rows, c.received)
    requires Committed(rows, e) && Passes(Cursor(c), e)
    ensures var d := c.(received := c.received + [e]);
      && Climbs(c.start, Real(d.received)) && AllCommitted(rows, d.received)
      && Cursor(d) == Mark(Cursor(c), e)
  {
    RealSnoc(c.received, e);
    if e.id.Some? {
      ClimbsOn(c.start, Real(c.received), e);
    }
  }

  lemma {:induction false} CatchUpClimbs(rows: seq<Row>, x: nat)
    requires Increasing(rows)
    ensures Climbs(x, CatchUp(rows, x)) && AllCommitted(rows, CatchUp(rows, x))
  {
    CatchUpIsTail(rows, x);
    UptoSplits(rows, x);
    var u := Upto(rows, x);
    forall k | 0 <= k < |CatchUp(rows, x)| ensures CatchUp(rows, x)[k] in Envs(rows) {
      assert CatchUp(rows, x)[k] == Envs(rows)[u + k];
    }
  }

  lemma {:induction false} CommittedStays(rows: seq<Row>, row: Row, envs: seq<Envelope>)
    requires AllCommitted(rows, envs)
    ensures AllCommitted(rows + [row], envs)
  {
    assert Envs(rows + [row]) == Envs(rows) + [Env(row)];
  }

  lemma {:induction false} YieldSafe(rows: seq<Row>, c: Client)
    requires Safe(rows, c) && c.phase.Streaming? && c.phase.backfill != []
    ensures Safe(rows, YieldNext(c))
  {
    ReceivePassing(rows, c, c.phase.backfill[0]);
  }

  lemma {:induction false} CommittedTail(rows: seq<Row>, envs: seq<Envelope>)
    requires AllCommitted(rows, envs) && envs != []
    ensures Committed(rows, envs[0]) && AllCommitted(rows, envs[1..])
  {
    forall k | 0 <= k < |envs| - 1 ensures Committed(rows, envs[1..][k]) {
      assert envs[1..][k] == envs[k + 1];
    }
  }

  lemma {:induction false} TakeStale(rows: seq<Row>, c: Client)
    requires Safe(rows, c) && c.phase.Streaming? && c.phase.backfill == [] && c.phase.queue != []
    requires !Passes(c.phase.highWater, c.phase.queue[0])
    ensures Safe(rows, Take(c))
  {
    CommittedTail(rows, c.phase.queue);
    assert Take(c).received == c.received;
  }

  lemma {:induction false} TakeSafe(rows: seq<Row>, c: Client)
    requires Safe(rows, c) && c.phase.Streaming? && c.phase.backfill == [] && c.phase.queue != []
    ensures Safe(rows, Take(c))
  {
    if Passes(c.phase.highWater, c.phase.queue[0]) {
      CommittedTail(rows, c.phase.queue);
      ReceivePassing(rows, c, c.phase.queue[0]);
    } else {
      TakeStale(rows, c);
    }
  }

  lemma {:induction false} OwnStepSafe(s: System, a: Action)
    requires AllSafe(s) && Enabled(s, a, false)
    requires a.Register? || a.ReadTail? || a.Yield? || a.Drain? || a.Timeout? || a.Disconnect? || a.Lose?
    ensures Safe(s.rows, Step(s, a).clients[a.client])
  {
    var c := s.clients[a.client];
    assert Safe(s.rows, c);
    if a.ReadTail? {
      CatchUpClimbs(s.rows, Cursor(c));
    } else if a.Yield? {
      YieldSafe(s.rows, c);
    } else if a.Drain? {
      TakeSafe(s.rows, c);
    } else if a.Lose? {
      RealPrefix(c.received, a.kept);
    }
  }

  lemma {:induction false} CommitSafe(rows: seq<Row>, row: Row, c: Client)
    requires Safe(rows, c)
    ensures Safe(rows + [row], c)
  {
    CommittedStays(rows, row, c.received);
    if !c.phase.Offline? {
      CommittedStays(rows, row, c.phase.queue);
    }
    if c.phase.Streaming? {
      CommittedStays(rows, row, c.phase.backfill);
    }
  }

  lemma {:induction false} OfferSafe(maxsize: int, rows: seq<Row>, c: Client, e: Envelope)
    requires Safe(rows, c) && Committed(rows, e)
    ensures Safe(rows, Offer(maxsize, c, e))
  {
  }

  lemma {:induction false} StepKeepsSafe(s: System, a: Action, c: nat)
    requires AllSafe(s) && Enabled(s, a, false) && c in Step(s, a).clients
    ensures Safe(Step(s, a).rows, Step(s, a).clients[c])
  {
    assert c in s.clients ==> Safe(s.rows, s.clients[c]);
    match a
    case Commit(row) => CommitSafe(s.rows, row, s.clients[c]);
    case Publish(i) =>
      assert Envs(s.rows)[i] == Env(s.rows[i]);
      OfferSafe(s.maxsize, s.rows, s.clients[c], Env(s.rows[i]));
    case Tell(data) => OfferSafe(s.maxsize, s.rows, s.clients[c], Envelope(None, data));
    case Join(_, _) =>
    case Restart =>
    case _ => OwnStepSafe(s, a);
  }

  /**
   With publishes in any order and any number of times: the real ids a client receives strictly
   increase from its first cursor on, each is committed with the payload stored in the log, and the
   high-water mark is always the last real id received, so no id-less frame moves it.
   */
  lemma {:induction false} SafeAlways(maxsize: int, acts: seq<Action>)
    requires After(maxsize, acts, false).Some?
    ensures AllSafe(After(maxsize, acts, false).value)
  {
    if |acts| == 0 {
    } else {
      var s, a := After(maxsize, acts[..|acts| - 1], false).value, acts[|acts| - 1];
      SafeAlways(maxsize, acts[..|acts| - 1]);
      forall c | c in Step(s, a).clients ensures Safe(Step(s, a).rows, Step(s, a).clients[c]) {
        StepKeepsSafe(s, a, c);
      }
    }
  }

  // ----- a dropped viewer -----

  /** A session, before or after its backfill read, whose queue the hub has dropped. */
  predicate Dropped(c: Client) { !c.phase.Offline? && !c.phase.inHub }

  /** A run that has reached a state with this client in it. */
  predicate HasClient(maxsize: int, acts: seq<Action>, c: nat) {
    After(maxsize, acts, false).Some? && c in After(maxsize, acts, false).value.clients
  }

  function ClientAt(maxsize: int, acts: seq<Action>, c: nat): Client
    requires HasClient(maxsize, acts, c)
  {
    After(maxsize, acts, false).value.clients[c]
  }

  lemma {:induction false} HasClientBefore(maxsize: int, acts: seq<Action>, n: nat, c: nat)
    requires n < |acts| && HasClient(maxsize, acts, c) && HasClient(maxsize, acts[..n], c)
    ensures var init := acts[..|acts| - 1];
      && init[..n] == acts[..n] && HasClient(maxsize, init, c)
      && Enabled(After(maxsize, init, false).value, acts[|acts| - 1], false)
    decreases |acts|
  {
    var init := acts[..|acts| - 1];
    assert init[..n] == acts[..n];
    if |init| == n {
      assert init == acts[..n];
    } else {
      ClientsStay(maxsize, init, n, c);
    }
  }

  lemma {:induction false} ClientsStay(maxsize: int, acts: seq<Action>, n: nat, c: nat)
    requires n <= |acts| && After(maxsize, acts, false).Some? && HasClient(maxsize, acts[..n], c)
    ensures HasClient(maxsize, acts, c)
    decreases |acts|
  {
    if |acts| == n {
      assert acts == acts[..n];
    } else {
      var init := acts[..|acts| - 1];
      assert init[..n] == acts[..n];
      ClientsStay(maxsize, init, n, c);
    }
  }

  /** No new session of `c` begins from step `k` on. */
  predicate SameSession(acts: seq<Action>, k: nat, c: nat) { forall m | k <= m < |acts| :: acts[m] != Register(c) }

  function Suffix<T>(s: seq<T>, n: nat): seq<T>
    requires n <= |s|
  {
    s[|s| - n..]
  }

  /** `d` is offline, or still dropped with no more than the end of what `c` had left. */
  predicate OnlyShrinks(c: Client, d: Client)
    requires !c.phase.Offline?
  {
    !d.phase.Offline? ==>
    && Dropped(d) && |d.phase.queue| <= |c.phase.queue| && d.phase.queue == Suffix(c.phase.queue, |d.phase.queue|)
    && (c.phase.Streaming? ==>
          && d.phase.Streaming? && |d.phase.backfill| <= |c.phase.backfill|
          && d.phase.backfill == Suffix(c.phase.backfill, |d.phase.backfill|))
  }

  /** Nothing refills a dropped session, whatever happens: until it ends it only gets through what it has. */
  lemma {:induction false} DroppedNeverRefills(maxsize: int, acts: seq<Action>, n: nat, c: nat)
    requires n <= |acts| && HasClient(maxsize, acts, c) && HasClient(maxsize, acts[..n], c) && SameSession(acts, n, c)
    requires Dropped(ClientAt(maxsize, acts[..n], c))
    ensures OnlyShrinks(ClientAt(maxsize, acts[..n], c), ClientAt(maxsize, acts, c))
    decreases |acts|
  {
    if |acts| == n {
      assert acts == acts[..n];
    } else {
      var init := acts[..|acts| - 1];
      HasClientBefore(maxsize, acts, n, c);
      DroppedNeverRefills(maxsize, init, n, c);
    }
  }

  /** What the session still has to yield. */
  function Rest(rows: seq<Row>, c: Client): seq<Envelope> {
    match c.phase
    case Offline => []
    case Registered(queue, _) =>
      var backfill := CatchUp(rows, Cursor(c));
      backfill + Accepted(Marks(Cursor(c), backfill), queue)
    case Streaming(backfill, queue, _, highWater) => backfill + Accepted(Marks(highWater, backfill), queue)
  }

  lemma {:induction false} YieldYieldsRest(rows: seq<Row>, x: Client)
    requires x.phase.Streaming? && x.phase.backfill != []
    ensures YieldNext(x).received + Rest(rows, YieldNext(x)) == x.received + Rest(rows, x)
  {
    var head, tail := [x.phase.backfill[0]], x.phase.backfill[1..];
    var live := Accepted(Marks(x.phase.highWater, x.phase.backfill), x.phase.queue);
    MarksHead(x.phase.highWater, x.phase.backfill);
    assert x.phase.backfill == head + tail;
    ConcatAssoc(head, tail, live);
    ConcatAssoc(x.received, head, tail + live);
  }

  lemma {:induction false} TakeYieldsRest(rows: seq<Row>, x: Client)
    requires x.phase.Streaming? && x.phase.backfill == [] && x.phase.queue != []
    ensures Take(x).received + Rest(rows, Take(x)) == x.received + Rest(rows, x)
  {
    var e, hw := x.phase.queue[0], x.phase.highWater;
    var head, live := if Passes(hw, e) then [e] else [], Accepted(Mark(hw, e), x.phase.queue[1..]);
    AcceptedHead(hw, x.phase.queue);
    assert Rest(rows, x) == head + live && Rest(rows, Take(x)) == live && Take(x).received == x.received + head;
    ConcatAssoc(x.received, head, live);
  }

  /** The turns its own loop takes before its wait times out: the backfill read, the yields and the drains. */
  function Steps(rows: seq<Row>, c: Client): nat {
    match c.phase
    case Offline => 0
    case Registered(queue, _) => 1 + |CatchUp(rows, Cursor(c))| + |queue|
    case Streaming(backfill, queue, _, _) => |backfill| + |queue|
  }

  /** A step of `c`'s own stream. */
  predicate OwnTurn(a: Action, c: nat) { a == ReadTail(c) || a == Yield(c) || a == Drain(c) || a == Timeout(c) }

  /** How many of the steps from number `n` on are. */
  function OwnTurns(acts: seq<Action>, n: nat, c: nat): nat
    requires n <= |acts|
    decreases |acts|
  {
    if |acts| == n then 0
    else OwnTurns(acts[..|acts| - 1], n, c) + if OwnTurn(acts[|acts| - 1], c) then 1 else 0
  }

  /** Nobody cuts `c`'s session short with this step, and `c` does not start another. */
  predicate Spares(a: Action, c: nat) {
    a != Register(c) && a != Disconnect(c) && !a.Restart? && !(a.Lose? && a.client == c)
  }

  /** If the session still reads its backfill, these are the rows committed when it does. */
  predicate ReadsThen(maxsize: int, acts: seq<Action>, n: nat, c: nat, rows: seq<Row>) {
    forall k | n <= k < |acts| && acts[k] == ReadTail(c) ::
      After(maxsize, acts[..k], false).Some? && After(maxsize, acts[..k], false).value.rows == rows
  }

  /** What `turns` turns of its own make of a dropped session. */
  predicate RunsDown(rows: seq<Row>, c: Client, d: Client, turns: nat) {
    && d.received + Rest(rows, d) == c.received + Rest(rows, c)
    && if d.phase.Offline? then turns == Steps(rows, c) + 1
       else Dropped(d) && turns + Steps(rows, d) == Steps(rows, c)
  }

  /** The steps of everybody else leave a dropped session alone. */
  lemma {:induction false} OthersLeave(s: System, a: Action, c: nat)
    requires c in s.clients && Enabled(s, a, false) && Spares(a, c) && !OwnTurn(a, c)
    requires s.clients[c].phase.Offline? || Dropped(s.clients[c])
    ensures Step(s, a).clients[c] == s.clients[c]
  {
  }

  lemma {:induction false} NextTurn(s: System, a: Action, c: nat, rows: seq<Row>, x: Client, turns: nat)
    requires c in s.clients && Enabled(s, a, false) && Spares(a, c) && (a == ReadTail(c) ==> s.rows == rows)
    requires RunsDown(rows, x, s.clients[c], turns)
    ensures RunsDown(rows, x, Step(s, a).clients[c], turns + if OwnTurn(a, c) then 1 else 0)
  {
    var d := s.clients[c];
    if !OwnTurn(a, c) {
      OthersLeave(s, a, c);
    } else if a == Yield(c) {
      YieldYieldsRest(rows, d);
    } else if a == Drain(c) {
      TakeYieldsRest(rows, d);
    }
  }

  /**
   A dropped viewer's stream ends, wherever the drop found it and whatever commits, publishes and other
   clients come in between: after exactly so many turns of its own it has yielded the rest of its
   backfill and what passes of its queue, and then the wait times out.
   */
  lemma {:induction false} DroppedStreamEnds(maxsize: int, acts: seq<Action>, n: nat, c: nat, rows: seq<Row>)
    requires n <= |acts| && HasClient(maxsize, acts, c) && HasClient(maxsize, acts[..n], c)
    requires Dropped(ClientAt(maxsize, acts[..n], c)) && ReadsThen(maxsize, acts, n, c, rows)
    requires forall k | n <= k < |acts| :: Spares(acts[k], c)
    ensures RunsDown(rows, ClientAt(maxsize, acts[..n], c), ClientAt(maxsize, acts, c), OwnTurns(acts, n, c))
    decreases |acts|
  {
    if |acts| == n {
      assert acts == acts[..n];
    } else {
      var init, a := acts[..|acts| - 1], acts[|acts| - 1];
      HasClientBefore(maxsize, acts, n, c);
      assert forall k | n <= k < |init| :: init[k] == acts[k] && init[..k] == acts[..k];
      assert acts[..|init|] == init;
      DroppedStreamEnds(maxsize, init, n, c, rows);
      NextTurn(After(maxsize, init, false).value, a, c, rows, ClientAt(maxsize, acts[..n], c), OwnTurns(init, n, c));
    }
  }

  /** Until then such a turn is always to be had, and afterwards the client may register again. */
  lemma {:induction false} DroppedStreamMoves(s: System, c: nat)
    requires c in s.clients && (s.clients[c].phase.Offline? || Dropped(s.clients[c]))
    ensures if s.clients[c].phase.Offline? then Enabled(s, Register(c), false)
            else exists a :: OwnTurn(a, c) && Enabled(s, a, false)
  {
    var phase := s.clients[c].phase;
    if !phase.Offline? {
      var a := if phase.Registered? then ReadTail(c)
               else if phase.backfill != [] then Yield(c)
               else if phase.queue != [] then Drain(c) else Timeout(c);
      assert OwnTurn(a, c) && Enabled(s, a, false);
    }
  }

  // ----- a timeout ends only dropped sessions -----

  /** Step `k` of the run offers something to `c`, and finds its queue full. */
  predicate DropsAt(maxsize: int, acts: seq<Action>, k: nat, c: nat)
    requires k < |acts|
  {
    && (acts[k].Publish? || acts[k].Tell?)
    && var before := After(maxsize, acts[..k], false);
    && before.Some? && c in before.value.clients
    && var phase := before.value.clients[c].phase;
    !phase.Offline? && phase.inHub && Full(maxsize, phase.queue)
  }

  ghost predicate WasDropped(maxsize: int, acts: seq<Action>, c: nat) {
    exists k: nat | k < |acts| :: DropsAt(maxsize, acts, k, c) && SameSession(acts, k, c)
  }

  lemma {:induction false} WasDroppedStays(maxsize: int, init: seq<Action>, a: Action, c: nat)
    requires WasDropped(maxsize, init, c) && a != Register(c)
    ensures WasDropped(maxsize, init + [a], c)
  {
    var k: nat :| k < |init| && DropsAt(maxsize, init, k, c) && SameSession(init, k, c);
    assert (init + [a])[..k] == init[..k];
    assert DropsAt(maxsize, init + [a], k, c) && SameSession(init + [a], k, c);
  }

  lemma {:induction false} MaxsizeStays(maxsize: int, acts: seq<Action>)
    requires After(maxsize, acts, false).Some?
    ensures After(maxsize, acts, false).value.maxsize == maxsize
  {
    if |acts| == 0 {
    } else {
      MaxsizeStays(maxsize, acts[..|acts| - 1]);
    }
  }

  /** A session is out of the hub only because an offer of its own found its queue full. */
  lemma {:induction false} OnlyOffersDrop(maxsize: int, acts: seq<Action>, c: nat)
    requires After(maxsize, acts, false).Some?
    requires c in After(maxsize, acts, false).value.clients && Dropped(After(maxsize, acts, false).value.clients[c])
    ensures WasDropped(maxsize, acts, c)
  {
    if |acts| == 0 {
    } else {
      var init, a := acts[..|acts| - 1], acts[|acts| - 1];
      var s := After(maxsize, init, false).value;
      assert acts == init + [a];
      MaxsizeStays(maxsize, init);
      if Dropped(s.clients[c]) {
        OnlyOffersDrop(maxsize, init, c);
        WasDroppedStays(maxsize, init, a, c);
      } else {
        assert acts[..|init|] == init;
        assert DropsAt(maxsize, acts, |init|, c) && SameSession(acts, |init|, c);
      }
    }
  }

  /** A timeout ends a session only if an earlier offer in that session found its queue full. */
  lemma {:induction false} TimeoutEndsOnlyDropped(maxsize: int, acts: seq<Action>, c: nat)
    requires After(maxsize, acts + [Timeout(c)], false).Some?
    requires After(maxsize, acts + [Timeout(c)], false).value.clients[c].phase.Offline?
    ensures WasDropped(maxsize, acts, c)
  {
    assert (acts + [Timeout(c)])[..|acts|] == acts;
    OnlyOffersDrop(maxsize, acts, c);
  }

  /** `c` is in a session and in the hub. */
  predicate Up(s: System, c: nat) { c in s.clients && !s.clients[c].phase.Offline? && s.clients[c].phase.inHub }

  /**
   Without a full queue, a disconnect or a restart, a registered viewer's session stays up, however
   often it times out.
   */
  lemma {:induction false} RegisteredViewerStaysUp(maxsize: int, acts: seq<Action>, n: nat, c: nat)
    requires After(maxsize, acts, false).Some? && n <= |acts|
    requires After(maxsize, acts[..n], false).Some? && Up(After(maxsize, acts[..n], false).value, c)
    requires forall k | n <= k < |acts| ::
      acts[k] != Disconnect(c) && !acts[k].Restart? && !DropsAt(maxsize, acts, k, c)
    ensures Up(After(maxsize, acts, false).value, c)
    decreases |acts|
  {
    if n == |acts| {
      assert acts[..n] == acts;
    } else {
      var init, last := acts[..|acts| - 1], |acts| - 1;
      assert init[..n] == acts[..n];
      forall k | n <= k < |init| ensures !DropsAt(maxsize, init, k, c) {
        assert init[..k] == acts[..k];
        assert !DropsAt(maxsize, acts, k, c);
      }
      RegisteredViewerStaysUp(maxsize, init, n, c);
      MaxsizeStays(maxsize, init);
      assert !DropsAt(maxsize, acts, last, c);
    }
  }

  lemma {:induction false} MarksHead(highWater: nat, envs: seq<Envelope>)
    requires envs != []
    ensures Marks(highWater, envs) == Marks(Mark(highWater, envs[0]), envs[1..])
  {
    AcceptedHead(highWater, envs);
  }

  lemma {:induction false} AcceptedHead(highWater: nat, envs: seq<Envelope>)
    requires envs != []
    ensures Accepted(highWater, envs) ==
      (if Passes(highWater, envs[0]) then [envs[0]] else []) + Accepted(Mark(highWater, envs[0]), envs[1..])
    ensures Marks(highWater, envs) == Marks(Mark(highWater, envs[0]), envs[1..])
  {
    var n := |envs| - 1;
    if n > 0 {
      AcceptedHead(highWater, envs[..n]);
      assert envs[1..][..n - 1] == envs[..n][1..];
    } else {
      assert envs[..0] == [] && envs[1..] == [];
    }
  }
}
