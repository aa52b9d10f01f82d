/** Many viewers, one hub, one growing log, in every interleaving, with lost frames, reconnects and restarts. */
module Protocol {
  import opened Prelude
  import opened Broadcast
  import opened Stream

  /** Where a client's session stands. `inHub` is false once the hub has dropped its queue. */
  datatype Phase =
    | Offline
    | Registered(queue: seq<Envelope>, inHub: bool)
    | Streaming(backfill: seq<Envelope>, queue: seq<Envelope>, inHub: bool, highWater: nat)

  /**
   `received` runs over all the client's sessions, `base` of it before the present one; `start` is the
   cursor of its first request.
   */
  datatype Client = Client(start: nat, base: nat, received: seq<Envelope>, phase: Phase)

  /** `published` rows have been offered, or never will be. */
  datatype System = System(maxsize: int, rows: seq<Row>, published: nat, clients: map<nat, Client>)

  /** Last-Event-ID: the id of the last real event received, else the first cursor. */
  function Cursor(c: Client): nat {
    var got := Real(c.received);
    if |got| == 0 || got[|got| - 1].id.None? then c.start else got[|got| - 1].id.value
  }

  datatype Action =
    | Commit(row: Row)
    | Publish(index: nat)
    | Tell(data: string)
    | Join(client: nat, since: nat)
    | Register(client: nat)
    | ReadTail(client: nat)
    | Yield(client: nat)
    | Drain(client: nat)
    | Timeout(client: nat)
    | Disconnect(client: nat)
    | Lose(client: nat, kept: nat)
    | Restart

  /** AUTOINCREMENT ids start at 1. In `ordered` runs the commits are published one by one in id order. */
  predicate Enabled(s: System, a: Action, ordered: bool) {
    match a
    case Commit(row) => 0 < row.id && (|s.rows| == 0 || s.rows[|s.rows| - 1].id < row.id)
    case Publish(i) => i < |s.rows| && (ordered ==> i == s.published)
    case Tell(_) => true
    case Join(c, _) => c !in s.clients
    case Register(c) => c in s.clients && s.clients[c].phase.Offline?
    case ReadTail(c) => c in s.clients && s.clients[c].phase.Registered?
    case Yield(c) => c in s.clients && s.clients[c].phase.Streaming? && s.clients[c].phase.backfill != []
    case Drain(c) =>
      && c in s.clients && s.clients[c].phase.Streaming?
      && s.clients[c].phase.backfill == [] && s.clients[c].phase.queue != []
    case Timeout(c) =>
      && c in s.clients && s.clients[c].phase.Streaming?
      && s.clients[c].phase.backfill == [] && s.clients[c].phase.queue == []
    case Disconnect(c) => c in s.clients
    case Lose(c, kept) =>
      c in s.clients && s.clients[c].phase.Offline? && s.clients[c].base <= kept <= |s.clients[c].received|
    case Restart => true
  }

  /** One offer: the item is queued, or a full queue is dropped from the hub. */
  function Offer(maxsize: int, c: Client, e: Envelope): Client {
    if c.phase.Offline? || !c.phase.inHub then c
    else c.(phase := c.phase.(queue := Offered(maxsize, c.phase.queue, e), inHub := !Full(maxsize, c.phase.queue)))
  }

  function OfferAll(s: System, e: Envelope): System {
    s.(clients := map c | c in s.clients :: Offer(s.maxsize, s.clients[c], e))
  }

  /** What the live loop does with the item at the head of its queue. */
  function Take(c: Client): Client
    requires c.phase.Streaming? && c.phase.queue != []
  {
    var e := c.phase.queue[0];
    c.(received := if Passes(c.phase.highWater, e) then c.received + [e] else c.received,
       phase := c.phase.(queue := c.phase.queue[1..], highWater := Mark(c.phase.highWater, e)))
  }

  /** The backfill read: the log tail past the cursor, as committed at this moment. */
  function ReadBack(s: System, c: Client): Client
    requires c.phase.Registered?
  {
    c.(phase := Streaming(CatchUp(s.rows, Cursor(c)), c.phase.queue, c.phase.inHub, Cursor(c)))
  }

  function YieldNext(c: Client): Client
    requires c.phase.Streaming? && c.phase.backfill != []
  {
    var e := c.phase.backfill[0];
    c.(received := c.received + [e],
       phase := c.phase.(backfill := c.phase.backfill[1..], highWater := Mark(c.phase.highWater, e)))
  }

  /** Waiting timed out: a viewer the hub has dropped ends its stream, any other waits on. */
  function WaitOver(c: Client): Client
    requires c.phase.Streaming?
  {
    if c.phase.inHub then c else c.(phase := Offline)
  }

  function Update(s: System, c: nat, client: Client): System { s.(clients := s.clients[c := client]) }

  function Step(s: System, a: Action): System
    requires Enabled(s, a, false)
  {
    match a
    case Commit(row) => s.(rows := s.rows + [row])
    case Publish(i) => OfferAll(s, Env(s.rows[i])).(published := if i == s.published then i + 1 else s.published)
    case Tell(data) => OfferAll(s, Envelope(None, data))
    case Join(c, since) => Update(s, c, Client(since, 0, [], Offline))
    case Register(c) => Update(s, c, s.clients[c].(base := |s.clients[c].received|, phase := Registered([], true)))
    case ReadTail(c) => Update(s, c, ReadBack(s, s.clients[c]))
    case Yield(c) => Update(s, c, YieldNext(s.clients[c]))
    case Drain(c) => Update(s, c, Take(s.clients[c]))
    case Timeout(c) => Update(s, c, WaitOver(s.clients[c]))
    case Disconnect(c) => Update(s, c, s.clients[c].(phase := Offline))
    case Lose(c, kept) => Update(s, c, s.clients[c].(received := s.clients[c].received[..kept]))
    case Restart =>
      s.(published := |s.rows|, clients := map c | c in s.clients :: s.clients[c].(phase := Offline))
  }

  /** The state after a run from the empty system; None if a step of it was not enabled. */
  function After(maxsize: int, acts: seq<Action>, ordered: bool): Option<System> {
    if |acts| == 0 then Some(System(maxsize, [], 0, map[]))
    else
      var before := After(maxsize, acts[..|acts| - 1], ordered);
      var a := acts[|acts| - 1];
      if before.Some? && Enabled(before.value, a, ordered) && Enabled(before.value, a, false)
      then Some(Step(before.value, a)) else None
  }

  // ----- exactly once, when publishes are in id order -----

  /** The queue's real items are the published rows from `a` on, all of them while still in the hub. */
  predicate QueueFrom(s: System, queue: seq<Envelope>, inHub: bool, a: nat) {
    var n := |Real(queue)|;
    && a + n <= s.published <= |s.rows|
    && (inHub ==> a + n == s.published)
    && Real(queue) == Envs(s.rows[a..a + n])
  }

  /** What the client has received is exactly the committed rows after `start` up to its cursor. */
  predicate NoGapNoDuplicate(rows: seq<Row>, c: Client) {
    && c.start <= Cursor(c)
    && (Cursor(c) == c.start || (0 < |rows| && Cursor(c) <= rows[|rows| - 1].id))
    && Real(c.received) == Between(rows, c.start, Cursor(c))
  }

  /** The backfill is the rows right after the cursor, and with it the rows before `a` are behind the mark. */
  predicate BackfillFrom(rows: seq<Row>, backfill: seq<Envelope>, cur: nat, a: nat) {
    var u := Upto(rows, cur);
    u + |backfill| <= |rows| && backfill == Envs(rows[u..u + |backfill|]) && a <= u + |backfill|
  }

  /** The rows before `a` are behind the mark, or still in the backfill to be yielded. */
  predicate Splices(s: System, phase: Phase, cur: nat, a: nat) {
    match phase
    case Offline => true
    case Registered(queue, inHub) => QueueFrom(s, queue, inHub, a)
    case Streaming(backfill, queue, inHub, highWater) =>
      highWater == cur && BackfillFrom(s.rows, backfill, cur, a) && QueueFrom(s, queue, inHub, a)
  }

  ghost predicate ExactlyOnce(s: System, c: Client) {
    NoGapNoDuplicate(s.rows, c) && exists a: nat :: Splices(s, c.phase, Cursor(c), a)
  }

  ghost predicate AllExactlyOnce(s: System) {
    && Increasing(s.rows) && s.published <= |s.rows|
    && forall c | c in s.clients :: ExactlyOnce(s, s.clients[c])
  }

  lemma {:induction false} RealSnoc(envs: seq<Envelope>, e: Envelope)
    ensures Real(envs + [e]) == if e.id.Some? then Real(envs) + [e] else Real(envs)
  {
    assert (envs + [e])[..|envs|] == envs;
  }

  lemma {:induction false} RealTail(envs: seq<Envelope>)
    requires envs != []
    ensures Real(envs) == if envs[0].id.Some? then [envs[0]] + Real(envs[1..]) else Real(envs[1..])
  {
    var n := |envs| - 1;
    if n > 0 {
      RealTail(envs[..n]);
      assert envs[1..][..n - 1] == envs[..n][1..];
    } else {
      assert envs[..0] == [] && envs[1..] == [];
    }
  }

  /** What is real in a prefix comes first of what is real. */
  lemma {:induction false} RealPrefix(envs: seq<Envelope>, n: nat)
    requires n <= |envs|
    ensures Real(envs[..n]) <= Real(envs)
    decreases |envs|
  {
    if n == |envs| {
      assert envs[..n] == envs;
    } else {
      RealPrefix(envs[..|envs| - 1], n);
      assert envs[..|envs| - 1][..n] == envs[..n];
    }
  }

  /** Real ids that are a slice of the log from the first cursor on have no gap and no duplicate. */
  lemma {:induction false} SliceHasNoGap(rows: seq<Row>, c: Client, hi: nat)
    requires Increasing(rows) && Upto(rows, c.start) <= hi <= |rows|
    requires Real(c.received) == Envs(rows[Upto(rows, c.start)..hi])
    ensures NoGapNoDuplicate(rows, c)
  {
    var lo := Upto(rows, c.start);
    UptoSplits(rows, c.start);
    if lo == hi {
      BetweenIsSlice(rows, c.start, c.start);
    } else {
      assert Cursor(c) == rows[hi - 1].id;
      UptoOfRow(rows, hi - 1);
      BetweenIsSlice(rows, c.start, rows[hi - 1].id);
    }
  }

  lemma {:induction false} LoseLeavesNoGap(rows: seq<Row>, c: Client, kept: nat)
    requires Increasing(rows) && NoGapNoDuplicate(rows, c) && kept <= |c.received|
    ensures NoGapNoDuplicate(rows, c.(received := c.received[..kept]))
  {
    var lo := Upto(rows, c.start);
    BetweenIsSlice(rows, c.start, Cursor(c));
    RealPrefix(c.received, kept);
    var ids := Real(c.received[..kept]);
    SliceHasNoGap(rows, c.(received := c.received[..kept]), lo + |ids|);
  }

  /** Frames lost on the way to the client leave a shorter slice, and an earlier cursor. */
  lemma {:induction false} LoseKeeps(s: System, c: Client, kept: nat)
    requires Increasing(s.rows) && ExactlyOnce(s, c) && c.phase.Offline? && kept <= |c.received|
    ensures ExactlyOnce(s, c.(received := c.received[..kept]))
  {
    var d := c.(received := c.received[..kept]);
    LoseLeavesNoGap(s.rows, c, kept);
    assert Splices(s, Offline, Cursor(d), 0);
  }

  /** Receiving the row just past the cursor moves the cursor to it and leaves no gap. */
  lemma {:induction false} ReceiveNext(rows: seq<Row>, c: Client, k: nat)
    requires Increasing(rows) && k < |rows| && k == Upto(rows, Cursor(c)) && NoGapNoDuplicate(rows, c)
    ensures var d := c.(received := c.received + [Env(rows[k])]);
      && Cursor(d) == rows[k].id && Cursor(c) < rows[k].id && Upto(rows, rows[k].id) == k + 1
      && NoGapNoDuplicate(rows, d)
  {
    var cur := Cursor(c);
    UptoSplits(rows, cur);
    UptoOfRow(rows, k);
    RealSnoc(c.received, Env(rows[k]));
    BetweenIsSlice(rows, c.start, cur);
    BetweenIsSlice(rows, c.start, rows[k].id);
    EnvsSnoc(rows, Upto(rows, c.start), k);
  }

  lemma {:induction false} CommitSplices(s: System, row: Row, phase: Phase, cur: nat, a: nat)
    requires |s.rows| > 0 ==> s.rows[|s.rows| - 1].id < row.id
    requires Splices(s, phase, cur, a)
    ensures Splices(s.(rows := s.rows + [row]), phase, cur, a)
  {
  }

  lemma {:induction false} CommitKeeps(s: System, row: Row, c: Client)
    requires Increasing(s.rows) && s.published <= |s.rows| && ExactlyOnce(s, c) && Enabled(s, Commit(row), true)
    ensures ExactlyOnce(Step(s, Commit(row)), c)
  {
    var a: nat :| Splices(s, c.phase, Cursor(c), a);
    CommitSplices(s, row, c.phase, Cursor(c), a);
  }

  lemma {:induction false} OfferQueue(s: System, t: System, queue: seq<Envelope>, inHub: bool, a: nat, e: Envelope)
    requires QueueFrom(s, queue, inHub, a) && t.rows == s.rows
    requires if e.id.None? then t.published == s.published
             else s.published < |s.rows| && e == Env(s.rows[s.published]) && t.published == s.published + 1
    ensures if inHub then QueueFrom(t, Offered(s.maxsize, queue, e), !Full(s.maxsize, queue), a)
            else QueueFrom(t, queue, inHub, a)
  {
    if e.id.None? {
      RealSnoc(queue, e);
    } else if inHub {
    }
  }

  lemma {:induction false} OfferSplices(s: System, e: Envelope, phase: Phase, cur: nat, a: nat, t: System)
    requires !phase.Offline? && Splices(s, phase, cur, a) && t.rows == s.rows
    requires if e.id.None? then t.published == s.published
             else s.published < |s.rows| && e == Env(s.rows[s.published]) && t.published == s.published + 1
    ensures if phase.inHub
      then Splices(t, phase.(queue := Offered(s.maxsize, phase.queue, e), inHub := !Full(s.maxsize, phase.queue)),
                   cur, a)
      else Splices(t, phase, cur, a)
  {
    OfferQueue(s, t, phase.queue, phase.inHub, a, e);
  }

  lemma {:induction false} OfferKeeps(s: System, e: Envelope, c: Client, t: System)
    requires s.published <= |s.rows| && ExactlyOnce(s, c) && t.rows == s.rows
    requires if e.id.None? then t.published == s.published
             else s.published < |s.rows| && e == Env(s.rows[s.published]) && t.published == s.published + 1
    ensures ExactlyOnce(t, Offer(s.maxsize, c, e))
  {
    var a: nat :| Splices(s, c.phase, Cursor(c), a);
    if !c.phase.Offline? {
      OfferSplices(s, e, c.phase, Cursor(c), a, t);
    }
    assert Splices(t, Offer(s.maxsize, c, e).phase, Cursor(c), a);
  }

  lemma {:induction false} EnvsHead(rows: seq<Row>, a: nat, n: nat, e: Envelope, rest: seq<Envelope>)
    requires a + 1 + n <= |rows| && |rest| == n && [e] + rest == Envs(rows[a..a + 1 + n])
    ensures e == Env(rows[a]) && rest == Envs(rows[a + 1..a + 1 + n])
  {
    var envs := Envs(rows[a..a + 1 + n]);
    assert e == envs[0];
    forall k | 0 <= k < n ensures rest[k] == Env(rows[a + 1 + k]) {
      assert rest[k] == ([e] + rest)[k + 1];
    }
  }

  lemma {:induction false} QueueTail(s: System, queue: seq<Envelope>, inHub: bool, a: nat)
    requires QueueFrom(s, queue, inHub, a) && queue != []
    ensures queue[0].id.Some? ==> a < |s.rows| && queue[0] == Env(s.rows[a])
    ensures QueueFrom(s, queue[1..], inHub, if queue[0].id.Some? then a + 1 else a)
  {
    RealTail(queue);
    if queue[0].id.Some? {
      EnvsHead(s.rows, a, |Real(queue[1..])|, queue[0], Real(queue[1..]));
    }
  }

  /** A real item at or below the mark is dropped; above it, it is the row right after the mark. */
  lemma {:induction false} TakeReal(s: System, c: Client, a: nat)
    requires Increasing(s.rows) && NoGapNoDuplicate(s.rows, c)
    requires c.phase.Streaming? && c.phase.queue != [] && c.phase.highWater == Cursor(c)
    requires a < |s.rows| && a <= Upto(s.rows, Cursor(c)) && c.phase.queue[0] == Env(s.rows[a])
    ensures NoGapNoDuplicate(s.rows, Take(c)) && Take(c).phase.highWater == Cursor(Take(c))
    ensures a + 1 <= Upto(s.rows, Cursor(Take(c)))
  {
    UptoSplits(s.rows, Cursor(c));
    if s.rows[a].id > Cursor(c) {
      ReceiveNext(s.rows, c, a);
      var d := c.(received := c.received + [Env(s.rows[a])]);
      assert Take(c).received == d.received && Take(c).start == d.start && Cursor(Take(c)) == Cursor(d);
    } else {
      assert Take(c).received == c.received && Cursor(Take(c)) == Cursor(c);
    }
  }

  lemma {:induction false} TakeNote(s: System, c: Client, a: nat)
    requires c.phase.Streaming? && c.phase.queue != [] && c.phase.queue[0].id.None?
    requires NoGapNoDuplicate(s.rows, c) && Splices(s, c.phase, Cursor(c), a)
    requires QueueFrom(s, c.phase.queue[1..], c.phase.inHub, a)
    ensures NoGapNoDuplicate(s.rows, Take(c)) && Splices(s, Take(c).phase, Cursor(Take(c)), a)
  {
    var e := c.phase.queue[0];
    var d := c.(received := c.received + [e]);
    assert Take(c).received == d.received && Take(c).start == d.start && Cursor(Take(c)) == Cursor(d);
    assert Take(c).phase == Streaming(c.phase.backfill, c.phase.queue[1..], c.phase.inHub, c.phase.highWater);
  }

  lemma {:induction false} TakeKeeps(s: System, c: Client)
    requires Increasing(s.rows) && ExactlyOnce(s, c)
    requires c.phase.Streaming? && c.phase.backfill == [] && c.phase.queue != []
    ensures ExactlyOnce(s, Take(c))
  {
    var d := Take(c);
    var a: nat :| Splices(s, c.phase, Cursor(c), a);
    QueueTail(s, c.phase.queue, c.phase.inHub, a);
    if c.phase.queue[0].id.None? {
      TakeNote(s, c, a);
    } else {
      TakeReal(s, c, a);
      var u := Upto(s.rows, Cursor(d));
      assert s.rows[u..u] == [];
      assert Splices(s, d.phase, Cursor(d), a + 1);
    }
  }

  lemma {:induction false} YieldSplices(s: System, phase: Phase, cur: nat, a: nat)
    requires Increasing(s.rows) && phase.Streaming? && phase.backfill != [] && Splices(s, phase, cur, a)
    ensures var u := Upto(s.rows, cur);
      && u < |s.rows| && phase.backfill[0] == Env(s.rows[u])
      && Splices(s, Streaming(phase.backfill[1..], phase.queue, phase.inHub, s.rows[u].id), s.rows[u].id, a)
  {
    var u := Upto(s.rows, cur);
    UptoOfRow(s.rows, u);
  }

  lemma {:induction false} YieldKeeps(s: System, c: Client)
    requires Increasing(s.rows) && ExactlyOnce(s, c) && c.phase.Streaming? && c.phase.backfill != []
    ensures ExactlyOnce(s, YieldNext(c))
  {
    var a: nat :| Splices(s, c.phase, Cursor(c), a);
    var u := Upto(s.rows, Cursor(c));
    YieldSplices(s, c.phase, Cursor(c), a);
    ReceiveNext(s.rows, c, u);
    assert YieldNext(c).received == c.received + [Env(s.rows[u])];
  }

  lemma {:induction false} ReadTailKeeps(s: System, c: Client)
    requires Increasing(s.rows) && ExactlyOnce(s, c) && c.phase.Registered?
    ensures ExactlyOnce(s, ReadBack(s, c))
  {
    var a: nat :| Splices(s, c.phase, Cursor(c), a);
    CatchUpIsTail(s.rows, Cursor(c));
    var u := Upto(s.rows, Cursor(c));
    assert s.rows[u..] == s.rows[u..|s.rows|];
    assert Splices(s, ReadBack(s, c).phase, Cursor(c), a);
  }

  lemma {:induction false} StepKeepsExactlyOnce(s: System, a: Action)
    requires AllExactlyOnce(s) && Enabled(s, a, true) && Enabled(s, a, false)
    ensures AllExactlyOnce(Step(s, a))
  {
    var t := Step(s, a);
    forall c | c in t.clients ensures ExactlyOnce(t, t.clients[c]) {
      StepKeepsClient(s, a, c);
    }
  }

  /** A client's own step, before the rest of the system is looked at. */
  lemma {:induction false} OwnStepKeeps(s: System, a: Action)
    requires AllExactlyOnce(s) && Enabled(s, a, false)
    requires a.Register? || a.ReadTail? || a.Yield? || a.Drain? || a.Timeout? || a.Disconnect? || a.Lose?
    ensures ExactlyOnce(s, Step(s, a).clients[a.client])
  {
    var c := s.clients[a.client];
    var d := Step(s, a).clients[a.client];
    if a.Register? {
      assert QueueFrom(s, [], true, s.published);
      assert Splices(s, d.phase, Cursor(d), s.published);
    } else if a.ReadTail? {
      ReadTailKeeps(s, c);
    } else if a.Yield? {
      YieldKeeps(s, c);
    } else if a.Drain? {
      TakeKeeps(s, c);
    } else if a.Lose? {
      LoseKeeps(s, c, a.kept);
    } else if !a.Timeout? || !c.phase.inHub {
      assert Splices(s, Offline, Cursor(d), 0);
    }
  }

  lemma {:induction false} JoinKeeps(s: System, since: nat)
    requires Increasing(s.rows)
    ensures ExactlyOnce(s, Client(since, 0, [], Offline))
  {
    BetweenIsSlice(s.rows, since, since);
    assert Splices(s, Offline, since, 0);
  }

  /** What the log's side does to a client. */
  lemma {:induction false} LogStepKeeps(s: System, a: Action, c: nat)
    requires AllExactlyOnce(s) && Enabled(s, a, true) && Enabled(s, a, false) && c in s.clients
    requires a.Commit? || a.Publish? || a.Tell? || a.Restart?
    ensures ExactlyOnce(Step(s, a), Step(s, a).clients[c])
  {
    var t := Step(s, a);
    assert ExactlyOnce(s, s.clients[c]);
    match a
    case Commit(row) => CommitKeeps(s, row, s.clients[c]);
    case Publish(i) => OfferKeeps(s, Env(s.rows[i]), s.clients[c], t);
    case Tell(data) => OfferKeeps(s, Envelope(None, data), s.clients[c], t);
    case Restart => RestartKeeps(s, s.clients[c]);
  }

  lemma {:induction false} RestartKeeps(s: System, c: Client)
    requires ExactlyOnce(s, c)
    ensures ExactlyOnce(Step(s, Restart), c.(phase := Offline))
  {
    assert Splices(Step(s, Restart), Offline, Cursor(c), 0);
  }

  lemma {:induction false} StepKeepsClient(s: System, a: Action, c: nat)
    requires AllExactlyOnce(s) && Enabled(s, a, true) && Enabled(s, a, false) && c in Step(s, a).clients
    ensures ExactlyOnce(Step(s, a), Step(s, a).clients[c])
  {
    if a.Commit? || a.Publish? || a.Tell? || a.Restart? {
      LogStepKeeps(s, a, c);
    } else {
      var t := Step(s, a);
      if a.Join? {
        JoinKeeps(s, a.since);
      } else {
        OwnStepKeeps(s, a);
      }
      SameLog(s, t, t.clients[c]);
    }
  }

  /** Only the rows and `published` of the system matter to a client's claim. */
  lemma {:induction false} SameLog(s: System, t: System, c: Client)
    requires t.rows == s.rows && t.published == s.published && ExactlyOnce(s, c)
    ensures ExactlyOnce(t, c)
  {
    var a: nat :| Splices(s, c.phase, Cursor(c), a);
    assert Splices(t, c.phase, Cursor(c), a);
  }

  /**
   Exactly once over reconnects: with publishes in id order, the real ids any client receives over
   all its sessions, concatenated, are the committed rows after its first cursor up to its last id:
   no gap, no duplicate, payloads as stored.
   */
  lemma {:induction false} ExactlyOnceAlways(maxsize: int, acts: seq<Action>)
    requires After(maxsize, acts, true).Some?
    ensures AllExactlyOnce(After(maxsize, acts, true).value)
    ensures var s := After(maxsize, acts, true).value;
      forall c | c in s.clients ::
        Real(s.clients[c].received) == Between(s.rows, s.clients[c].start, Cursor(s.clients[c]))
  {
    if |acts| == 0 {
    } else {
      ExactlyOnceAlways(maxsize, acts[..|acts| - 1]);
      StepKeepsExactlyOnce(After(maxsize, acts[..|acts| - 1], true).value, acts[|acts| - 1]);
    }
  }

  lemma {:induction false} InSlice(rows: seq<Row>, lo: nat, hi: nat, k: nat)
    requires lo <= k < hi <= |rows|
    ensures Env(rows[k]) in Envs(rows[lo..hi])
  {
    assert Envs(rows[lo..hi])[k - lo] == Env(rows[k]);
  }

  /** A viewer that is still in the hub and has nothing left to take has received every published row. */
  lemma {:induction false} IdleViewerIsCaughtUp(s: System, c: Client, k: nat)
    requires Increasing(s.rows) && s.published <= |s.rows| && ExactlyOnce(s, c)
    requires c.phase.Streaming? && c.phase.inHub && c.phase.backfill == [] && c.phase.queue == []
    requires k < s.published && c.start < s.rows[k].id
    ensures Env(s.rows[k]) in Real(c.received)
  {
    var a: nat :| Splices(s, c.phase, Cursor(c), a);
    var lo, hi := Upto(s.rows, c.start), Upto(s.rows, Cursor(c));
    BetweenIsSlice(s.rows, c.start, Cursor(c));
    UptoSplits(s.rows, c.start);
    assert lo <= k < hi;
    InSlice(s.rows, lo, hi, k);
  }
}
