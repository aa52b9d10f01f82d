/**
 One viewer's stream as the source runs it, on the hub's own queues: register first, then read the
 tail, then splice the live queue in above the mark, end when dropped, and deregister in any case.

 It is proved against the client of `Protocol` under the same offers and turns.
 */
module Session {
  import opened Broadcast
  import opened Stream
  import opened Protocol

  /** Between two turns of the session the hub may offer anything to every viewer. */
  datatype Wake = Offering(e: Envelope) | Turn

  /** The session's own turn in the protocol: yield, take, or wait in vain. */
  function TakesTurn(c: Client): Client {
    if !c.phase.Streaming? then c
    else if c.phase.backfill != [] then YieldNext(c)
    else if c.phase.queue != [] then Take(c)
    else WaitOver(c)
  }

  function Lived(maxsize: int, c: Client, wakes: seq<Wake>): Client {
    if |wakes| == 0 then c
    else
      var before, last := Lived(maxsize, c, wakes[..|wakes| - 1]), wakes[|wakes| - 1];
      if last.Offering? then Protocol.Offer(maxsize, before, last.e) else TakesTurn(before)
  }

  /** A session that is offered `early` before it reads the tail of `rows`, as the protocol has it. */
  function Opened(maxsize: int, rows: seq<Row>, lastSeen: nat, early: seq<Wake>): Client {
    var c := Lived(maxsize, Client(lastSeen, 0, [], Registered([], true)), early);
    if c.phase.Registered?
    then c.(phase := Streaming(CatchUp(rows, lastSeen), c.phase.queue, c.phase.inHub, lastSeen)) else c
  }

  lemma {:induction false} LivedSnoc(maxsize: int, c: Client, wakes: seq<Wake>, i: nat)
    requires i < |wakes|
    ensures Lived(maxsize, c, wakes[..i + 1]) ==
      if wakes[i].Offering? then Protocol.Offer(maxsize, Lived(maxsize, c, wakes[..i]), wakes[i].e)
      else TakesTurn(Lived(maxsize, c, wakes[..i]))
  {
    assert wakes[..i + 1][..i] == wakes[..i];
  }

  lemma {:induction false} EarlyStaysRegistered(maxsize: int, lastSeen: nat, early: seq<Wake>)
    ensures var c := Lived(maxsize, Client(lastSeen, 0, [], Registered([], true)), early);
      c.phase.Registered? && c.received == [] && c.start == lastSeen && c.base == 0
  {
    if |early| == 0 {
    } else {
      EarlyStaysRegistered(maxsize, lastSeen, early[..|early| - 1]);
    }
  }

  lemma {:induction false} OfflineStays(maxsize: int, c: Client, wakes: seq<Wake>, i: nat)
    requires i <= |wakes| && Lived(maxsize, c, wakes[..i]).phase.Offline?
    ensures Lived(maxsize, c, wakes) == Lived(maxsize, c, wakes[..i])
    decreases |wakes|
  {
    if i == |wakes| {
      assert wakes[..i] == wakes;
    } else {
      assert wakes[..|wakes| - 1][..i] == wakes[..i];
      OfflineStays(maxsize, c, wakes[..|wakes| - 1], i);
    }
  }

  /** The viewer's queue is its own, and in the hub exactly as long as the protocol has it so. */
  ghost predicate HubHolds(hub: Hub, viewer: nat, queue: Queue, items: seq<Envelope>, inHub: bool)
    reads hub, queue, set v | v in hub.viewers :: hub.viewers[v]
  {
    && hub.Valid() && queue.items == items
    && (viewer in hub.viewers <==> inHub)
    && (forall v | v in hub.viewers :: hub.viewers[v] == queue <==> v == viewer)
  }

  method OfferAround(hub: Hub, e: Envelope, viewer: nat, queue: Queue, ghost inHub: bool)
    requires HubHolds(hub, viewer, queue, queue.items, inHub)
    modifies hub, queue, set v | v in hub.viewers :: hub.viewers[v]
    ensures hub.viewers.Keys <= old(hub.viewers).Keys
      && forall v | v in hub.viewers :: hub.viewers[v] == old(hub.viewers[v])
    ensures if inHub
      then HubHolds(hub, viewer, queue, Offered(hub.maxsize, old(queue.items), e), !Full(hub.maxsize, old(queue.items)))
      else HubHolds(hub, viewer, queue, old(queue.items), false)
  {
    hub.Offer(e);
  }

  /** What the hub offers while the viewer has registered but not yet read the tail. */
  method Await(hub: Hub, early: seq<Wake>, viewer: nat, queue: Queue, ghost lastSeen: nat)
    requires HubHolds(hub, viewer, queue, [], true)
    modifies hub, queue, set v | v in hub.viewers :: hub.viewers[v]
    ensures hub.viewers.Keys <= old(hub.viewers).Keys
      && forall v | v in hub.viewers :: hub.viewers[v] == old(hub.viewers[v])
    ensures var c := Lived(hub.maxsize, Client(lastSeen, 0, [], Registered([], true)), early);
      c.phase.Registered? && HubHolds(hub, viewer, queue, c.phase.queue, c.phase.inHub)
  {
    ghost var start := Client(lastSeen, 0, [], Registered([], true));
    for i := 0 to |early|
      invariant hub.viewers.Keys <= old(hub.viewers).Keys
        && forall v | v in hub.viewers :: hub.viewers[v] == old(hub.viewers[v])
      invariant var c := Lived(hub.maxsize, start, early[..i]);
        c.phase.Registered? && HubHolds(hub, viewer, queue, c.phase.queue, c.phase.inHub)
    {
      LivedSnoc(hub.maxsize, start, early, i);
      EarlyStaysRegistered(hub.maxsize, lastSeen, early[..i]);
      if early[i].Offering? {
        OfferAround(hub, early[i].e, viewer, queue, Lived(hub.maxsize, start, early[..i]).phase.inHub);
      }
    }
    assert early[..|early|] == early;
  }

  method StreamEvents(hub: Hub, rows: seq<Row>, lastSeen: nat, early: seq<Wake>, wakes: seq<Wake>)
    returns (out: seq<Envelope>, viewer: nat)
    requires hub.Valid()
    modifies hub, set v | v in hub.viewers :: hub.viewers[v]
    ensures out == Lived(hub.maxsize, Opened(hub.maxsize, rows, lastSeen, early), wakes).received
    ensures hub.Valid() && viewer !in hub.viewers && viewer !in old(hub.viewers)
    ensures hub.viewers.Keys <= old(hub.viewers).Keys
      && forall v | v in hub.viewers :: hub.viewers[v] == old(hub.viewers[v])
  {
    var queue;
    viewer, queue := hub.Register();
    Await(hub, early, viewer, queue, lastSeen);
    EarlyStaysRegistered(hub.maxsize, lastSeen, early);
    var backfill, yielded, highWater := CatchUp(rows, lastSeen), 0, lastSeen;
    ghost var first := Opened(hub.maxsize, rows, lastSeen, early);
    ghost var c := first;
    out := [];
    for i := 0 to |wakes|
      invariant yielded <= |backfill| && c == Lived(hub.maxsize, first, wakes[..i]) && out == c.received
      invariant c.phase.Streaming? && c.phase.backfill == backfill[yielded..] && c.phase.highWater == highWater
      invariant HubHolds(hub, viewer, queue, c.phase.queue, c.phase.inHub)
      invariant forall v | v in hub.viewers ::
        v == viewer || (v in old(hub.viewers) && hub.viewers[v] == old(hub.viewers[v]))
    {
      LivedSnoc(hub.maxsize, first, wakes, i);
      c := Lived(hub.maxsize, first, wakes[..i + 1]);
      if wakes[i].Offering? {
        OfferAround(hub, wakes[i].e, viewer, queue, Lived(hub.maxsize, first, wakes[..i]).phase.inHub);
      } else if yielded < |backfill| {
        var e := backfill[yielded];
        out := out + [e];
        if e.id.Some? && e.id.value > highWater {
          highWater := e.id.value;
        }
        yielded := yielded + 1;
      } else if queue.items == [] {
        if viewer !in hub.viewers {
          OfflineStays(hub.maxsize, first, wakes, i + 1);
          hub.Deregister(viewer);
          return;
        }
      } else {
        var e := queue.items[0];
        queue.items := queue.items[1..];
        if e.id.None? {
          out := out + [e];
        } else if e.id.value > highWater {
          highWater := e.id.value;
          out := out + [e];
        }
      }
    }
    assert wakes[..|wakes|] == wakes;
    hub.Deregister(viewer);
  }
}
