/**
 The in-process broadcast hub: one bounded queue per viewer. An envelope is offered, never awaited;
 a viewer whose queue is full is dropped and its queue keeps what it had.
 */
module Broadcast {
  import opened Prelude

  /** A real event carries its global id; a notification or heartbeat carries none. */
  datatype Envelope = Envelope(id: Option<nat>, data: string)

  /** asyncio.Queue: a maxsize of zero or less means unbounded. */
  predicate Full(maxsize: int, items: seq<Envelope>) { 0 < maxsize <= |items| }

  /** What one offer does to a viewer's queue. */
  function Offered(maxsize: int, items: seq<Envelope>, e: Envelope): seq<Envelope> {
    if Full(maxsize, items) then items else items + [e]
  }

  class Queue {
    const maxsize: int
    var items: seq<Envelope>

    constructor (maxsize: int)
      ensures this.maxsize == maxsize && items == []
    {
      this.maxsize := maxsize;
      items := [];
    }

    method PutNowait(e: Envelope) returns (ok: bool)
      modifies this
      ensures ok == !Full(maxsize, old(items)) == (maxsize <= 0 || |old(items)| < maxsize)
      ensures items == Offered(maxsize, old(items), e) == old(items) + if ok then [e] else []
    {
      ok := !(0 < maxsize <= |items|);
      if ok {
        items := items + [e];
      }
    }
  }

  class Hub {
    const maxsize: int
    var viewers: map<nat, Queue>
    var nextId: nat

    ghost predicate Valid()
      reads this, set v | v in viewers :: viewers[v]
    {
      && (forall v | v in viewers :: v < nextId && viewers[v].maxsize == maxsize)
      && (forall v, w | v in viewers && w in viewers && v != w :: viewers[v] != viewers[w])
    }

    constructor (maxsize: int)
      ensures Valid() && viewers == map[] && this.maxsize == maxsize
    {
      this.maxsize := maxsize;
      viewers := map[];
      nextId := 0;
    }

    method Register() returns (viewer: nat, queue: Queue)
      requires Valid()
      modifies this
      ensures Valid() && fresh(queue) && queue.items == [] && queue.maxsize == maxsize
      ensures viewer !in old(viewers) && viewers == old(viewers)[viewer := queue]
      ensures viewer == old(nextId) && nextId == old(nextId) + 1
    {
      queue := new Queue(maxsize);
      viewer := nextId;
      nextId := nextId + 1;
      viewers := viewers[viewer := queue];
    }

    /** Idempotent: deregistering an absent viewer changes nothing. */
    method Deregister(viewer: nat)
      requires Valid()
      modifies this
      ensures Valid() && viewers == old(viewers) - {viewer} && nextId == old(nextId)
    {
      viewers := viewers - {viewer};
    }

    /** Every viewer is offered the envelope; exactly those whose queue was full are dropped. */
    method Offer(e: Envelope)
      requires Valid()
      modifies this, set v | v in viewers :: viewers[v]
      ensures Valid() && nextId == old(nextId)
      ensures viewers.Keys == set v | v in old(viewers) && !Full(maxsize, old(viewers[v].items))
      ensures forall v | v in viewers :: viewers[v] == old(viewers[v])
      ensures forall v | v in old(viewers) :: old(viewers[v]).items == Offered(maxsize, old(viewers[v].items), e)
    {
      var all := viewers;
      var todo := all.Keys;
      while todo != {}
        invariant todo <= all.Keys && Valid() && nextId == old(nextId)
        invariant viewers.Keys == set v | v in all && (v in todo || !Full(maxsize, old(viewers[v].items)))
        invariant forall v | v in viewers :: viewers[v] == all[v]
        invariant forall v | v in all ::
          all[v].items == if v in todo then old(viewers[v].items) else Offered(maxsize, old(viewers[v].items), e)
        decreases todo
      {
        var v :| v in todo;
        todo := todo - {v};
        var ok := all[v].PutNowait(e);
        if !ok {
          Deregister(v);
        }
      }
    }

    method Publish(id: nat, payload: string)
      requires Valid()
      modifies this, set v | v in viewers :: viewers[v]
      ensures Valid() && nextId == old(nextId)
      ensures viewers.Keys == set v | v in old(viewers) && !Full(maxsize, old(viewers[v].items))
      ensures forall v | v in old(viewers) ::
        old(viewers[v]).items == Offered(maxsize, old(viewers[v].items), Envelope(Some(id), payload))
    {
      Offer(Envelope(Some(id), payload));
    }

    /** A notification carries no id; the empty payload is the heartbeat. */
    method Notify(payload: string)
      requires Valid()
      modifies this, set v | v in viewers :: viewers[v]
      ensures Valid() && nextId == old(nextId)
      ensures viewers.Keys == set v | v in old(viewers) && !Full(maxsize, old(viewers[v].items))
      ensures forall v | v in old(viewers) ::
        old(viewers[v]).items == Offered(maxsize, old(viewers[v].items), Envelope(None, payload))
    {
      Offer(Envelope(None, payload));
    }
  }
}
