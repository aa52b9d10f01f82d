/**
 The streaming protocol: register with the hub, replay the log tail, splice the live queue in above
 a high-water mark, end when dropped, reconnect from the last id received.

 Here are its parts; `Protocol` puts them together.
 */
module Stream {
  import opened Prelude
  import opened Broadcast

  /** A committed event: its global id and its stored payload. */
  datatype Row = Row(id: nat, data: string)

  predicate Increasing(rows: seq<Row>) { forall i, j | 0 <= i < j < |rows| :: rows[i].id < rows[j].id }

  function Env(r: Row): Envelope { Envelope(Some(r.id), r.data) }

  function Envs(rows: seq<Row>): seq<Envelope> {
    seq(|rows|, i requires 0 <= i < |rows| => Env(rows[i]))
  }

  /** The committed events with lo < id <= hi, in id order. */
  function Between(rows: seq<Row>, lo: nat, hi: nat): seq<Envelope> {
    if |rows| == 0 then []
    else
      var rest := Between(rows[..|rows| - 1], lo, hi);
      if lo < rows[|rows| - 1].id <= hi then rest + [Env(rows[|rows| - 1])] else rest
  }

  /** SELECT ... WHERE id > last_seen ORDER BY id. */
  function CatchUp(rows: seq<Row>, lastSeen: nat): seq<Envelope> {
    if |rows| == 0 then []
    else
      var rest := CatchUp(rows[..|rows| - 1], lastSeen);
      if lastSeen < rows[|rows| - 1].id then rest + [Env(rows[|rows| - 1])] else rest
  }

  /** The envelopes that carry an id. */
  function Real(envs: seq<Envelope>): seq<Envelope> {
    if |envs| == 0 then []
    else
      var rest := Real(envs[..|envs| - 1]);
      if envs[|envs| - 1].id.Some? then rest + [envs[|envs| - 1]] else rest
  }

  // ----- one session -----

  function Mark(highWater: nat, e: Envelope): nat {
    if e.id.Some? && e.id.value > highWater then e.id.value else highWater
  }

  predicate Passes(highWater: nat, e: Envelope) { e.id.None? || e.id.value > highWater }

  function Marks(highWater: nat, envs: seq<Envelope>): nat {
    if |envs| == 0 then highWater else Mark(Marks(highWater, envs[..|envs| - 1]), envs[|envs| - 1])
  }

  /** What the live loop yields of the envelopes it takes off its queue. */
  function Accepted(highWater: nat, envs: seq<Envelope>): seq<Envelope> {
    if |envs| == 0 then []
    else
      var init := envs[..|envs| - 1];
      if Passes(Marks(highWater, init), envs[|envs| - 1])
      then Accepted(highWater, init) + [envs[|envs| - 1]] else Accepted(highWater, init)
  }

  /** How many rows have an id at or below x. */
  function Upto(rows: seq<Row>, x: nat): (n: nat)
    ensures n <= |rows|
  {
    if |rows| == 0 || rows[|rows| - 1].id <= x then |rows| else Upto(rows[..|rows| - 1], x)
  }

  lemma {:induction false} UptoSplits(rows: seq<Row>, x: nat)
    requires Increasing(rows)
    ensures forall k | 0 <= k < |rows| :: rows[k].id <= x <==> k < Upto(rows, x)
  {
    if |rows| == 0 {
    } else {
      UptoSplits(rows[..|rows| - 1], x);
    }
  }

  lemma {:induction false} UptoIs(rows: seq<Row>, x: nat, n: nat)
    requires Increasing(rows) && n <= |rows|
    requires forall k | 0 <= k < |rows| :: rows[k].id <= x <==> k < n
    ensures Upto(rows, x) == n
  {
    if |rows| == 0 || rows[|rows| - 1].id <= x {
    } else {
      UptoIs(rows[..|rows| - 1], x, n);
    }
  }

  lemma {:induction false} EnvsSnoc(rows: seq<Row>, lo: nat, k: nat)
    requires lo <= k < |rows|
    ensures Envs(rows[lo..k + 1]) == Envs(rows[lo..k]) + [Env(rows[k])]
  {
  }

  lemma {:induction false} BetweenIsSlice(rows: seq<Row>, lo: nat, hi: nat)
    requires Increasing(rows) && lo <= hi
    ensures Upto(rows, lo) <= Upto(rows, hi)
    ensures Between(rows, lo, hi) == Envs(rows[Upto(rows, lo)..Upto(rows, hi)])
  {
    if |rows| == 0 {
    } else {
      var n := |rows| - 1;
      var init, id := rows[..n], rows[n].id;
      BetweenIsSlice(init, lo, hi);
      var i, j := Upto(init, lo), Upto(init, hi);
      assert init[i..j] == rows[i..j];
      if id <= hi {
        assert j == n;
        if lo < id {
          EnvsSnoc(rows, i, n);
        } else {
          assert i == n;
        }
      }
    }
  }

  lemma {:induction false} CatchUpIsTail(rows: seq<Row>, x: nat)
    requires Increasing(rows)
    ensures CatchUp(rows, x) == Envs(rows[Upto(rows, x)..])
  {
    if |rows| == 0 {
    } else {
      var init := rows[..|rows| - 1];
      CatchUpIsTail(init, x);
      if x < rows[|rows| - 1].id {
        assert rows[Upto(rows, x)..] == init[Upto(rows, x)..] + [rows[|rows| - 1]];
      }
    }
  }

  /** A queue item is an id-less frame or a committed row. */
  predicate Committed(rows: seq<Row>, e: Envelope) { e.id.Some? ==> e in Envs(rows) }

  predicate AllCommitted(rows: seq<Row>, envs: seq<Envelope>) {
    forall k | 0 <= k < |envs| :: Committed(rows, envs[k])
  }

  /** No offered row lies beyond a committed row the session has not reached. */
  predicate NoJump(rows: seq<Row>, highWater: nat, envs: seq<Envelope>) {
    |envs| == 0 ||
    var init, e := envs[..|envs| - 1], envs[|envs| - 1];
    && NoJump(rows, highWater, init)
    && (e.id.Some? ==> Upto(rows, e.id.value) <= Upto(rows, Marks(highWater, init)) + 1)
  }

  lemma {:induction false} MarksGrow(highWater: nat, envs: seq<Envelope>)
    ensures highWater <= Marks(highWater, envs)
  {
    if |envs| == 0 {
    } else {
      MarksGrow(highWater, envs[..|envs| - 1]);
    }
  }

  lemma {:induction false} UptoOfRow(rows: seq<Row>, k: nat)
    requires Increasing(rows) && k < |rows|
    ensures Upto(rows, rows[k].id) == k + 1
  {
    UptoIs(rows, rows[k].id, k + 1);
  }

  /** Beyond the mark, a session holds at most the rows it has passed, and exactly those unless it jumped. */
  predicate SessionHolds(rows: seq<Row>, highWater: nat, envs: seq<Envelope>) {
    var lo, hi := Upto(rows, highWater), Upto(rows, Marks(highWater, envs));
    && lo <= hi
    && (if NoJump(rows, highWater, envs) then Real(Accepted(highWater, envs)) == Envs(rows[lo..hi])
        else |Real(Accepted(highWater, envs))| < hi - lo)
  }

  lemma {:induction false} SessionStep(rows: seq<Row>, highWater: nat, init: seq<Envelope>, e: Envelope)
    requires Increasing(rows) && Committed(rows, e) && SessionHolds(rows, highWater, init)
    ensures SessionHolds(rows, highWater, init + [e])
  {
    var m := Marks(highWater, init);
    assert (init + [e])[..|init|] == init;
    if e.id.Some? {
      var k :| 0 <= k < |rows| && e == Env(rows[k]);
      UptoOfRow(rows, k);
      UptoSplits(rows, m);
      if e.id.value > m && k == Upto(rows, m) {
        EnvsSnoc(rows, Upto(rows, highWater), k);
      }
    }
  }

  lemma {:induction false} SessionAlways(rows: seq<Row>, highWater: nat, envs: seq<Envelope>)
    requires Increasing(rows) && AllCommitted(rows, envs)
    ensures SessionHolds(rows, highWater, envs)
  {
    if |envs| == 0 {
    } else {
      SessionAlways(rows, highWater, envs[..|envs| - 1]);
      SessionStep(rows, highWater, envs[..|envs| - 1], envs[|envs| - 1]);
      assert envs == envs[..|envs| - 1] + [envs[|envs| - 1]];
    }
  }

  /**
   The publisher's side of it: when a committed row is offered, every committed row the session lacks
   up to it has been offered by then.
   */
  predicate OfferedInOrder(rows: seq<Row>, highWater: nat, envs: seq<Envelope>) {
    forall k | 0 <= k < |envs| :: LackedBefore(rows, highWater, envs[..k], envs[k])
  }

  /** Every row from the first the session lacks up to `e` is among `init` or is `e`. */
  predicate LackedBefore(rows: seq<Row>, highWater: nat, init: seq<Envelope>, e: Envelope) {
    e.id.Some? ==> forall i | Upto(rows, highWater) <= i < Upto(rows, e.id.value) :: Env(rows[i]) in init + [e]
  }

  lemma {:induction false} AcceptedWereOffered(highWater: nat, envs: seq<Envelope>)
    ensures forall e | e in Real(Accepted(highWater, envs)) :: e in envs
  {
    if |envs| == 0 {
    } else {
      var init, e := envs[..|envs| - 1], envs[|envs| - 1];
      AcceptedWereOffered(highWater, init);
      assert envs == init + [e];
    }
  }

  lemma {:induction false} MarksCover(highWater: nat, envs: seq<Envelope>)
    ensures forall e | e in envs && e.id.Some? :: e.id.value <= Marks(highWater, envs)
  {
    if |envs| == 0 {
    } else {
      MarksCover(highWater, envs[..|envs| - 1]);
      assert envs == envs[..|envs| - 1] + [envs[|envs| - 1]];
    }
  }

  /** A gap-free session part got every row it passed, so each of them was offered. */
  lemma {:induction false} PassedWereOffered(rows: seq<Row>, highWater: nat, init: seq<Envelope>)
    requires Increasing(rows) && AllCommitted(rows, init) && NoJump(rows, highWater, init)
    ensures forall i | Upto(rows, highWater) <= i < Upto(rows, Marks(highWater, init)) :: Env(rows[i]) in init
  {
    var lo, hi := Upto(rows, highWater), Upto(rows, Marks(highWater, init));
    SessionAlways(rows, highWater, init);
    AcceptedWereOffered(highWater, init);
    var got := Real(Accepted(highWater, init));
    forall i | lo <= i < hi ensures Env(rows[i]) in init {
      assert got[i - lo] == Env(rows[i]);
    }
  }

  /** After a gap-free session part, an offer jumps over nothing exactly if nothing lacked before it is missing. */
  lemma {:induction false} NextOffer(rows: seq<Row>, highWater: nat, init: seq<Envelope>, e: Envelope)
    requires Increasing(rows) && AllCommitted(rows, init) && Committed(rows, e) && e.id.Some?
      && NoJump(rows, highWater, init)
    ensures Upto(rows, e.id.value) <= Upto(rows, Marks(highWater, init)) + 1 <==> LackedBefore(rows, highWater, init, e)
  {
    var hi := Upto(rows, Marks(highWater, init));
    var at :| 0 <= at < |rows| && e == Env(rows[at]);
    UptoOfRow(rows, at);
    UptoSplits(rows, Marks(highWater, init));
    SessionAlways(rows, highWater, init);
    PassedWereOffered(rows, highWater, init);
    MarksCover(highWater, init);
    if at > hi {
      assert Env(rows[hi]) != e && Env(rows[hi]) !in init;
    }
  }

  lemma {:induction false} NoJumpIffOfferedInOrder(rows: seq<Row>, highWater: nat, envs: seq<Envelope>)
    requires Increasing(rows) && AllCommitted(rows, envs)
    ensures NoJump(rows, highWater, envs) <==> OfferedInOrder(rows, highWater, envs)
  {
    if |envs| == 0 {
    } else {
      var init, e := envs[..|envs| - 1], envs[|envs| - 1];
      NoJumpIffOfferedInOrder(rows, highWater, init);
      assert forall k | 0 <= k < |init| :: envs[..k] == init[..k];
      assert OfferedInOrder(rows, highWater, envs) <==>
        (OfferedInOrder(rows, highWater, init) && LackedBefore(rows, highWater, init, e));
      if NoJump(rows, highWater, init) && e.id.Some? {
        NextOffer(rows, highWater, init, e);
      }
    }
  }

  /**
   With publishes in any order, a session misses no committed row if and only if each row was offered
   only after, or with, all the committed rows before it that the session still lacked.
   */
  lemma {:induction false} GapFreeIff(rows: seq<Row>, highWater: nat, envs: seq<Envelope>)
    requires Increasing(rows) && AllCommitted(rows, envs)
    ensures Real(Accepted(highWater, envs)) == Between(rows, highWater, Marks(highWater, envs))
      <==> OfferedInOrder(rows, highWater, envs)
  {
    MarksGrow(highWater, envs);
    SessionAlways(rows, highWater, envs);
    BetweenIsSlice(rows, highWater, Marks(highWater, envs));
    NoJumpIffOfferedInOrder(rows, highWater, envs);
  }

  /** The heartbeats and notifications. */
  function Notes(envs: seq<Envelope>): seq<Envelope> {
    if |envs| == 0 then []
    else
      var rest := Notes(envs[..|envs| - 1]);
      if envs[|envs| - 1].id.None? then rest + [envs[|envs| - 1]] else rest
  }

  /** Id-less envelopes bypass the dedup: every one is yielded, in order, and none moves the mark. */
  lemma {:induction false} NotesPassThrough(highWater: nat, envs: seq<Envelope>)
    ensures Notes(Accepted(highWater, envs)) == Notes(envs)
    ensures Marks(highWater, envs) == Marks(highWater, Real(envs))
  {
    if |envs| == 0 {
    } else {
      var init, e := envs[..|envs| - 1], envs[|envs| - 1];
      NotesPassThrough(highWater, init);
      assert (Accepted(highWater, init) + [e])[..|Accepted(highWater, init)|] == Accepted(highWater, init);
      assert (Real(init) + [e])[..|Real(init)|] == Real(init);
    }
  }
}
