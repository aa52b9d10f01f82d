/**
 Streaming and folding put together: what a viewer receives is what its view still lacks.

 The stream is the one of `Protocol`, the view the one of `View`; the log they share is the one of
 `WriteAhead`, whose ids are the cursor of both.
 */
module Resume {
  import opened Prelude
  import Tables
  import opened Broadcast
  import opened Stream
  import opened Protocol
  import View

  function Find(log: seq<Tables.EventRow>, id: nat): Option<Tables.EventRow> {
    if |log| == 0 then None
    else if log[|log| - 1].id == id then Some(log[|log| - 1])
    else Find(log[..|log| - 1], id)
  }

  /** The log rows of the events received, in the order received; frames without an id carry none. */
  function Delivered(log: seq<Tables.EventRow>, envs: seq<Envelope>): seq<Tables.EventRow> {
    if |envs| == 0 then []
    else
      var rest, e := Delivered(log, envs[..|envs| - 1]), envs[|envs| - 1];
      if e.id.Some? && Find(log, e.id.value).Some? then rest + [Find(log, e.id.value).value] else rest
  }

  /** The event rows behind the stream's rows. */
  predicate Backs(log: seq<Tables.EventRow>, rows: seq<Row>) {
    |log| == |rows| && forall i | 0 <= i < |log| :: log[i].id == rows[i].id
  }

  lemma {:induction false} FindAt(log: seq<Tables.EventRow>, rows: seq<Row>, k: nat)
    requires Increasing(rows) && Backs(log, rows) && k < |log|
    ensures Find(log, log[k].id) == Some(log[k])
  {
    var n := |log| - 1;
    if k == n {
    } else {
      assert rows[k].id < rows[n].id;
      FindAt(log[..n], rows[..n], k);
    }
  }

  lemma {:induction false} OnlyRealDeliver(log: seq<Tables.EventRow>, envs: seq<Envelope>)
    ensures Delivered(log, Real(envs)) == Delivered(log, envs)
  {
    if |envs| == 0 {
    } else {
      OnlyRealDeliver(log, envs[..|envs| - 1]);
    }
  }

  lemma {:induction false} DeliveredNext(log: seq<Tables.EventRow>, rows: seq<Row>, lo: nat, k: nat)
    requires Increasing(rows) && Backs(log, rows) && lo <= k < |rows|
    requires Delivered(log, Envs(rows[lo..k])) == log[lo..k]
    ensures Delivered(log, Envs(rows[lo..k + 1])) == log[lo..k + 1]
  {
    EnvsSnoc(rows, lo, k);
    FindAt(log, rows, k);
    assert log[lo..k + 1] == log[lo..k] + [log[k]];
  }

  lemma {:induction false} DeliveredSlice(log: seq<Tables.EventRow>, rows: seq<Row>, lo: nat, hi: nat)
    requires Increasing(rows) && Backs(log, rows) && lo <= hi <= |rows|
    ensures Delivered(log, Envs(rows[lo..hi])) == log[lo..hi]
    decreases hi
  {
    if lo == hi {
      assert Envs(rows[lo..hi]) == [] && log[lo..hi] == [];
    } else {
      DeliveredSlice(log, rows, lo, hi - 1);
      DeliveredNext(log, rows, lo, hi - 1);
    }
  }

  lemma {:induction false} ResumeFrom(log: seq<Tables.EventRow>, lo: nat, hi: nat)
    requires lo <= hi <= |log|
    ensures View.FoldFrom(View.Fold(log[..lo]), log[lo..hi]) == View.Fold(log[..hi])
  {
    View.IncrementalIsBatch(log[..lo], log[lo..hi]);
    assert log[..lo] + log[lo..hi] == log[..hi];
  }

  /**
   The law that joins both halves: in every reachable state with publishes in id order, folding what a
   client has received over all its sessions onto the fold of the log up to its first cursor is the fold
   of the log up to its last id.
   */
  lemma {:induction false} ReceivedRowsResumeTheView(maxsize: int, acts: seq<Action>, c: nat, log: seq<Tables.EventRow>)
    requires After(maxsize, acts, true).Some? && c in After(maxsize, acts, true).value.clients
    requires Backs(log, After(maxsize, acts, true).value.rows)
    ensures var s := After(maxsize, acts, true).value;
      var client := s.clients[c];
      View.FoldFrom(View.Fold(log[..Upto(s.rows, client.start)]), Delivered(log, client.received))
        == View.Fold(log[..Upto(s.rows, Cursor(client))])
  {
    ExactlyOnceAlways(maxsize, acts);
    var s := After(maxsize, acts, true).value;
    var client := s.clients[c];
    assert ExactlyOnce(s, client);
    var lo, hi := Upto(s.rows, client.start), Upto(s.rows, Cursor(client));
    BetweenIsSlice(s.rows, client.start, Cursor(client));
    OnlyRealDeliver(log, client.received);
    DeliveredSlice(log, s.rows, lo, hi);
    ResumeFrom(log, lo, hi);
  }
}
