/**
 The in-memory event store of the relay: a queue that the WebSocket message
 handler appends raw payloads to, and that each poll of the HTTP endpoint
 drains completely.

 The queue keeps, as ghost state, the history of every payload ever appended
 and the sequence of batches every drain has returned. Its invariant says that
 the drained batches, concatenated oldest first, followed by what is still
 queued, are exactly the append history: nothing is lost, nothing is
 duplicated, nothing is reordered.
 */
module EventStore {

  /** The batches one after the other, oldest first. */
  function Flatten(batches: seq<seq<string>>): seq<string>
  {
    if batches == [] then [] else batches[0] + Flatten(batches[1..])
  }

  /** Where batch k starts inside Flatten(batches). */
  function Offset(batches: seq<seq<string>>, k: nat): nat
    requires k <= |batches|
  {
    |Flatten(batches[..k])|
  }

  /** Position i of the flattened history was delivered by batch k. */
  predicate InBatch(batches: seq<seq<string>>, k: nat, i: nat)
    requires k < |batches|
  {
    Offset(batches, k) <= i < Offset(batches, k) + |batches[k]|
  }

  lemma {:induction false} FlattenConcat(a: seq<seq<string>>, b: seq<seq<string>>)
    ensures Flatten(a + b) == Flatten(a) + Flatten(b)
  {
    if a == [] {
      assert a + b == b;
    } else {
      assert (a + b)[0] == a[0];
      assert (a + b)[1..] == a[1..] + b;
      FlattenConcat(a[1..], b);
    }
  }

  /** Recording one more drained batch extends the delivered history by exactly that batch. */
  lemma {:induction false} FlattenSnoc(batches: seq<seq<string>>, batch: seq<string>)
    ensures Flatten(batches + [batch]) == Flatten(batches) + batch
  {
    FlattenConcat(batches, [batch]);
    assert Flatten([batch]) == batch + Flatten([]);
  }

  /** Batch k occupies the positions right after batch k - 1. */
  lemma {:induction false} OffsetStep(batches: seq<seq<string>>, k: nat)
    requires k < |batches|
    ensures Offset(batches, k + 1) == Offset(batches, k) + |batches[k]|
  {
    assert batches[..k + 1] == batches[..k] + [batches[k]];
    FlattenSnoc(batches[..k], batches[k]);
  }

  /** Later batches start no earlier than earlier ones end. */
  lemma {:induction false} OffsetMonotone(batches: seq<seq<string>>, j: nat, k: nat)
    requires j < k <= |batches|
    ensures Offset(batches, j) + |batches[j]| <= Offset(batches, k)
  {
    OffsetStep(batches, j);
    assert batches[..k] == batches[..j + 1] + batches[j + 1..k];
    FlattenConcat(batches[..j + 1], batches[j + 1..k]);
  }

  /** The j-th payload of batch k is at position Offset(batches, k) + j of the delivered history. */
  lemma {:induction false} FlattenAt(batches: seq<seq<string>>, k: nat, j: nat)
    requires k < |batches| && j < |batches[k]|
    ensures Offset(batches, k) + j < |Flatten(batches)|
    ensures Flatten(batches)[Offset(batches, k) + j] == batches[k][j]
  {
    assert batches == batches[..k + 1] + batches[k + 1..];
    FlattenConcat(batches[..k + 1], batches[k + 1..]);
    assert batches[..k + 1] == batches[..k] + [batches[k]];
    FlattenSnoc(batches[..k], batches[k]);
  }

  /** Every delivered position was returned by some drain. */
  lemma {:induction false} DeliveredBySomeBatch(batches: seq<seq<string>>, i: nat)
    requires i < |Flatten(batches)|
    ensures exists k :: 0 <= k < |batches| && InBatch(batches, k, i)
  {
    var n := |batches|;
    assert n > 0;
    var init := batches[..n - 1];
    assert batches == init + [batches[n - 1]];
    FlattenSnoc(init, batches[n - 1]);
    assert batches[..n - 1] == init;
    if i < |Flatten(init)| {
      DeliveredBySomeBatch(init, i);
      var k :| 0 <= k < |init| && InBatch(init, k, i);
      assert init[..k] == batches[..k];
      assert InBatch(batches, k, i);
    } else {
      assert InBatch(batches, n - 1, i);
    }
  }

  /** No delivered position was returned by two different drains. */
  lemma DeliveredByOneBatch(batches: seq<seq<string>>, i: nat, j: nat, k: nat)
    requires j < |batches| && k < |batches|
    requires InBatch(batches, j, i) && InBatch(batches, k, i)
    ensures j == k
  {
    if j < k {
      OffsetMonotone(batches, j, k);
    } else if k < j {
      OffsetMonotone(batches, k, j);
    }
  }

  /**
   The event queue (`eventsQueue` and its two users). `queue` is the array the
   program keeps; `history` and `batches` are ghost records of every append and
   of every drain's result.
   */
  class EventQueue {
    var queue: seq<string>
    ghost var history: seq<string>
    ghost var batches: seq<seq<string>>

    /** Drained batches followed by the current queue are exactly the append history. */
    ghost predicate Valid()
      reads this
    {
      Flatten(batches) + queue == history
    }

    /** The queue starts empty. */
    constructor ()
      ensures Valid()
      ensures queue == [] && history == [] && batches == []
    {
      queue, history, batches := [], [], [];
    }

    /** storeEvent: adds the payload, verbatim, at the end of the queue. */
    method Append(payload: string)
      requires Valid()
      modifies this
      ensures Valid()
      ensures queue == old(queue) + [payload]
      ensures history == old(history) + [payload]
      ensures batches == old(batches)
    {
      queue := queue + [payload];
      history := history + [payload];
    }

    /** The /events handler: takes the whole queue and replaces it with an empty one. */
    method DrainAll() returns (drained: seq<string>)
      requires Valid()
      modifies this
      ensures Valid()
      ensures drained == old(queue)
      ensures queue == []
      ensures batches == old(batches) + [drained]
      ensures history == old(history)
    {
      drained := queue;
      queue := [];
      FlattenSnoc(batches, drained);
      batches := batches + [drained];
    }
  }

  /**
   Every payload of the history that has been drained was returned by exactly
   one drain, at the place matching its arrival order; the rest is still queued,
   in order.
   */
  lemma DeliveredExactlyOnce(batches: seq<seq<string>>, queue: seq<string>, history: seq<string>, i: nat)
    requires Flatten(batches) + queue == history
    requires i < |history|
    ensures i < |Flatten(batches)| ==>
      exists k :: 0 <= k < |batches| && InBatch(batches, k, i) && history[i] == batches[k][i - Offset(batches, k)] &&
        forall k' :: 0 <= k' < |batches| && InBatch(batches, k', i) ==> k' == k
    ensures i >= |Flatten(batches)| ==> history[i] == queue[i - |Flatten(batches)|]
  {
    if i < |Flatten(batches)| {
      DeliveredBySomeBatch(batches, i);
      var k :| 0 <= k < |batches| && InBatch(batches, k, i);
      FlattenAt(batches, k, i - Offset(batches, k));
      forall k' | 0 <= k' < |batches| && InBatch(batches, k', i)
        ensures k' == k
      {
        DeliveredByOneBatch(batches, i, k, k');
      }
    }
  }

  /**
   A client of the queue: first-in first-out delivery, a second drain with no
   append in between returns nothing, and the "A, B, then C" polling sequence.
   */
  method PollScenario()
  {
    var q := new EventQueue();
    q.Append("A");
    q.Append("B");
    var first := q.DrainAll();
    assert first == ["A", "B"];
    var second := q.DrainAll();
    assert second == [];
    q.Append("C");
    var third := q.DrainAll();
    assert third == ["C"];
    assert Flatten(q.batches) == q.history;
  }
}
