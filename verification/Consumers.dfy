/** The pull consumers: one pass of each loop over what the queue hands out. */
module Consumers {
  import opened Executions

  /** One delivery of a message, under a receipt of its own. */
  datatype Delivery = Delivery(messageId: Id, receipt: nat, body: string)

  function Flatten<T>(batches: seq<seq<T>>): seq<T> {
    if batches == [] then [] else Flatten(batches[..|batches| - 1]) + batches[|batches| - 1]
  }

  /** The deliveries whose task returns. */
  function Succeeding(ds: seq<Delivery>, task: Delivery -> Outcome): seq<Delivery> {
    if ds == [] then []
    else Succeeding(ds[..|ds| - 1], task) + if task(ds[|ds| - 1]).Returned? then [ds[|ds| - 1]] else []
  }

  function Failing(ds: seq<Delivery>, task: Delivery -> Outcome): seq<Delivery> {
    if ds == [] then []
    else Failing(ds[..|ds| - 1], task) + if task(ds[|ds| - 1]).Raised? then [ds[|ds| - 1]] else []
  }

  /** Every delivery is judged once: the two lists share out all of them, by what its function does. */
  lemma {:induction false} EveryDeliveryIsJudged(ds: seq<Delivery>, task: Delivery -> Outcome, d: Delivery)
    ensures |Succeeding(ds, task)| + |Failing(ds, task)| == |ds|
    ensures d in Succeeding(ds, task) <==> d in ds && task(d).Returned?
    ensures d in Failing(ds, task) <==> d in ds && task(d).Raised?
  {
    if ds != [] {
      EveryDeliveryIsJudged(ds[..|ds| - 1], task, d);
      assert ds == ds[..|ds| - 1] + [ds[|ds| - 1]];
    }
  }

  /** The partial-batch report: the ids of the failing records, in order, and of no others. */
  method ProcessEvent(records: seq<Delivery>, task: Delivery -> Outcome) returns (failures: seq<Id>)
    ensures |failures| == |Failing(records, task)|
    ensures forall i :: 0 <= i < |failures| ==> failures[i] == Failing(records, task)[i].messageId
  {
    failures := [];
    for i := 0 to |records|
      invariant |failures| == |Failing(records[..i], task)|
      invariant forall j :: 0 <= j < |failures| ==> failures[j] == Failing(records[..i], task)[j].messageId
    {
      assert records[..i + 1][..i] == records[..i];
      if task(records[i]).Raised? {
        failures := failures + [records[i].messageId];
      }
    }
    assert records[..|records|] == records;
  }

  /** The SQS client, as far as the loop uses it: the delete requests made, in order. */
  class SqsClient {
    var deleted: seq<Delivery>

    constructor ()
      ensures deleted == []
    {
      deleted := [];
    }

    method DeleteMessage(d: Delivery)
      modifies this
      ensures deleted == old(deleted) + [d]
    {
      deleted := deleted + [d];
    }
  }

  /** Polls until told to stop; `batches` is what the polls return until then. Deletes are requested for
      exactly the deliveries whose task returned, each once and in order, and are what is counted. */
  method PollForever(client: SqsClient, batches: seq<seq<Delivery>>, task: Delivery -> Outcome)
    returns (processed: nat)
    modifies client
    ensures client.deleted == old(client.deleted) + Succeeding(Flatten(batches), task)
    ensures processed == |Succeeding(Flatten(batches), task)|
  {
    processed := 0;
    for b := 0 to |batches|
      invariant client.deleted == old(client.deleted) + Succeeding(Flatten(batches[..b]), task)
      invariant processed == |Succeeding(Flatten(batches[..b]), task)|
    {
      ghost var earlier := Flatten(batches[..b]);
      assert batches[..b + 1][..b] == batches[..b];
      var messages := batches[b];
      assert earlier + messages[..0] == earlier;
      for i := 0 to |messages|
        invariant client.deleted == old(client.deleted) + Succeeding(earlier + messages[..i], task)
        invariant processed == |Succeeding(earlier + messages[..i], task)|
      {
        assert (earlier + messages[..i + 1])[..|earlier| + i] == earlier + messages[..i];
        if task(messages[i]).Raised? {
          continue;
        }
        client.DeleteMessage(messages[i]);
        processed := processed + 1;
      }
      assert messages[..|messages|] == messages;
    }
    assert batches[..|batches|] == batches;
  }

  datatype Settlement = Completed(d: Delivery) | Abandoned(d: Delivery)

  /** Success completes a delivery, failure abandons it. */
  function SettleAll(ds: seq<Delivery>, task: Delivery -> Outcome): seq<Settlement> {
    if ds == [] then []
    else
      var last := ds[|ds| - 1];
      SettleAll(ds[..|ds| - 1], task) + [if task(last).Returned? then Completed(last) else Abandoned(last)]
  }

  /** The deliveries up to, and without, the first whose lock is lost. */
  function Held(ds: seq<Delivery>, lost: Delivery -> bool): seq<Delivery> {
    if ds == [] then []
    else
      var before := Held(ds[..|ds| - 1], lost);
      if |before| == |ds| - 1 && !lost(ds[|ds| - 1]) then before + [ds[|ds| - 1]] else before
  }

  /** The Service Bus receiver, as far as the loop uses it. Settling under a lost lock raises. */
  class ServiceBusReceiver {
    var settled: seq<Settlement>

    constructor ()
      ensures settled == []
    {
      settled := [];
    }

    method Record(s: Settlement, lost: Delivery -> bool) returns (raised: bool)
      modifies this
      ensures raised == lost(s.d)
      ensures settled == if raised then old(settled) else old(settled) + [s]
    {
      raised := lost(s.d);
      if !raised {
        settled := settled + [s];
      }
    }
  }

  lemma {:induction false} HeldIsPrefix(ds: seq<Delivery>, lost: Delivery -> bool)
    ensures |Held(ds, lost)| <= |ds| && Held(ds, lost) == ds[..|Held(ds, lost)|]
  {
    if ds != [] {
      HeldIsPrefix(ds[..|ds| - 1], lost);
    }
  }

  lemma {:induction false} HeldAppend(a: seq<Delivery>, b: seq<Delivery>, lost: Delivery -> bool)
    ensures Held(a + b, lost) == if Held(a, lost) == a then a + Held(b, lost) else Held(a, lost)
  {
    if b == [] {
      assert a + b == a;
    } else {
      assert (a + b)[..|a + b| - 1] == a + b[..|b| - 1];
      HeldAppend(a, b[..|b| - 1], lost);
      HeldIsPrefix(a, lost);
      HeldIsPrefix(b[..|b| - 1], lost);
    }
  }

  lemma {:induction false} HeldStops(ds: seq<Delivery>, i: nat, lost: Delivery -> bool)
    requires i < |ds| && Held(ds[..i], lost) == ds[..i] && lost(ds[i])
    ensures Held(ds, lost) == ds[..i]
  {
    var upTo, rest := ds[..i + 1], ds[i + 1..];
    assert upTo[..i] == ds[..i];
    assert Held(upTo, lost) == ds[..i] && |upTo| == i + 1;
    HeldAppend(upTo, rest, lost);
    assert ds == upTo + rest;
  }

  lemma {:induction false} NextDelivery(ds: seq<Delivery>, i: nat, task: Delivery -> Outcome, lost: Delivery -> bool)
    requires i < |ds| && Held(ds[..i], lost) == ds[..i] && !lost(ds[i])
    ensures Held(ds[..i + 1], lost) == ds[..i + 1]
    ensures SettleAll(ds[..i + 1], task)
         == SettleAll(ds[..i], task) + [if task(ds[i]).Returned? then Completed(ds[i]) else Abandoned(ds[i])]
    ensures |Succeeding(ds[..i + 1], task)| == |Succeeding(ds[..i], task)| + if task(ds[i]).Returned? then 1 else 0
  {
    assert ds[..i + 1][..i] == ds[..i];
  }

  /** One batch, up to the first lost lock. */
  method ReceiveBatch(
    receiver: ServiceBusReceiver, messages: seq<Delivery>, task: Delivery -> Outcome, lost: Delivery -> bool)
    returns (processed: nat, raised: bool)
    modifies receiver
    ensures var held := Held(messages, lost);
            && receiver.settled == old(receiver.settled) + SettleAll(held, task)
            && processed == |Succeeding(held, task)|
            && (raised <==> held != messages)
  {
    processed, raised := 0, false;
    for i := 0 to |messages|
      invariant Held(messages[..i], lost) == messages[..i]
      invariant receiver.settled == old(receiver.settled) + SettleAll(messages[..i], task)
      invariant processed == |Succeeding(messages[..i], task)|
    {
      var message := messages[i];
      if lost(message) {
        HeldStops(messages, i, lost);
      } else {
        NextDelivery(messages, i, task, lost);
      }
      if task(message).Raised? {
        raised := receiver.Record(Abandoned(message), lost);
        if raised {
          return;
        }
        continue;
      }
      raised := receiver.Record(Completed(message), lost);
      if raised {
        return;
      }
      processed := processed + 1;
    }
    assert messages[..|messages|] == messages;
  }

  lemma SamePrefix(a: seq<Delivery>, b: seq<Delivery>, c: seq<Delivery>)
    ensures a + b == a + c <==> b == c
  {
    assert (a + b)[|a|..] == b && (a + c)[|a|..] == c;
  }

  lemma {:induction false} SettleAppend(a: seq<Delivery>, b: seq<Delivery>, task: Delivery -> Outcome)
    ensures SettleAll(a + b, task) == SettleAll(a, task) + SettleAll(b, task)
    ensures Succeeding(a + b, task) == Succeeding(a, task) + Succeeding(b, task)
  {
    if b == [] {
      assert a + b == a;
    } else {
      assert (a + b)[..|a + b| - 1] == a + b[..|b| - 1];
      SettleAppend(a, b[..|b| - 1], task);
    }
  }

  lemma {:induction false} NextBatch(
    batches: seq<seq<Delivery>>, b: nat, task: Delivery -> Outcome, lost: Delivery -> bool)
    requires b < |batches| && Held(Flatten(batches[..b]), lost) == Flatten(batches[..b])
    ensures var earlier, held := Flatten(batches[..b]), Held(Flatten(batches[..b + 1]), lost);
            && SettleAll(held, task) == SettleAll(earlier, task) + SettleAll(Held(batches[b], lost), task)
            && |Succeeding(held, task)| == |Succeeding(earlier, task)| + |Succeeding(Held(batches[b], lost), task)|
            && (held == Flatten(batches[..b + 1]) <==> Held(batches[b], lost) == batches[b])
  {
    assert batches[..b + 1][..b] == batches[..b];
    HeldAppend(Flatten(batches[..b]), batches[b], lost);
    SettleAppend(Flatten(batches[..b]), Held(batches[b], lost), task);
    SamePrefix(Flatten(batches[..b]), Held(batches[b], lost), batches[b]);
  }

  /** Once a lock is lost, what comes later makes no difference. */
  lemma {:induction false} HeldThroughout(batches: seq<seq<Delivery>>, b: nat, lost: Delivery -> bool)
    requires b <= |batches| && Held(Flatten(batches[..b]), lost) != Flatten(batches[..b])
    ensures Held(Flatten(batches), lost) == Held(Flatten(batches[..b]), lost)
    ensures Held(Flatten(batches), lost) != Flatten(batches)
    decreases |batches|
  {
    if b == |batches| {
      assert batches[..b] == batches;
    } else {
      var front := batches[..|batches| - 1];
      assert front[..b] == batches[..b];
      HeldThroughout(front, b, lost);
      HeldIsPrefix(Flatten(front), lost);
      HeldAppend(Flatten(front), batches[|batches| - 1], lost);
    }
  }

  /** Completes exactly the deliveries whose task returned and abandons the others, until told to stop or
      until settling one raises because its lock was lost; that error leaves the loop. The count is
      the number of completions. */
  method ReceiveForever(
    receiver: ServiceBusReceiver, batches: seq<seq<Delivery>>, task: Delivery -> Outcome, lost: Delivery -> bool)
    returns (processed: nat, raised: bool)
    modifies receiver
    ensures var held := Held(Flatten(batches), lost);
            && receiver.settled == old(receiver.settled) + SettleAll(held, task)
            && processed == |Succeeding(held, task)|
            && (raised <==> held != Flatten(batches))
  {
    processed, raised := 0, false;
    for b := 0 to |batches|
      invariant Held(Flatten(batches[..b]), lost) == Flatten(batches[..b])
      invariant receiver.settled == old(receiver.settled) + SettleAll(Flatten(batches[..b]), task)
      invariant processed == |Succeeding(Flatten(batches[..b]), task)|
    {
      NextBatch(batches, b, task, lost);
      var count;
      count, raised := ReceiveBatch(receiver, batches[b], task, lost);
      processed := processed + count;
      if raised {
        HeldThroughout(batches, b + 1, lost);
        return;
      }
      assert Held(Flatten(batches[..b + 1]), lost) == Flatten(batches[..b + 1]);
    }
    assert batches[..|batches|] == batches;
  }

  /** The batches one after the other, with nothing left out or added. */
  lemma {:induction false} FlattenInPlain<T>(batches: seq<seq<T>>, more: seq<seq<T>>, batch: seq<T>)
    ensures Flatten([batch]) == batch
    ensures Flatten(batches + more) == Flatten(batches) + Flatten(more)
  {
    assert [batch][..0] == [] && [] + batch == batch;
    if more == [] {
      assert batches + more == batches;
    } else {
      assert (batches + more)[..|batches + more| - 1] == batches + more[..|more| - 1];
      FlattenInPlain(batches, more[..|more| - 1], batch);
    }
  }

  /** What is settled before a lock is lost: all up to the first delivery whose lock is lost, and that is not. */
  lemma {:induction false} HeldInPlain(ds: seq<Delivery>, lost: Delivery -> bool)
    ensures var n := |Held(ds, lost)|;
            && n <= |ds| && Held(ds, lost) == ds[..n]
            && (forall i :: 0 <= i < n ==> !lost(ds[i]))
            && (n < |ds| ==> lost(ds[n]))
  {
    if ds != [] {
      var front := ds[..|ds| - 1];
      HeldInPlain(front, lost);
      assert forall i :: 0 <= i < |front| ==> front[i] == ds[i];
    }
  }
}
