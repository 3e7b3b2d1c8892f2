/** Any number of consumers against a queue that redelivers: at-least-once delivery as a protocol.
    A receipt is fresh for every delivery and lapses when its visibility or lock time is up. */
module QueueRuns {
  import opened Executions

  datatype Transport = Sqs | ServiceBus

  /** Where a consumer is within its batch. */
  datatype Phase = Ready | TaskReturned | TaskRaised | Gone

  datatype Handed = Handed(receipt: nat, message: Id)

  /** The last two fields are history: the messages this consumer removed, and how many of its deletes
      came after the receipt had lapsed. */
  datatype Consumer = Consumer(batch: seq<Handed>, phase: Phase, processed: nat, removals: set<Id>, stale: nat)

  /** `succeeded` and `removedUnder` are history: the receipts under which a task returned, and the
      receipt under which each removed message was removed. */
  datatype Sys = Sys(
    transport: Transport, sent: set<Id>, queued: set<Id>, inFlight: map<nat, Id>, dead: set<Id>,
    removedUnder: map<Id, nat>, issued: map<nat, Id>, succeeded: set<nat>, consumers: map<nat, Consumer>)

  datatype Step =
    | Send(m: Id)
    | Join(c: nat)
    | Receive(c: nat, m: Id, receipt: nat)
    | RunTask(c: nat, outcome: Outcome)
    | Remove(c: nat)
    | GiveUp(c: nat, toDead: bool)
    | Lapse(receipt: nat, toDead: bool)
    | Crash(c: nat)

  function Init(transport: Transport): Sys {
    Sys(transport, {}, {}, map[], {}, map[], map[], {}, map[])
  }

  predicate Working(s: Sys, c: nat, phase: Phase) {
    c in s.consumers && s.consumers[c].phase == phase && s.consumers[c].batch != []
  }

  predicate Enabled(s: Sys, step: Step) {
    match step
    case Send(m) => m !in s.sent
    case Join(c) => c !in s.consumers
    // A batch is received message by message, at any time between tasks; the loops do so only
    // once the previous batch is used up.
    case Receive(c, m, receipt) =>
      c in s.consumers && s.consumers[c].phase == Ready && m in s.queued && receipt !in s.issued
    case RunTask(c, _) => Working(s, c, Ready)
    case Remove(c) => Working(s, c, TaskReturned)
    case GiveUp(c, _) => Working(s, c, TaskRaised)
    case Lapse(receipt, _) => receipt in s.inFlight
    case Crash(c) => c in s.consumers
  }

  /** The next message of the batch, with the consumer back at the top of its loop. */
  function Next(c: Consumer): Consumer
    requires c.batch != []
  {
    c.(batch := c.batch[1..], phase := Ready)
  }

  /** Delete or complete. Under a lapsed receipt SQS accepts the request to no effect, and Service Bus
      raises, which leaves the loop. */
  function Removed(s: Sys, c: nat): Sys
    requires Enabled(s, Remove(c))
  {
    var k, h := s.consumers[c], s.consumers[c].batch[0];
    if h.receipt in s.inFlight then
      s.(inFlight := s.inFlight - {h.receipt},
         removedUnder := s.removedUnder[h.message := h.receipt],
         consumers := s.consumers[c := Next(k).(processed := k.processed + 1, removals := k.removals + {h.message})])
    else if s.transport == Sqs then
      s.(consumers := s.consumers[c := Next(k).(processed := k.processed + 1, stale := k.stale + 1)])
    else
      s.(consumers := s.consumers[c := k.(phase := Gone)])
  }

  /** A delivery that ends without a removal: the message is queued again, or the queue's own policy
      moves it to the dead letters. */
  function Landed(s: Sys, receipt: nat, toDead: bool): Sys
    requires receipt in s.inFlight
  {
    var m := s.inFlight[receipt];
    s.(inFlight := s.inFlight - {receipt},
       queued := if toDead then s.queued else s.queued + {m},
       dead := if toDead then s.dead + {m} else s.dead)
  }

  /** After a failure SQS does nothing and waits for the receipt to lapse; Service Bus abandons the
      message, which raises if the lock is lost already. */
  function GivenUp(s: Sys, c: nat, toDead: bool): Sys
    requires Enabled(s, GiveUp(c, toDead))
  {
    var k, h := s.consumers[c], s.consumers[c].batch[0];
    if s.transport == Sqs then s.(consumers := s.consumers[c := Next(k)])
    else if h.receipt in s.inFlight then
      Landed(s, h.receipt, toDead).(consumers := s.consumers[c := Next(k)])
    else s.(consumers := s.consumers[c := k.(phase := Gone)])
  }

  function Apply(s: Sys, step: Step): Sys
    requires Enabled(s, step)
  {
    match step
    case Send(m) => s.(sent := s.sent + {m}, queued := s.queued + {m})
    case Join(c) => s.(consumers := s.consumers[c := Consumer([], Ready, 0, {}, 0)])
    case Receive(c, m, receipt) =>
      var k := s.consumers[c];
      s.(queued := s.queued - {m}, inFlight := s.inFlight[receipt := m], issued := s.issued[receipt := m],
         consumers := s.consumers[c := k.(batch := k.batch + [Handed(receipt, m)])])
    case RunTask(c, outcome) =>
      var k := s.consumers[c];
      s.(succeeded := if outcome.Returned? then s.succeeded + {k.batch[0].receipt} else s.succeeded,
         consumers := s.consumers[c := k.(phase := if outcome.Returned? then TaskReturned else TaskRaised)])
    case Remove(c) => Removed(s, c)
    case GiveUp(c, toDead) => GivenUp(s, c, toDead)
    case Lapse(receipt, toDead) =>
      Landed(s, receipt, toDead)
    case Crash(c) => s.(consumers := s.consumers[c := s.consumers[c].(phase := Gone)])
  }

  function Flying(inFlight: map<nat, Id>): set<Id> {
    set r | r in inFlight :: inFlight[r]
  }

  ghost predicate Injective(inFlight: map<nat, Id>) {
    forall q, r :: q in inFlight && r in inFlight && inFlight[q] == inFlight[r] ==> q == r
  }

  lemma FlyingWithout(inFlight: map<nat, Id>, receipt: nat)
    requires Injective(inFlight) && receipt in inFlight
    ensures Flying(inFlight - {receipt}) == Flying(inFlight) - {inFlight[receipt]}
    ensures Injective(inFlight - {receipt}) && inFlight[receipt] in Flying(inFlight)
  {
    var rest := inFlight - {receipt};
    forall m | m in Flying(inFlight) && m != inFlight[receipt]
      ensures m in Flying(rest)
    {
      var r :| r in inFlight && inFlight[r] == m;
      assert r in rest && rest[r] == m;
    }
  }

  lemma FlyingWith(inFlight: map<nat, Id>, receipt: nat, m: Id)
    requires Injective(inFlight) && receipt !in inFlight && m !in Flying(inFlight)
    ensures Flying(inFlight[receipt := m]) == Flying(inFlight) + {m}
    ensures Injective(inFlight[receipt := m])
  {
    var more := inFlight[receipt := m];
    assert more[receipt] == m;
    forall n | n in Flying(inFlight)
      ensures n in Flying(more)
    {
      var r :| r in inFlight && inFlight[r] == n;
      assert r in more && more[r] == n;
    }
  }

  /** Nothing is lost and nothing is in two places: every message sent is removed, queued, in flight
      under exactly one receipt, or dead-lettered. */
  ghost predicate Conserved(s: Sys) {
    && s.sent == s.removedUnder.Keys + s.queued + Flying(s.inFlight) + s.dead
    && s.removedUnder.Keys !! s.queued !! Flying(s.inFlight) !! s.dead
    && Injective(s.inFlight)
  }

  /** Receipts: those in flight were issued for the same message, and a removal is under a receipt of
      that message under which a task returned. */
  ghost predicate ReceiptsOk(s: Sys) {
    && (forall r :: r in s.inFlight ==> r in s.issued && s.issued[r] == s.inFlight[r])
    && (forall m :: m in s.removedUnder ==>
          && s.removedUnder[m] in s.succeeded
          && s.removedUnder[m] in s.issued && s.issued[s.removedUnder[m]] == m)
  }

  ghost predicate BatchOk(s: Sys, k: Consumer) {
    && (forall i :: 0 <= i < |k.batch| ==>
          k.batch[i].receipt in s.issued && s.issued[k.batch[i].receipt] == k.batch[i].message)
    && (k.phase == TaskReturned ==> k.batch != [] && k.batch[0].receipt in s.succeeded)
  }

  ghost predicate CountOk(s: Sys, k: Consumer) {
    && k.removals <= s.removedUnder.Keys
    && k.processed == |k.removals| + k.stale
    && (s.transport == ServiceBus ==> k.stale == 0)
  }

  ghost predicate BatchesOk(s: Sys) {
    forall c :: c in s.consumers ==> BatchOk(s, s.consumers[c])
  }

  ghost predicate CountsOk(s: Sys) {
    forall c :: c in s.consumers ==> CountOk(s, s.consumers[c])
  }

  /** No removal is counted by two consumers, and each is counted by one. */
  ghost predicate RemovalsApart(s: Sys) {
    forall c, d :: c in s.consumers && d in s.consumers && c != d ==>
                     s.consumers[c].removals !! s.consumers[d].removals
  }

  ghost predicate Owned(s: Sys, m: Id) {
    exists c :: c in s.consumers && m in s.consumers[c].removals
  }

  ghost predicate RemovalsShared(s: Sys) {
    RemovalsApart(s) && forall m :: m in s.removedUnder ==> Owned(s, m)
  }

  ghost predicate Inv(s: Sys) {
    Conserved(s) && ReceiptsOk(s) && BatchesOk(s) && CountsOk(s) && RemovalsShared(s)
  }

  lemma LandedConserves(s: Sys, receipt: nat, toDead: bool)
    requires Conserved(s) && receipt in s.inFlight
    ensures Conserved(Landed(s, receipt, toDead))
  {
    FlyingWithout(s.inFlight, receipt);
  }

  lemma RemovedConserves(s: Sys, c: nat)
    requires Conserved(s) && ReceiptsOk(s) && BatchesOk(s) && Enabled(s, Remove(c))
    ensures Conserved(Removed(s, c))
  {
    assert BatchOk(s, s.consumers[c]);
    if s.consumers[c].batch[0].receipt in s.inFlight {
      FlyingWithout(s.inFlight, s.consumers[c].batch[0].receipt);
    }
  }

  lemma StepConserves(s: Sys, step: Step)
    requires Conserved(s) && ReceiptsOk(s) && BatchesOk(s) && Enabled(s, step)
    ensures Conserved(Apply(s, step))
  {
    match step
    case Receive(c, m, receipt) => FlyingWith(s.inFlight, receipt, m);
    case Lapse(receipt, toDead) => LandedConserves(s, receipt, toDead);
    case Remove(c) => RemovedConserves(s, c);
    case GiveUp(c, toDead) =>
      if s.consumers[c].batch[0].receipt in s.inFlight {
        LandedConserves(s, s.consumers[c].batch[0].receipt, toDead);
      }
    case _ =>
  }

  lemma StepKeepsReceipts(s: Sys, step: Step)
    requires ReceiptsOk(s) && BatchesOk(s) && Enabled(s, step)
    ensures ReceiptsOk(Apply(s, step))
  {
    if step.Remove? {
      assert BatchOk(s, s.consumers[step.c]);
    }
  }

  lemma IssuedStays(s: Sys, step: Step)
    requires Enabled(s, step)
    ensures forall r :: r in s.issued ==> r in Apply(s, step).issued && Apply(s, step).issued[r] == s.issued[r]
    ensures s.succeeded <= Apply(s, step).succeeded
  {
  }

  lemma BatchMoves(s: Sys, step: Step, c: nat)
    requires Enabled(s, step) && c in s.consumers && Apply(s, step).consumers[c] != s.consumers[c]
    ensures var k, k' := s.consumers[c], Apply(s, step).consumers[c];
            match step
            case Receive(_, m, receipt) => k'.batch == k.batch + [Handed(receipt, m)] && k'.phase == Ready
            case RunTask(_, _) => k'.batch == k.batch
            case Crash(_) => k'.batch == k.batch && k'.phase == Gone
            case Remove(_) | GiveUp(_, _) =>
              if k'.phase == Gone then k'.batch == k.batch
              else k'.phase == Ready && k'.batch == k.batch[1..]
            case Send(_) | Join(_) | Lapse(_, _) => false
  {
  }

  lemma StepKeepsBatch(s: Sys, step: Step, c: nat)
    requires Enabled(s, step) && c in Apply(s, step).consumers
    requires c in s.consumers ==> BatchOk(s, s.consumers[c])
    ensures BatchOk(Apply(s, step), Apply(s, step).consumers[c])
  {
    var s' := Apply(s, step);
    IssuedStays(s, step);
    if c in s.consumers && s'.consumers[c] != s.consumers[c] {
      BatchMoves(s, step, c);
    }
  }

  lemma StepKeepsBatches(s: Sys, step: Step)
    requires BatchesOk(s) && Enabled(s, step)
    ensures BatchesOk(Apply(s, step))
  {
    forall c | c in Apply(s, step).consumers
      ensures BatchOk(Apply(s, step), Apply(s, step).consumers[c])
    {
      StepKeepsBatch(s, step, c);
    }
  }

  /** What a step does to one consumer's books. */
  lemma LedgerStep(s: Sys, step: Step, c: nat)
    requires Enabled(s, step) && c in Apply(s, step).consumers
    ensures var k' := Apply(s, step).consumers[c];
            if c !in s.consumers then k'.removals == {} && k'.processed == 0 && k'.stale == 0
            else
              var k := s.consumers[c];
              if step == Remove(c) && k.batch[0].receipt in s.inFlight then
                && k'.removals == k.removals + {k.batch[0].message}
                && k'.processed == k.processed + 1 && k'.stale == k.stale
              else if step == Remove(c) && s.transport == Sqs then
                k'.removals == k.removals && k'.processed == k.processed + 1 && k'.stale == k.stale + 1
              else k'.removals == k.removals && k'.processed == k.processed && k'.stale == k.stale
  {
  }

  /** The message that a step removes, if it removes one. */
  function RemovedBy(s: Sys, step: Step): set<Id>
    requires Enabled(s, step)
  {
    if step.Remove? && s.consumers[step.c].batch[0].receipt in s.inFlight
    then {s.consumers[step.c].batch[0].message} else {}
  }

  lemma RemovedStep(s: Sys, step: Step)
    requires Enabled(s, step)
    ensures Apply(s, step).transport == s.transport && s.consumers.Keys <= Apply(s, step).consumers.Keys
    ensures Apply(s, step).removedUnder.Keys == s.removedUnder.Keys + RemovedBy(s, step)
  {
  }

  lemma StepKeepsCount(s: Sys, step: Step, c: nat)
    requires Enabled(s, step) && c in Apply(s, step).consumers
    requires RemovedBy(s, step) !! s.removedUnder.Keys
    requires c in s.consumers ==> CountOk(s, s.consumers[c])
    ensures CountOk(Apply(s, step), Apply(s, step).consumers[c])
  {
    RemovedStep(s, step);
    LedgerStep(s, step, c);
  }

  lemma RemovedIsNew(s: Sys, c: nat)
    requires Conserved(s) && ReceiptsOk(s) && BatchesOk(s) && Enabled(s, Remove(c))
    ensures var h := s.consumers[c].batch[0]; h.receipt in s.inFlight ==> h.message !in s.removedUnder
  {
    assert BatchOk(s, s.consumers[c]);
    var h := s.consumers[c].batch[0];
    if h.receipt in s.inFlight {
      FlyingWithout(s.inFlight, h.receipt);
    }
  }

  lemma StepKeepsCounts(s: Sys, step: Step)
    requires Conserved(s) && ReceiptsOk(s) && BatchesOk(s) && CountsOk(s) && Enabled(s, step)
    ensures CountsOk(Apply(s, step))
  {
    if step.Remove? {
      RemovedIsNew(s, step.c);
    }
    forall c | c in Apply(s, step).consumers
      ensures CountOk(Apply(s, step), Apply(s, step).consumers[c])
    {
      StepKeepsCount(s, step, c);
    }
  }

  lemma StepKeepsRemovalsApart(s: Sys, step: Step)
    requires CountsOk(s) && RemovalsApart(s) && Enabled(s, step) && RemovedBy(s, step) !! s.removedUnder.Keys
    ensures RemovalsApart(Apply(s, step))
  {
    var s' := Apply(s, step);
    forall c, d | c in s'.consumers && d in s'.consumers && c != d
      ensures s'.consumers[c].removals !! s'.consumers[d].removals
    {
      LedgerStep(s, step, c);
      LedgerStep(s, step, d);
      if c in s.consumers && d in s.consumers {
        assert CountOk(s, s.consumers[c]) && CountOk(s, s.consumers[d]);
        assert s.consumers[c].removals !! s.consumers[d].removals;
      }
    }
  }

  lemma StepKeepsOwned(s: Sys, step: Step, m: Id)
    requires Enabled(s, step) && m in Apply(s, step).removedUnder
    requires m in s.removedUnder ==> Owned(s, m)
    ensures Owned(Apply(s, step), m)
  {
    var s' := Apply(s, step);
    RemovedStep(s, step);
    if m in s.removedUnder {
      var c :| c in s.consumers && m in s.consumers[c].removals;
      LedgerStep(s, step, c);
      assert m in s'.consumers[c].removals;
    } else {
      LedgerStep(s, step, step.c);
      assert m in s'.consumers[step.c].removals;
    }
  }

  lemma StepSharesRemovals(s: Sys, step: Step)
    requires Conserved(s) && ReceiptsOk(s) && BatchesOk(s) && CountsOk(s) && RemovalsShared(s) && Enabled(s, step)
    ensures RemovalsShared(Apply(s, step))
  {
    if step.Remove? {
      RemovedIsNew(s, step.c);
    }
    StepKeepsRemovalsApart(s, step);
    forall m | m in Apply(s, step).removedUnder
      ensures Owned(Apply(s, step), m)
    {
      StepKeepsOwned(s, step, m);
    }
  }

  /** Every step keeps the invariant. */
  lemma StepKeepsInv(s: Sys, step: Step)
    requires Inv(s) && Enabled(s, step)
    ensures Inv(Apply(s, step))
  {
    StepConserves(s, step);
    StepKeepsReceipts(s, step);
    StepKeepsBatches(s, step);
    StepKeepsCounts(s, step);
    StepSharesRemovals(s, step);
  }

  /** A removed message stays removed, under the same receipt; no receipt ever changes its message. */
  lemma RemovalIsFinal(s: Sys, step: Step)
    requires Inv(s) && Enabled(s, step)
    ensures forall m :: m in s.removedUnder ==>
              m in Apply(s, step).removedUnder && Apply(s, step).removedUnder[m] == s.removedUnder[m]
    ensures forall r :: r in s.issued ==> r in Apply(s, step).issued && Apply(s, step).issued[r] == s.issued[r]
    ensures s.succeeded <= Apply(s, step).succeeded && s.sent <= Apply(s, step).sent
  {
    if step.Remove? {
      RemovedIsNew(s, step.c);
    }
  }

  ghost predicate IsRun(transport: Transport, states: seq<Sys>, steps: seq<Step>) {
    && |states| == |steps| + 1
    && states[0] == Init(transport)
    && forall i {:trigger steps[i]} :: 0 <= i < |steps| ==>
         Enabled(states[i], steps[i]) && states[i + 1] == Apply(states[i], steps[i])
  }

  lemma {:induction false} RunKeepsInv(transport: Transport, states: seq<Sys>, steps: seq<Step>, i: nat)
    requires IsRun(transport, states, steps) && i < |states|
    ensures Inv(states[i]) && states[i].transport == transport
  {
    if i > 0 {
      RunKeepsInv(transport, states, steps, i - 1);
      StepKeepsInv(states[i - 1], steps[i - 1]);
    }
  }

  lemma DisjointSizes(a: set<Id>, b: set<Id>, c: set<Id>, d: set<Id>)
    requires a !! b !! c !! d
    ensures |a + b + c + d| == |a| + |b| + |c| + |d|
  {
    assert |a + b| == |a| + |b|;
    assert |a + b + c| == |a + b| + |c|;
  }

  /** At-least-once, over every run and any number of consumers: no message sent is ever lost or in two
      places, and one that is gone from the queue was run to success under the receipt that removed it. */
  lemma AtLeastOnce(transport: Transport, states: seq<Sys>, steps: seq<Step>, i: nat)
    requires IsRun(transport, states, steps) && i < |states|
    ensures var s := states[i];
            && s.sent == s.removedUnder.Keys + s.queued + Flying(s.inFlight) + s.dead
            && |s.sent| == |s.removedUnder| + |s.queued| + |Flying(s.inFlight)| + |s.dead|
            && forall m :: m in s.removedUnder ==>
                 s.removedUnder[m] in s.succeeded
                 && s.removedUnder[m] in s.issued && s.issued[s.removedUnder[m]] == m
  {
    RunKeepsInv(transport, states, steps, i);
    var s := states[i];
    assert |s.removedUnder| == |s.removedUnder.Keys|;
    DisjointSizes(s.removedUnder.Keys, s.queued, Flying(s.inFlight), s.dead);
  }

  /** Every removal is counted, and by one consumer only. */
  lemma EveryRemovalIsCountedOnce(transport: Transport, states: seq<Sys>, steps: seq<Step>, i: nat, m: Id)
    requires IsRun(transport, states, steps) && i < |states| && m in states[i].removedUnder
    ensures Owned(states[i], m)
    ensures var k := states[i].consumers;
            forall c, d :: c in k && d in k && m in k[c].removals && m in k[d].removals ==> c == d
  {
    RunKeepsInv(transport, states, steps, i);
  }

  ghost predicate DeletesStale(s: Sys, step: Step, c: nat) {
    && step == Remove(c) && Enabled(s, step) && s.transport == Sqs
    && s.consumers[c].batch[0].receipt !in s.inFlight
  }

  ghost predicate StaleBefore(states: seq<Sys>, steps: seq<Step>, i: nat, c: nat)
    requires i <= |steps| <= |states|
  {
    exists j :: 0 <= j < i && DeletesStale(states[j], steps[j], c)
  }

  lemma StaleStep(s: Sys, step: Step, c: nat)
    requires Enabled(s, step)
    ensures c in Apply(s, step).consumers && Apply(s, step).consumers[c].stale > 0
       <==> (c in s.consumers && s.consumers[c].stale > 0) || DeletesStale(s, step, c)
  {
    RemovedStep(s, step);
    if c in Apply(s, step).consumers {
      LedgerStep(s, step, c);
    }
  }

  lemma StaleAfterStep(transport: Transport, states: seq<Sys>, steps: seq<Step>, i: nat, c: nat)
    requires IsRun(transport, states, steps) && i < |steps|
    ensures c in states[i + 1].consumers && states[i + 1].consumers[c].stale > 0
       <==> (c in states[i].consumers && states[i].consumers[c].stale > 0) || DeletesStale(states[i], steps[i], c)
    ensures StaleBefore(states, steps, i + 1, c) <==>
            StaleBefore(states, steps, i, c) || DeletesStale(states[i], steps[i], c)
  {
    StaleStep(states[i], steps[i], c);
  }

  lemma {:induction false} StaleMeaning(
    transport: Transport, states: seq<Sys>, steps: seq<Step>, i: nat, c: nat)
    requires IsRun(transport, states, steps) && i < |states|
    ensures c in states[i].consumers && states[i].consumers[c].stale > 0
       <==> StaleBefore(states, steps, i, c)
  {
    if i > 0 {
      StaleMeaning(transport, states, steps, i - 1, c);
      StaleAfterStep(transport, states, steps, i - 1, c);
    }
  }

  /** The count a consumer returns is the number of its removals, plus its deletes under a lapsed receipt.
      The latter are possible with SQS only, so with Service Bus the two always agree, and with SQS they
      agree exactly when no receipt lapsed between a success and its delete. */
  lemma CountIsRemovals(transport: Transport, states: seq<Sys>, steps: seq<Step>, i: nat, c: nat)
    requires IsRun(transport, states, steps) && i < |states| && c in states[i].consumers
    ensures var k := states[i].consumers[c];
            && k.removals <= states[i].removedUnder.Keys
            && k.processed == |k.removals| + k.stale
            && (transport == ServiceBus ==> k.processed == |k.removals|)
            && (k.processed == |k.removals| <==> !StaleBefore(states, steps, i, c))
  {
    RunKeepsInv(transport, states, steps, i);
    assert CountOk(states[i], states[i].consumers[c]);
    StaleMeaning(transport, states, steps, i, c);
  }

  /** One message, received once by one consumer under receipt 0 and still in flight. */
  function ReceivedOnce(m: Id, phase: Phase, succeeded: set<nat>): Sys {
    Sys(Sqs, {m}, {}, map[0 := m], {}, map[], map[0 := m], succeeded,
        map[0 := Consumer([Handed(0, m)], phase, 0, {}, 0)])
  }

  lemma RunOn(transport: Transport, states: seq<Sys>, steps: seq<Step>, step: Step)
    requires IsRun(transport, states, steps) && Enabled(states[|steps|], step)
    ensures IsRun(transport, states + [Apply(states[|steps|], step)], steps + [step])
  {
  }

  lemma RunToSuccess(m: Id, value: string) returns (states: seq<Sys>, steps: seq<Step>)
    ensures IsRun(Sqs, states, steps) && states[|steps|] == ReceivedOnce(m, TaskReturned, {0})
  {
    states, steps := [Init(Sqs)], [];
    RunOn(Sqs, states, steps, Send(m));
    states, steps := states + [Init(Sqs).(sent := {m}, queued := {m})], steps + [Send(m)];
    RunOn(Sqs, states, steps, Join(0));
    states, steps := states + [Apply(states[|steps|], Join(0))], steps + [Join(0)];
    RunOn(Sqs, states, steps, Receive(0, m, 0));
    assert [] + [Handed(0, m)] == [Handed(0, m)];
    assert Apply(states[|steps|], Receive(0, m, 0)) == ReceivedOnce(m, Ready, {});
    states, steps := states + [ReceivedOnce(m, Ready, {})], steps + [Receive(0, m, 0)];
    RunOn(Sqs, states, steps, RunTask(0, Returned(value)));
    assert Apply(states[|steps|], RunTask(0, Returned(value))) == ReceivedOnce(m, TaskReturned, {0});
    states := states + [ReceivedOnce(m, TaskReturned, {0})];
    steps := steps + [RunTask(0, Returned(value))];
  }

  /** With SQS, concretely: the receipt lapses between the success and its delete, which is counted all the
      same. Nothing has been removed, and the message is queued again. */
  lemma StaleDeleteIsCounted(m: Id, value: string)
    ensures exists states: seq<Sys>, steps: seq<Step> ::
              && IsRun(Sqs, states, steps) && StaleBefore(states, steps, |steps|, 0)
              && 0 in states[|steps|].consumers && states[|steps|].consumers[0].processed == 1
              && states[|steps|].removedUnder == map[] && states[|steps|].queued == {m}
  {
    var states, steps := RunToSuccess(m, value);
    RunOn(Sqs, states, steps, Lapse(0, false));
    states, steps := states + [Apply(states[|steps|], Lapse(0, false))], steps + [Lapse(0, false)];
    var n := |steps|;
    assert Working(states[n], 0, TaskReturned) && 0 !in states[n].inFlight;
    RunOn(Sqs, states, steps, Remove(0));
    states, steps := states + [Apply(states[n], Remove(0))], steps + [Remove(0)];
    assert DeletesStale(states[n], steps[n], 0);
  }

  /** The end of a failed delivery. SQS leaves it in flight, to lapse later. Service Bus abandons it: under a live
      lock the message is queued again or dead-lettered at once, under a lost one the consumer is gone. */
  lemma GivingUpInPlain(s: Sys, c: nat, toDead: bool)
    requires Enabled(s, GiveUp(c, toDead))
    ensures var s', h := Apply(s, GiveUp(c, toDead)), s.consumers[c].batch[0];
            if s.transport == Sqs || h.receipt !in s.inFlight then
              && s'.inFlight == s.inFlight && s'.queued == s.queued && s'.dead == s.dead
              && s'.consumers[c].phase == (if s.transport == Sqs then Ready else Gone)
            else
              && h.receipt !in s'.inFlight && s'.consumers[c].phase == Ready
              && s'.queued == (if toDead then s.queued else s.queued + {s.inFlight[h.receipt]})
              && s'.dead == (if toDead then s.dead + {s.inFlight[h.receipt]} else s.dead)
  {
  }

  ghost predicate Succeeds(s: Sys, step: Step, receipt: nat) {
    && step.RunTask? && Enabled(s, step) && step.outcome.Returned?
    && s.consumers[step.c].batch[0].receipt == receipt
  }

  ghost predicate SucceededBefore(states: seq<Sys>, steps: seq<Step>, i: nat, receipt: nat)
    requires i <= |steps| <= |states|
  {
    exists j :: 0 <= j < i && Succeeds(states[j], steps[j], receipt)
  }

  lemma SucceededStep(s: Sys, step: Step, receipt: nat)
    requires Enabled(s, step)
    ensures receipt in Apply(s, step).succeeded <==> receipt in s.succeeded || Succeeds(s, step, receipt)
  {
  }

  lemma SucceededBeforeNext(states: seq<Sys>, steps: seq<Step>, i: nat, receipt: nat)
    requires i < |steps| <= |states|
    ensures SucceededBefore(states, steps, i + 1, receipt) <==>
            SucceededBefore(states, steps, i, receipt) || Succeeds(states[i], steps[i], receipt)
  {
  }

  lemma SucceededNext(transport: Transport, states: seq<Sys>, steps: seq<Step>, i: nat, receipt: nat)
    requires IsRun(transport, states, steps) && i < |steps|
    ensures receipt in states[i + 1].succeeded <==>
            receipt in states[i].succeeded || Succeeds(states[i], steps[i], receipt)
  {
    SucceededStep(states[i], steps[i], receipt);
  }

  /** A receipt counts as succeeded exactly if a consumer that held it has run its task, which returned. */
  lemma {:induction false} SucceededMeaning(
    transport: Transport, states: seq<Sys>, steps: seq<Step>, i: nat, receipt: nat)
    requires IsRun(transport, states, steps) && i <= |steps|
    ensures receipt in states[i].succeeded <==> SucceededBefore(states, steps, i, receipt)
  {
    if i > 0 {
      SucceededMeaning(transport, states, steps, i - 1, receipt);
      SucceededNext(transport, states, steps, i - 1, receipt);
      SucceededBeforeNext(states, steps, i - 1, receipt);
    }
  }

  /** One message under receipt 0 with Service Bus, or queued again after it. */
  function Bus(m: Id, queued: set<Id>, inFlight: map<nat, Id>, issued: map<nat, Id>, consumer: Consumer): Sys {
    Sys(ServiceBus, {m}, queued, inFlight, {}, map[], issued, {}, map[0 := consumer])
  }

  lemma RunToAbandoned(m: Id, exn: Exn) returns (states: seq<Sys>, steps: seq<Step>)
    ensures IsRun(ServiceBus, states, steps)
    ensures states[|steps|] == Bus(m, {m}, map[], map[0 := m], Consumer([], Ready, 0, {}, 0))
  {
    states, steps := [Init(ServiceBus)], [];
    RunOn(ServiceBus, states, steps, Send(m));
    states, steps := states + [Init(ServiceBus).(sent := {m}, queued := {m})], steps + [Send(m)];
    RunOn(ServiceBus, states, steps, Join(0));
    states, steps := states + [Bus(m, {m}, map[], map[], Consumer([], Ready, 0, {}, 0))], steps + [Join(0)];
    RunOn(ServiceBus, states, steps, Receive(0, m, 0));
    var c := Consumer([Handed(0, m)], Ready, 0, {}, 0);
    assert [] + [Handed(0, m)] == [Handed(0, m)];
    assert Apply(states[|steps|], Receive(0, m, 0)) == Bus(m, {}, map[0 := m], map[0 := m], c);
    states, steps := states + [Bus(m, {}, map[0 := m], map[0 := m], c)], steps + [Receive(0, m, 0)];
    RunOn(ServiceBus, states, steps, RunTask(0, Raised(exn)));
    var failed := c.(phase := TaskRaised);
    assert Apply(states[|steps|], RunTask(0, Raised(exn))) == Bus(m, {}, map[0 := m], map[0 := m], failed);
    states := states + [Bus(m, {}, map[0 := m], map[0 := m], failed)];
    steps := steps + [RunTask(0, Raised(exn))];
    RunOn(ServiceBus, states, steps, GiveUp(0, false));
    assert [Handed(0, m)][1..] == [];
    assert Apply(states[|steps|], GiveUp(0, false)) ==
           Bus(m, {m}, map[], map[0 := m], Consumer([], Ready, 0, {}, 0));
    states := states + [Bus(m, {m}, map[], map[0 := m], Consumer([], Ready, 0, {}, 0))];
    steps := steps + [GiveUp(0, false)];
  }

  lemma RunToSecondSuccess(m: Id, exn: Exn, value: string) returns (states: seq<Sys>, steps: seq<Step>)
    ensures IsRun(ServiceBus, states, steps)
    ensures states[|steps|] ==
            Bus(m, {}, map[1 := m], map[0 := m, 1 := m], Consumer([Handed(1, m)], TaskReturned, 0, {}, 0))
              .(succeeded := {1})
  {
    states, steps := RunToAbandoned(m, exn);
    RunOn(ServiceBus, states, steps, Receive(0, m, 1));
    var issued, c := map[0 := m, 1 := m], Consumer([Handed(1, m)], Ready, 0, {}, 0);
    assert [] + [Handed(1, m)] == [Handed(1, m)];
    assert Apply(states[|steps|], Receive(0, m, 1)) == Bus(m, {}, map[1 := m], issued, c);
    states, steps := states + [Bus(m, {}, map[1 := m], issued, c)], steps + [Receive(0, m, 1)];
    RunOn(ServiceBus, states, steps, RunTask(0, Returned(value)));
    var s := Bus(m, {}, map[1 := m], issued, c.(phase := TaskReturned)).(succeeded := {1});
    assert Apply(states[|steps|], RunTask(0, Returned(value))) == s;
    states, steps := states + [s], steps + [RunTask(0, Returned(value))];
  }

  /** With Service Bus, concretely: a task that fails is delivered again, succeeds, and is removed under the second
      receipt, counted once. */
  lemma FailureIsRedelivered(m: Id, exn: Exn, value: string)
    ensures exists states: seq<Sys>, steps: seq<Step> ::
              && IsRun(ServiceBus, states, steps) && states[|steps|].removedUnder == map[m := 1]
              && 0 in states[|steps|].consumers && states[|steps|].consumers[0].processed == 1
              && states[|steps|].queued == {} && states[|steps|].inFlight == map[]
  {
    var states, steps := RunToSecondSuccess(m, exn, value);
    RunOn(ServiceBus, states, steps, Remove(0));
    assert map[1 := m] - {1} == map[];
    states, steps := states + [Apply(states[|steps|], Remove(0))], steps + [Remove(0)];
  }

  /** A consumer may crash at any time. That loses no message: what it held is still in flight, and free to lapse
      and be delivered again. */
  lemma CrashLosesNothing(s: Sys, c: nat)
    requires c in s.consumers
    ensures Enabled(s, Crash(c))
    ensures var s' := Apply(s, Crash(c));
            && s'.inFlight == s.inFlight && s'.queued == s.queued && s'.dead == s.dead
            && s'.removedUnder == s.removedUnder && s'.consumers[c].phase == Gone
            && (forall d :: d in s.consumers && d != c ==> s'.consumers[d] == s.consumers[d])
            && forall receipt :: receipt in s.inFlight ==>
                 Enabled(s', Lapse(receipt, false))
                 && s.inFlight[receipt] in Apply(s', Lapse(receipt, false)).queued
  {
  }

  /** A consumer may be handed any queued message between two tasks, whatever it still has in its batch. */
  lemma AnyQueuedMessageMayBeReceived(s: Sys, c: nat, m: Id, receipt: nat)
    requires c in s.consumers && s.consumers[c].phase == Ready && m in s.queued && receipt !in s.issued
    ensures Enabled(s, Receive(c, m, receipt))
    ensures var s' := Apply(s, Receive(c, m, receipt));
            && m !in s'.queued && receipt in s'.inFlight && s'.inFlight[receipt] == m
            && s'.consumers[c].batch == s.consumers[c].batch + [Handed(receipt, m)]
  {
  }
}
