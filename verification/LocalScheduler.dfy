/** The in-process scheduler: interval and one-shot schedules fired by sweeps at given moments. */
module LocalScheduler {
  import opened Executions
  import opened History

  datatype Trigger = Interval(seconds: real) | OneShot(at: real) | Cron(expression: string) {
    /** An interval refuses to be constructed without a positive length. */
    predicate Valid() {
      Interval? ==> seconds > 0.0
    }
  }

  type ValidTrigger = t: Trigger | t.Valid()
    witness OneShot(0.0)

  datatype Status = Enabled | Paused

  datatype Entry = Entry(
    trigger: ValidTrigger, status: Status, nextRun: Option<real>, exhausted: bool, fires: seq<real>)

  datatype Error = Unsupported | NotFound

  /** What firing a target does: any outcome of its own is recorded, a provider error is raised. */
  datatype Firing = Recorded | ProviderError

  function NextRun(trigger: Trigger, after: real): Option<real> {
    match trigger
    case OneShot(at) => Some(at)
    case Interval(seconds) => Some(after + seconds)
    case Cron(_) => None
  }

  function Created(trigger: ValidTrigger, enabled: bool, now: real): Entry {
    Entry(trigger, if enabled then Enabled else Paused, NextRun(trigger, now), false, [])
  }

  /** A new schedule takes effect at once but leaves the entry paused or enabled as it was. */
  function Updated(e: Entry, trigger: ValidTrigger, now: real): Entry {
    e.(trigger := trigger, exhausted := false, nextRun := NextRun(trigger, now))
  }

  predicate Due(e: Entry, now: real) {
    e.status == Enabled && !e.exhausted && e.nextRun.Some? && e.nextRun.value <= now
  }

  function Advanced(e: Entry, now: real): Entry {
    match e.trigger
    case OneShot(_) => e.(exhausted := true, nextRun := None)
    case Interval(seconds) => e.(nextRun := Some(now + seconds))
    case Cron(_) => e
  }

  function Swept(e: Entry, now: real, firing: Firing): Entry {
    if Due(e, now) && firing == Recorded then Advanced(e.(fires := e.fires + [now]), now) else e
  }

  /** One sweep over the entries in the order they were created, up to the first provider error. */
  datatype Sweep = Sweep(entries: map<Id, Entry>, fired: seq<Id>, raised: bool)

  function SweepAll(entries: map<Id, Entry>, ids: seq<Id>, now: real, firing: Id -> Firing): Sweep
    requires forall k :: k in ids ==> k in entries
  {
    if ids == [] then Sweep(entries, [], false)
    else
      var before := SweepAll(entries, ids[..|ids| - 1], now, firing);
      var k := ids[|ids| - 1];
      if before.raised || k !in before.entries || !Due(before.entries[k], now) then before
      else if firing(k) == ProviderError then before.(raised := true)
      else Sweep(before.entries[k := Swept(before.entries[k], now, firing(k))], before.fired + [k], false)
  }

  function OrderWithout(order: seq<Id>, id: Id): seq<Id> {
    if order == [] then []
    else OrderWithout(order[..|order| - 1], id) + if order[|order| - 1] == id then [] else [order[|order| - 1]]
  }

  lemma {:induction false} OrderWithoutMembers(order: seq<Id>, id: Id)
    ensures forall k :: k in OrderWithout(order, id) <==> k in order && k != id
  {
    if order != [] {
      OrderWithoutMembers(order[..|order| - 1], id);
      assert order == order[..|order| - 1] + [order[|order| - 1]];
    }
  }

  lemma {:induction false} OrderWithoutKeeps(order: seq<Id>, id: Id)
    requires Distinct(order)
    ensures Distinct(OrderWithout(order, id))
  {
    if order != [] {
      var front, last := order[..|order| - 1], order[|order| - 1];
      OrderWithoutKeeps(front, id);
      OrderWithoutMembers(front, id);
      assert last !in front;
      var o := OrderWithout(front, id);
      AppendKeepsDistinct(o, last);
      assert o + [] == o;
    }
  }

  lemma SweepStep(entries: map<Id, Entry>, ids: seq<Id>, i: nat, now: real, firing: Id -> Firing)
    requires i < |ids| && (forall k :: k in ids ==> k in entries)
    ensures var before, k := SweepAll(entries, ids[..i], now, firing), ids[i];
            SweepAll(entries, ids[..i + 1], now, firing) ==
            if before.raised || k !in before.entries || !Due(before.entries[k], now) then before
            else if firing(k) == ProviderError then before.(raised := true)
            else Sweep(before.entries[k := Advanced(before.entries[k].(fires := before.entries[k].fires + [now]), now)],
                       before.fired + [k], false)
  {
    assert ids[..i + 1][..i] == ids[..i];
  }

  lemma {:induction false} SweepStaysRaised(
    entries: map<Id, Entry>, ids: seq<Id>, i: nat, now: real, firing: Id -> Firing)
    requires i <= |ids| && (forall k :: k in ids ==> k in entries)
    requires SweepAll(entries, ids[..i], now, firing).raised
    ensures SweepAll(entries, ids, now, firing) == SweepAll(entries, ids[..i], now, firing)
    decreases |ids| - i
  {
    if i == |ids| {
      assert ids[..i] == ids;
    } else {
      assert ids[..i + 1][..i] == ids[..i];
      SweepStaysRaised(entries, ids, i + 1, now, firing);
    }
  }

  class Scheduler {
    var entries: map<Id, Entry>
    var order: seq<Id>

    ghost predicate Valid()
      reads this
    {
      && (forall k :: k in order <==> k in entries)
      && Distinct(order)
    }

    constructor ()
      ensures Valid() && entries == map[]
    {
      entries, order := map[], [];
    }

    /** `id` is freshly minted. */
    method Create(id: Id, trigger: ValidTrigger, enabled: bool, now: real) returns (r: Result<Id, Error>)
      requires Valid() && id !in entries
      modifies this
      ensures Valid()
      ensures if trigger.Cron? then r == Err(Unsupported) && entries == old(entries)
              else r == Ok(id) && entries == old(entries)[id := Created(trigger, enabled, now)]
      ensures order == if trigger.Cron? then old(order) else old(order) + [id]
    {
      if trigger.Cron? {
        return Err(Unsupported);
      }
      entries := entries[id := Created(trigger, enabled, now)];
      order := order + [id];
      return Ok(id);
    }

    method SetStatus(id: Id, status: Status) returns (r: Result<Id, Error>)
      requires Valid()
      modifies this`entries
      ensures Valid()
      ensures if id !in old(entries) then r == Err(NotFound) && entries == old(entries)
              else r == Ok(id) && entries == old(entries)[id := old(entries)[id].(status := status)]
    {
      if id !in entries {
        return Err(NotFound);
      }
      entries := entries[id := entries[id].(status := status)];
      return Ok(id);
    }

    method Update(id: Id, trigger: ValidTrigger, now: real) returns (r: Result<Id, Error>)
      requires Valid()
      modifies this`entries
      ensures Valid()
      ensures if trigger.Cron? then r == Err(Unsupported) && entries == old(entries)
              else if id !in old(entries) then r == Err(NotFound) && entries == old(entries)
              else r == Ok(id) && entries == old(entries)[id := Updated(old(entries)[id], trigger, now)]
    {
      if trigger.Cron? {
        return Err(Unsupported);
      }
      if id !in entries {
        return Err(NotFound);
      }
      var entry := entries[id];
      entry := entry.(trigger := trigger);
      entry := entry.(exhausted := false);
      entry := entry.(nextRun := NextRun(trigger, now));
      entries := entries[id := entry];
      return Ok(id);
    }

    method Delete(id: Id)
      requires Valid()
      modifies this
      ensures Valid() && entries == old(entries) - {id}
      ensures order == OrderWithout(old(order), id)
    {
      OrderWithoutKeeps(order, id);
      OrderWithoutMembers(order, id);
      entries := entries - {id};
      order := OrderWithout(order, id);
    }

    /** Fires every enabled schedule that is due; `firing` is what each target does. */
    method RunPending(now: real, firing: Id -> Firing) returns (fired: seq<Id>, raised: bool)
      requires Valid()
      modifies this`entries
      ensures Valid()
      ensures Sweep(entries, fired, raised) == SweepAll(old(entries), order, now, firing)
    {
      fired := [];
      ghost var start := entries;
      for i := 0 to |order|
        invariant entries.Keys == start.Keys
        invariant Sweep(entries, fired, false) == SweepAll(start, order[..i], now, firing)
      {
        var k := order[i];
        SweepStep(start, order, i, now, firing);
        var entry := entries[k];
        if entry.status != Enabled || entry.exhausted {
          continue;
        }
        if entry.nextRun.None? || entry.nextRun.value > now {
          continue;
        }
        if firing(k) == ProviderError {
          SweepStaysRaised(start, order, i + 1, now, firing);
          return fired, true;
        }
        entry := entry.(fires := entry.fires + [now]);
        fired := fired + [k];
        entries := entries[k := Advanced(entry, now)];
      }
      assert order[..|order|] == order;
      raised := false;
    }
  }

  /** What a sweep does to one entry: it fires it if due, unless a provider error came first or the
      sweep does not reach it. */
  lemma {:induction false} SweepOfOne(entries: map<Id, Entry>, ids: seq<Id>, now: real, firing: Id -> Firing, k: Id)
    requires (forall j :: j in ids ==> j in entries) && k in entries
    requires Distinct(ids)
    ensures var s := SweepAll(entries, ids, now, firing);
            && k in s.entries
            && s.entries[k] == (if k in s.fired then Swept(entries[k], now, Recorded) else entries[k])
            && (k in s.fired ==> k in ids && Due(entries[k], now) && firing(k) == Recorded)
            && (!s.raised && k in ids && Due(entries[k], now) ==> k in s.fired)
  {
    if ids != [] {
      SweepOfOne(entries, ids[..|ids| - 1], now, firing, k);
      assert ids == ids[..|ids| - 1] + [ids[|ids| - 1]];
      if ids[|ids| - 1] != k {
        SweepOfOne(entries, ids[..|ids| - 1], now, firing, ids[|ids| - 1]);
      }
    }
  }

  /** A due entry whose target raises a provider error: it cuts the sweep short and stays due. */
  predicate Blocks(entries: map<Id, Entry>, id: Id, now: real, firing: Id -> Firing) {
    id in entries && Due(entries[id], now) && firing(id) == ProviderError
  }

  ghost predicate BlockedBefore(entries: map<Id, Entry>, ids: seq<Id>, j: nat, now: real, firing: Id -> Firing)
    requires j <= |ids|
  {
    exists i :: 0 <= i < j && Blocks(entries, ids[i], now, firing)
  }

  lemma BlockedStep(entries: map<Id, Entry>, ids: seq<Id>, j: nat, now: real, firing: Id -> Firing)
    requires 0 < j <= |ids|
    ensures BlockedBefore(entries, ids, j, now, firing) <==>
            BlockedBefore(entries, ids[..j - 1], j - 1, now, firing) || Blocks(entries, ids[j - 1], now, firing)
  {
    forall i | 0 <= i < j - 1
      ensures ids[..j - 1][i] == ids[i]
    {
    }
  }

  lemma {:induction false} RaisedIffBlocked(
    entries: map<Id, Entry>, ids: seq<Id>, now: real, firing: Id -> Firing)
    requires (forall k :: k in ids ==> k in entries) && Distinct(ids)
    ensures SweepAll(entries, ids, now, firing).raised <==> BlockedBefore(entries, ids, |ids|, now, firing)
  {
    if ids != [] {
      var n := |ids| - 1;
      RaisedIffBlocked(entries, ids[..n], now, firing);
      SweepOfOne(entries, ids[..n], now, firing, ids[n]);
      BlockedStep(entries, ids, n + 1, now, firing);
    }
  }

  lemma {:induction false} FiredInPrefix(
    entries: map<Id, Entry>, ids: seq<Id>, j: nat, now: real, firing: Id -> Firing)
    requires (forall k :: k in ids ==> k in entries) && Distinct(ids) && j < |ids|
    ensures ids[j] in SweepAll(entries, ids, now, firing).fired
       <==> ids[j] in SweepAll(entries, ids[..j + 1], now, firing).fired
    decreases |ids|
  {
    if j + 1 == |ids| {
      assert ids[..j + 1] == ids;
    } else {
      var front := ids[..|ids| - 1];
      assert front[..j + 1] == ids[..j + 1] && front[j] == ids[j];
      FiredInPrefix(entries, front, j, now, firing);
    }
  }

  lemma LastIsFired(entries: map<Id, Entry>, ids: seq<Id>, now: real, firing: Id -> Firing)
    requires (forall k :: k in ids ==> k in entries) && Distinct(ids) && ids != []
    ensures var n := |ids| - 1;
            ids[n] in SweepAll(entries, ids, now, firing).fired <==>
              && Due(entries[ids[n]], now) && firing(ids[n]) == Recorded
              && !SweepAll(entries, ids[..n], now, firing).raised
  {
    SweepOfOne(entries, ids[..|ids| - 1], now, firing, ids[|ids| - 1]);
  }

  lemma BlockedInPrefix(entries: map<Id, Entry>, ids: seq<Id>, j: nat, now: real, firing: Id -> Firing)
    requires j <= |ids|
    ensures BlockedBefore(entries, ids[..j], j, now, firing) <==> BlockedBefore(entries, ids, j, now, firing)
  {
    assert forall i :: 0 <= i < j ==> ids[..j][i] == ids[i];
  }

  /** Which entries a sweep fires: exactly those that are due and do not raise themselves, with no due entry
      before them, in order of creation, that raises a provider error. */
  lemma FiredIffNotBlocked(entries: map<Id, Entry>, ids: seq<Id>, j: nat, now: real, firing: Id -> Firing)
    requires (forall k :: k in ids ==> k in entries) && Distinct(ids) && j < |ids|
    ensures ids[j] in SweepAll(entries, ids, now, firing).fired
       <==> Due(entries[ids[j]], now) && firing(ids[j]) == Recorded && !BlockedBefore(entries, ids, j, now, firing)
  {
    assert ids[..j + 1][..j] == ids[..j];
    FiredInPrefix(entries, ids, j, now, firing);
    LastIsFired(entries, ids[..j + 1], now, firing);
    RaisedIffBlocked(entries, ids[..j], now, firing);
    BlockedInPrefix(entries, ids, j, now, firing);
  }

  datatype SweepCall = SweepCall(now: real, firing: Id -> Firing)

  lemma {:induction false} SweepAllKeeps(entries: map<Id, Entry>, ids: seq<Id>, now: real, firing: Id -> Firing)
    requires forall k :: k in ids ==> k in entries
    ensures SweepAll(entries, ids, now, firing).entries.Keys == entries.Keys
  {
    if ids != [] {
      SweepAllKeeps(entries, ids[..|ids| - 1], now, firing);
    }
  }

  /** Sweeps, one after the other. */
  function Sweeps(entries: map<Id, Entry>, ids: seq<Id>, calls: seq<SweepCall>): (r: map<Id, Entry>)
    requires forall k :: k in ids ==> k in entries
    ensures forall k :: k in ids ==> k in r
    decreases |calls|
  {
    if calls == [] then entries
    else
      var call := calls[|calls| - 1];
      SweepAllKeeps(Sweeps(entries, ids, calls[..|calls| - 1]), ids, call.now, call.firing);
      SweepAll(Sweeps(entries, ids, calls[..|calls| - 1]), ids, call.now, call.firing).entries
  }

  /** As long as an entry is due and its target raises a provider error, it and every entry created after it
      stay as they are, however many sweeps are made: none of them ever fires. */
  lemma {:induction false} BlockedNeverFires(
    entries: map<Id, Entry>, ids: seq<Id>, calls: seq<SweepCall>, i: nat, j: nat)
    requires (forall k :: k in ids ==> k in entries) && Distinct(ids) && i <= j < |ids|
    requires forall c :: 0 <= c < |calls| ==> Blocks(entries, ids[i], calls[c].now, calls[c].firing)
    ensures Sweeps(entries, ids, calls)[ids[j]] == entries[ids[j]]
    decreases |calls|
  {
    if calls != [] {
      var before, call := Sweeps(entries, ids, calls[..|calls| - 1]), calls[|calls| - 1];
      BlockedNeverFires(entries, ids, calls[..|calls| - 1], i, i);
      BlockedNeverFires(entries, ids, calls[..|calls| - 1], i, j);
      assert Blocks(before, ids[i], call.now, call.firing);
      FiredIffNotBlocked(before, ids, j, call.now, call.firing);
      SweepOfOne(before, ids, call.now, call.firing, ids[j]);
    }
  }

  /** Concretely: two schedules that are due, of which the first one's target raises. Nothing fires. */
  lemma BlockedExample(first: Id, second: Id, t: real)
    requires first != second
    ensures var e := Created(OneShot(t), true, t);
            var firing := (k: Id) => if k == first then ProviderError else Recorded;
            && Due(e, t)
            && SweepAll(map[first := e, second := e], [first, second], t, firing)
            == Sweep(map[first := e, second := e], [], true)
  {
    var e := Created(OneShot(t), true, t);
    var firing := (k: Id) => if k == first then ProviderError else Recorded;
    var entries := map[first := e, second := e];
    assert [first][..0] == [] && [first, second][..1] == [first];
    assert SweepAll(entries, [], t, firing) == Sweep(entries, [], false);
    assert SweepAll(entries, [first], t, firing) == Sweep(entries, [], true);
  }

  /** Everything that can happen to one entry. A sweep cut short before it does not reach it. */
  datatype Event = RunPending(now: real, firing: Firing) | Pause | Resume | Update(trigger: ValidTrigger, now: real)

  function Apply(e: Entry, event: Event): Entry {
    match event
    case RunPending(now, firing) => Swept(e, now, firing)
    case Pause => e.(status := Paused)
    case Resume => e.(status := Enabled)
    case Update(trigger, now) => Updated(e, trigger, now)
  }

  function Run(e: Entry, events: seq<Event>): Entry {
    if events == [] then e else Apply(Run(e, events[..|events| - 1]), events[|events| - 1])
  }

  predicate NoUpdate(events: seq<Event>) {
    forall i :: 0 <= i < |events| ==> !events[i].Update?
  }

  /** The time `k` intervals after creation. */
  function Slot(created: real, seconds: real, k: nat): real {
    if k == 0 then created else Slot(created, seconds, k - 1) + seconds
  }

  lemma {:induction false} SlotIsMultiple(created: real, seconds: real, k: nat)
    ensures Slot(created, seconds, k) == created + k as real * seconds
  {
    if k > 0 {
      SlotIsMultiple(created, seconds, k - 1);
      assert k as real * seconds == (k - 1) as real * seconds + seconds;
    }
  }

  /** An interval schedule as its creation, or an update from whatever it was before, leaves it at `start`. */
  predicate Scheduled(e: Entry, seconds: real, start: real) {
    e.trigger == Interval(seconds) && !e.exhausted && e.nextRun == Some(start + seconds)
  }

  /** The fires of an interval schedule since it was scheduled, when it had fired `earlier` times, and when
      the next one is due. */
  ghost predicate Spaced(e: Entry, earlier: nat, start: real, seconds: real) {
    && e.trigger == Interval(seconds) && !e.exhausted && earlier <= |e.fires|
    && (forall k :: earlier <= k < |e.fires| ==> e.fires[k] >= Slot(start, seconds, k - earlier + 1))
    && (forall k :: earlier <= k < |e.fires| - 1 ==> e.fires[k + 1] >= e.fires[k] + seconds)
    && e.nextRun == Some((if |e.fires| == earlier then start else e.fires[|e.fires| - 1]) + seconds)
  }

  lemma SweptStaysSpaced(e: Entry, earlier: nat, start: real, seconds: real, now: real, firing: Firing)
    requires seconds > 0.0 && Spaced(e, earlier, start, seconds)
    ensures Spaced(Swept(e, now, firing), earlier, start, seconds)
  {
    if Due(e, now) && firing == Recorded {
      var n := |e.fires|;
      var e' := Swept(e, now, firing);
      assert e'.fires == e.fires + [now];
      assert n > earlier ==> e.fires[n - 1] >= Slot(start, seconds, n - 1 - earlier + 1);
      assert now >= Slot(start, seconds, n - earlier + 1);
    }
  }

  /** Spacing: whatever the moments of the sweeps, in whatever order, and whatever is paused or resumed
      between them, the fire number k since an interval schedule was created or last updated comes at or
      after that moment plus k intervals, and consecutive fires are at least one interval apart. */
  lemma {:induction false} IntervalIsSpaced(e: Entry, seconds: real, start: real, events: seq<Event>)
    requires seconds > 0.0 && Scheduled(e, seconds, start) && NoUpdate(events)
    ensures Spaced(Run(e, events), |e.fires|, start, seconds)
    ensures e.fires <= Run(e, events).fires
  {
    if events != [] {
      var before := events[..|events| - 1];
      IntervalIsSpaced(e, seconds, start, before);
      match events[|events| - 1]
      case RunPending(now, firing) => SweptStaysSpaced(Run(e, before), |e.fires|, start, seconds, now, firing);
      case _ =>
    }
  }

  function CountUpTo(fires: seq<real>, t: real): nat {
    if fires == [] then 0
    else CountUpTo(fires[..|fires| - 1], t) + if fires[|fires| - 1] <= t then 1 else 0
  }

  /** Which fires fall up to time `t`. */
  function FiredBy(fires: seq<real>, t: real): set<nat> {
    set k: nat | k < |fires| && fires[k] <= t
  }

  lemma OneMoreInTime(fires: seq<real>, t: real)
    requires fires != []
    ensures var n := |fires| - 1;
            |FiredBy(fires, t)| == |FiredBy(fires[..n], t)| + if fires[n] <= t then 1 else 0
  {
    var n := |fires| - 1;
    var before, all := FiredBy(fires[..n], t), FiredBy(fires, t);
    forall k: nat
      ensures k in all <==> k in before || (k == n && fires[n] <= t)
    {
    }
    if fires[n] <= t {
      assert all == before + {n} && n !in before;
    } else {
      assert all == before;
    }
  }

  lemma {:induction false} CountIsSize(fires: seq<real>, t: real)
    ensures CountUpTo(fires, t) == |FiredBy(fires, t)|
  {
    if fires == [] {
      assert FiredBy(fires, t) == {};
    } else {
      CountIsSize(fires[..|fires| - 1], t);
      OneMoreInTime(fires, t);
    }
  }

  lemma {:induction false} CountAtMostLength(fires: seq<real>, t: real)
    ensures CountUpTo(fires, t) <= |fires|
  {
    if fires != [] {
      CountAtMostLength(fires[..|fires| - 1], t);
    }
  }

  lemma AtMostQuotient(n: nat, seconds: real, elapsed: real)
    requires seconds > 0.0 && n as real * seconds <= elapsed
    ensures n <= (elapsed / seconds).Floor
  {
    var q := elapsed / seconds;
    assert q * seconds == elapsed;
    assert n as real > q ==> (n as real - q) * seconds > 0.0;
    assert n as real <= q;
  }

  lemma {:induction false} CountIsBounded(fires: seq<real>, created: real, seconds: real, t: real)
    requires seconds > 0.0 && t >= created
    requires forall k :: 0 <= k < |fires| ==> fires[k] >= Slot(created, seconds, k + 1)
    ensures CountUpTo(fires, t) <= ((t - created) / seconds).Floor
  {
    if fires == [] {
      AtMostQuotient(0, seconds, t - created);
    } else {
      var n := |fires|;
      CountIsBounded(fires[..n - 1], created, seconds, t);
      if fires[n - 1] <= t {
        CountAtMostLength(fires, t);
        SlotIsMultiple(created, seconds, n);
        AtMostQuotient(n, seconds, t - created);
      }
    }
  }

  /** In plain arithmetic: the fire number k is at or after `start` plus k intervals, and at most as many
      fires fall up to time t as whole intervals have passed since `start`. */
  ghost predicate Bounded(fires: seq<real>, start: real, seconds: real, t: real)
    requires seconds > 0.0
  {
    && (forall k :: 0 <= k < |fires| ==> fires[k] >= start + (k + 1) as real * seconds)
    && |FiredBy(fires, t)| <= ((t - start) / seconds).Floor
  }

  lemma {:induction false} SlotsAreBounded(fires: seq<real>, start: real, seconds: real, t: real)
    requires seconds > 0.0 && t >= start
    requires forall k :: 0 <= k < |fires| ==> fires[k] >= Slot(start, seconds, k + 1)
    ensures Bounded(fires, start, seconds, t)
  {
    forall k | 0 <= k < |fires|
      ensures fires[k] >= start + (k + 1) as real * seconds
    {
      SlotIsMultiple(start, seconds, k + 1);
    }
    CountIsBounded(fires, start, seconds, t);
    CountIsSize(fires, t);
  }

  lemma SpacedTail(e: Entry, earlier: nat, start: real, seconds: real)
    requires Spaced(e, earlier, start, seconds)
    ensures forall k :: 0 <= k < |e.fires[earlier..]| ==> e.fires[earlier..][k] >= Slot(start, seconds, k + 1)
  {
    forall k | 0 <= k < |e.fires[earlier..]|
      ensures e.fires[earlier..][k] >= Slot(start, seconds, k + 1)
    {
      assert e.fires[earlier + k] >= Slot(start, seconds, earlier + k - earlier + 1);
    }
  }

  lemma {:induction false} FiresSinceAreBounded(e: Entry, seconds: real, start: real, events: seq<Event>, t: real)
    requires seconds > 0.0 && Scheduled(e, seconds, start) && NoUpdate(events) && t >= start
    ensures e.fires <= Run(e, events).fires
    ensures Bounded(Run(e, events).fires[|e.fires|..], start, seconds, t)
  {
    IntervalIsSpaced(e, seconds, start, events);
    SpacedTail(Run(e, events), |e.fires|, start, seconds);
    SlotsAreBounded(Run(e, events).fires[|e.fires|..], start, seconds, t);
  }

  /** All the fires of an interval schedule that is never updated, from its creation. */
  lemma {:induction false} FiresAreBounded(seconds: real, enabled: bool, created: real, events: seq<Event>, t: real)
    requires seconds > 0.0 && NoUpdate(events) && t >= created
    ensures Bounded(Run(Created(Interval(seconds), enabled, created), events).fires, created, seconds, t)
  {
    var e := Created(Interval(seconds), enabled, created);
    FiresSinceAreBounded(e, seconds, created, events, t);
    assert Run(e, events).fires[0..] == Run(e, events).fires;
  }

  lemma {:induction false} RunConcat(e: Entry, a: seq<Event>, b: seq<Event>)
    ensures Run(e, a + b) == Run(Run(e, a), b)
  {
    if b == [] {
      assert a + b == a;
    } else {
      assert (a + b)[..|a + b| - 1] == a + b[..|b| - 1];
      RunConcat(e, a, b[..|b| - 1]);
    }
  }

  /** The fires of any schedule since its last update, at the moment `updated` and to an interval, whatever
      the schedule was and did before. */
  lemma {:induction false} FiresSinceUpdateAreBounded(
    e: Entry, before: seq<Event>, seconds: real, updated: real, after: seq<Event>, t: real)
    requires seconds > 0.0 && NoUpdate(after) && t >= updated
    ensures var earlier := Run(e, before).fires;
            var all := Run(e, before + [Update(Interval(seconds), updated)] + after).fires;
            earlier <= all && Bounded(all[|earlier|..], updated, seconds, t)
  {
    var update := Update(Interval(seconds), updated);
    assert (before + [update])[..|before|] == before;
    RunConcat(e, before + [update], after);
    FiresSinceAreBounded(Updated(Run(e, before), Interval(seconds), updated), seconds, updated, after, t);
  }

  /** Sweeps on the dot, one per interval. */
  function OnTheDot(created: real, seconds: real, n: nat): seq<Event> {
    if n == 0 then []
    else OnTheDot(created, seconds, n - 1) + [RunPending(Slot(created, seconds, n), Recorded)]
  }

  lemma {:induction false} DotCount(created: real, seconds: real, n: nat)
    ensures |OnTheDot(created, seconds, n)| == n
  {
    if n > 0 {
      DotCount(created, seconds, n - 1);
    }
  }

  /** The bound is met by an enabled schedule that is swept on the dot: n sweeps, n fires, on time. */
  lemma {:induction false} BoundIsMet(seconds: real, created: real, n: nat)
    requires seconds > 0.0
    ensures var e := Run(Created(Interval(seconds), true, created), OnTheDot(created, seconds, n));
            && |e.fires| == n && e.status == Enabled && !e.exhausted && e.trigger == Interval(seconds)
            && e.nextRun == Some(Slot(created, seconds, n + 1))
            && forall k :: 0 <= k < n ==> e.fires[k] == Slot(created, seconds, k + 1)
  {
    if n > 0 {
      BoundIsMet(seconds, created, n - 1);
      var events := OnTheDot(created, seconds, n);
      DotCount(created, seconds, n - 1);
      assert |events| == n && events[..n - 1] == OnTheDot(created, seconds, n - 1);
      assert events[n - 1] == RunPending(Slot(created, seconds, n), Recorded);
    }
  }

  function Updates(events: seq<Event>): nat {
    if events == [] then 0
    else Updates(events[..|events| - 1]) + if events[|events| - 1].Update? then 1 else 0
  }

  /** A one-shot schedule since it was scheduled for the time `at`, when it had fired `earlier` times: it is
      used up by its one fire, which is not before its time. */
  ghost predicate FiredOnceAtMost(e: Entry, earlier: nat, at: real) {
    && e.trigger == OneShot(at) && earlier <= |e.fires| <= earlier + 1
    && (e.exhausted <==> |e.fires| == earlier + 1)
    && (e.exhausted ==> e.fires[earlier] >= at)
    && e.nextRun == if e.exhausted then None else Some(at)
  }

  lemma {:induction false} OneShotSince(e: Entry, at: real, events: seq<Event>)
    requires e.trigger == OneShot(at) && !e.exhausted && e.nextRun == Some(at) && NoUpdate(events)
    ensures e.fires <= Run(e, events).fires && FiredOnceAtMost(Run(e, events), |e.fires|, at)
  {
    if events != [] {
      OneShotSince(e, at, events[..|events| - 1]);
    }
  }

  /** A sweep that would fire a one-shot: at or after its time, while it is not paused. */
  ghost predicate Reaches(e: Entry, at: real, events: seq<Event>, i: nat)
    requires i < |events|
  {
    && events[i].RunPending? && events[i].firing == Recorded && events[i].now >= at
    && Run(e, events[..i]).status == Enabled
  }

  ghost predicate Reached(e: Entry, at: real, events: seq<Event>) {
    exists i :: 0 <= i < |events| && Reaches(e, at, events, i)
  }

  lemma ReachedStep(e: Entry, at: real, events: seq<Event>)
    requires events != []
    ensures var n := |events| - 1;
            Reached(e, at, events) <==> Reached(e, at, events[..n]) || Reaches(e, at, events, n)
  {
    var n := |events| - 1;
    forall i | 0 <= i < n
      ensures Reaches(e, at, events[..n], i) <==> Reaches(e, at, events, i)
    {
      assert events[..n][..i] == events[..i];
    }
    if Reached(e, at, events[..n]) {
      var i :| 0 <= i < n && Reaches(e, at, events[..n], i);
      assert Reaches(e, at, events, i);
    }
  }

  /** A one-shot schedule fires exactly if, since it was scheduled, such a sweep came. */
  lemma {:induction false} OneShotFiresIfReached(e: Entry, at: real, events: seq<Event>)
    requires e.trigger == OneShot(at) && !e.exhausted && e.nextRun == Some(at) && NoUpdate(events)
    ensures Run(e, events).exhausted <==> Reached(e, at, events)
  {
    if events != [] {
      var front := events[..|events| - 1];
      OneShotFiresIfReached(e, at, front);
      OneShotSince(e, at, front);
      ReachedStep(e, at, events);
    }
  }

  /** A one-shot schedule that is never updated fires at most once, and not before its time. */
  lemma OneShotFiresOnce(at: real, enabled: bool, created: real, events: seq<Event>)
    requires NoUpdate(events)
    ensures FiredOnceAtMost(Run(Created(OneShot(at), enabled, created), events), 0, at)
  {
    OneShotSince(Created(OneShot(at), enabled, created), at, events);
  }

  /** After its last update, to a one-shot, any schedule fires at most once more, and not before the new time,
      whatever it was and did before. */
  lemma OneShotFiresOncePerSchedule(e: Entry, before: seq<Event>, at: real, updated: real, after: seq<Event>)
    requires NoUpdate(after)
    ensures var earlier, r := Run(e, before).fires, Run(e, before + [Update(OneShot(at), updated)] + after);
            earlier <= r.fires && FiredOnceAtMost(r, |earlier|, at)
  {
    var update := Update(OneShot(at), updated);
    assert (before + [update])[..|before|] == before;
    RunConcat(e, before + [update], after);
    OneShotSince(Updated(Run(e, before), OneShot(at), updated), at, after);
  }

  /** Over a whole run in which every update is to a one-shot, the fires are at most as many as the creation
      and the updates. */
  lemma {:induction false} OneShotFiresAreCounted(at: real, enabled: bool, created: real, events: seq<Event>)
    requires forall i :: 0 <= i < |events| && events[i].Update? ==> events[i].trigger.OneShot?
    ensures var e := Run(Created(OneShot(at), enabled, created), events);
            && e.trigger.OneShot?
            && (e.exhausted ==> e.nextRun == None)
            && (!e.exhausted ==> e.nextRun == Some(e.trigger.at))
            && |e.fires| + (if e.exhausted then 0 else 1) <= 1 + Updates(events)
            && (NoUpdate(events) ==> e.trigger.at == at && forall k :: 0 <= k < |e.fires| ==> e.fires[k] >= at)
  {
    if events != [] {
      OneShotFiresAreCounted(at, enabled, created, events[..|events| - 1]);
    }
  }

  /** A paused schedule does not fire, not even after an update, until it is resumed. */
  lemma {:induction false} PausedNeverFires(e: Entry, events: seq<Event>)
    requires e.status == Paused && forall i :: 0 <= i < |events| ==> !events[i].Resume?
    ensures Run(e, events).fires == e.fires && Run(e, events).status == Paused
  {
    if events != [] {
      PausedNeverFires(e, events[..|events| - 1]);
    }
  }

  lemma SweepOfInterval(r: Entry, seconds: real, due: real, now: real)
    requires r.trigger == Interval(seconds) && !r.exhausted && r.nextRun == Some(due)
    ensures var r' := Apply(r, RunPending(now, Recorded));
            if r.status == Enabled && now >= due then r'.fires == r.fires + [now] && r'.nextRun == Some(now + seconds)
            else r' == r
  {
  }

  lemma {:induction false} RunOneMore(e: Entry, events: seq<Event>, event: Event)
    ensures Run(e, events + [event]) == Apply(Run(e, events), event)
  {
    assert (events + [event])[..|events|] == events;
  }

  /** When an interval schedule fires, late or not: a sweep fires it exactly if it is enabled and one interval has
      passed since its last fire, or since it was scheduled, and then the next interval counts from that sweep. */
  lemma {:induction false} IntervalFiresIfDue(e: Entry, seconds: real, start: real, events: seq<Event>, now: real)
    requires seconds > 0.0 && Scheduled(e, seconds, start) && NoUpdate(events)
    ensures var r, r' := Run(e, events), Run(e, events + [RunPending(now, Recorded)]);
            && |r.fires| >= |e.fires|
            && var last := if |r.fires| == |e.fires| then start else r.fires[|r.fires| - 1];
               if r.status == Enabled && now >= last + seconds then
                 r'.fires == r.fires + [now] && r'.nextRun == Some(now + seconds)
               else r' == r
  {
    RunOneMore(e, events, RunPending(now, Recorded));
    IntervalIsSpaced(e, seconds, start, events);
    var r := Run(e, events);
    var last := if |r.fires| == |e.fires| then start else r.fires[|r.fires| - 1];
    SweepOfInterval(r, seconds, last + seconds, now);
  }

  ghost predicate PausedSince(events: seq<Event>, i: int) {
    && 0 <= i < |events| && events[i].Pause?
    && forall j :: i < j < |events| ==> !events[j].Resume?
  }

  /** A schedule is paused exactly if it was paused after it was last resumed, or created paused and never
      resumed. */
  lemma {:induction false} StatusInPlain(e: Entry, events: seq<Event>)
    ensures Run(e, events).status == Paused <==>
            || (e.status == Paused && forall i :: 0 <= i < |events| ==> !events[i].Resume?)
            || exists i :: PausedSince(events, i)
  {
    if events != [] {
      var n := |events| - 1;
      var front, last := events[..n], events[n];
      StatusInPlain(e, front);
      assert forall i :: 0 <= i < n ==> front[i] == events[i];
      if last.Pause? {
        assert PausedSince(events, n);
      } else if !last.Resume? {
        forall i
          ensures PausedSince(events, i) <==> PausedSince(front, i)
        {
        }
      }
    }
  }

  /** A schedule that is created disabled does not fire until it is resumed. */
  lemma CreatedDisabledNeverFires(trigger: ValidTrigger, created: real, events: seq<Event>)
    requires forall i :: 0 <= i < |events| ==> !events[i].Resume?
    ensures Run(Created(trigger, false, created), events).fires == []
    ensures Created(trigger, true, created).status == Enabled
  {
    PausedNeverFires(Created(trigger, false, created), events);
  }
}
