/** The generic wait of a backend: polling against a deadline. */
module Ports {
  import opened Executions

  /** Seconds slept between polls. */
  const POLL_INTERVAL := 0.1

  function Ceiling(x: real): (n: int)
    ensures (n - 1) as real < x <= n as real
  {
    -((-x).Floor)
  }

  /** A clock read once per poll, which every sleep advances by at least the time slept. */
  ghost predicate Ticks(started: real, now: nat -> real) {
    now(0) >= started && forall i: nat :: now(i + 1) >= now(i) + POLL_INTERVAL
  }

  datatype Waited = Ended(state: State) | GaveUp(lastState: State)

  lemma {:induction false} ClockRuns(started: real, now: nat -> real, i: nat)
    requires Ticks(started, now)
    ensures now(i) >= started + i as real * POLL_INTERVAL
  {
    if i > 0 {
      ClockRuns(started, now, i - 1);
      assert now(i - 1 + 1) >= now(i - 1) + POLL_INTERVAL;
    }
  }

  /** How many polls can start before a deadline. */
  lemma PollsBeforeDeadline(started: real, now: nat -> real, i: nat, timeout: real)
    requires Ticks(started, now) && now(i) < started + timeout
    ensures i + 1 <= Ceiling(timeout / POLL_INTERVAL)
  {
    ClockRuns(started, now, i);
  }

  /** Polls until a terminal snapshot, which it returns, or until a poll was not terminal and the deadline
      had passed. `observed(i)` is what poll i sees. With no timeout the execution has to end at some
      poll, here `ending`, or the wait goes on for ever. */
  method Wait(started: real, timeout: Option<real>, now: nat -> real, observed: nat -> State, ghost ending: nat)
    returns (r: Waited, polls: nat)
    requires Ticks(started, now)
    requires timeout.None? ==> observed(ending).IsTerminal()
    ensures polls >= 1 && forall i :: 0 <= i < polls - 1 ==> !observed(i).IsTerminal()
    ensures match r
            case Ended(state) => state == observed(polls - 1) && state.IsTerminal()
            case GaveUp(state) =>
              && state == observed(polls - 1) && !state.IsTerminal()
              && timeout.Some? && now(polls - 1) >= started + timeout.value
    ensures forall i :: 0 <= i < polls - 1 && timeout.Some? ==> now(i) < started + timeout.value
    ensures timeout.Some? && timeout.value >= 0.0 ==> polls <= Ceiling(timeout.value / POLL_INTERVAL) + 1
    ensures timeout.Some? && timeout.value <= 0.0 ==> polls == 1
  {
    polls := 0;
    ghost var limit := if timeout.None? then ending else
      if timeout.value >= 0.0 then Ceiling(timeout.value / POLL_INTERVAL) else 0;
    while true
      invariant 0 <= polls <= limit
      invariant forall i :: 0 <= i < polls ==> !observed(i).IsTerminal()
      invariant forall i :: 0 <= i < polls && timeout.Some? ==> now(i) < started + timeout.value
      decreases limit + 1 - polls
    {
      var state := observed(polls);
      ghost var i := polls;
      polls := polls + 1;
      if timeout.Some? {
        ClockRuns(started, now, 0);
        if i > 0 {
          ClockRuns(started, now, i - 1);
        }
      }
      if state.IsTerminal() {
        return Ended(state), polls;
      }
      if timeout.Some? && now(polls - 1) >= started + timeout.value {
        return GaveUp(state), polls;
      }
      if timeout.Some? {
        ClockRuns(started, now, i);
        PollsBeforeDeadline(started, now, i, timeout.value);
      }
    }
  }
}
