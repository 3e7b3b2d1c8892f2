/** Jobs run as child processes: how a record follows a child that may exit at any moment. */
module SubprocessBackend {
  import opened Executions

  datatype Failure = TimedOutAfter(seconds: real) | WasCancelled | ExitedWith(code: int)

  datatype JobResult = JobResult(exitCode: int, error: Option<Failure>)

  datatype Execution = Execution(state: State, finishedAt: Option<real>, result: Option<JobResult>)

  /** One job: when it started and for how long it may run, the child's exit code once it is dead,
      the two flags, and the execution last computed. */
  datatype Job = Job(
    started: real, budget: Option<real>, exit: Option<int>,
    cancelled: bool, timedOut: bool, execution: Execution)

  function Submitted(started: real, budget: Option<real>): Job {
    Job(started, budget, None, false, false, Execution(Running, None, None))
  }

  predicate ExceededTimeout(j: Job, now: real) {
    j.budget.Some? && now - j.started > j.budget.value
  }

  function StateFor(j: Job, code: int): State {
    if j.timedOut then TimedOut
    else if j.cancelled then Cancelled
    else if code == 0 then Succeeded else Failed
  }

  function ResultFor(j: Job, code: int): JobResult {
    JobResult(code,
              if j.timedOut then Some(TimedOutAfter(if j.budget.Some? then j.budget.value else 0.0))
              else if j.cancelled then Some(WasCancelled)
              else if code != 0 then Some(ExitedWith(code))
              else None)
  }

  /** What the surroundings decide during one locked section: the time of the budget check, the time
      it ends, and the code a child gets that is stopped in it. */
  datatype Moment = Moment(now: real, later: real, code: int)

  predicate Sound(m: Moment) {
    m.now <= m.later
  }

  /** Terminate, wait, and kill if that took too long: either way the child is dead afterwards. */
  function Stopped(j: Job, timedOut: bool, m: Moment): Job {
    j.(timedOut := timedOut, exit := Some(if j.exit.Some? then j.exit.value else m.code),
       execution := j.execution.(finishedAt := Some(m.later)))
  }

  function Settled(j: Job, m: Moment): Job
    requires j.exit.Some?
  {
    j.(execution := Execution(
         StateFor(j, j.exit.value),
         if j.execution.finishedAt.Some? then j.execution.finishedAt else Some(m.later),
         Some(ResultFor(j, j.exit.value))))
  }

  function Refreshed(j: Job, m: Moment): Job {
    if j.execution.state.IsTerminal() then j
    else if j.exit.Some? then Settled(j, m)
    else if ExceededTimeout(j, m.now) then Settled(Stopped(j, true, m), m)
    else j
  }

  function CancelledNow(j: Job, m: Moment): Job {
    if j.execution.state.IsTerminal() then j
    else
      var stopped := if j.exit.None? then Stopped(j, false, m) else j;
      Refreshed(stopped.(cancelled := true), m)
  }

  function ChildExited(j: Job, code: int): Job {
    if j.exit.None? then j.(exit := Some(code)) else j
  }

  datatype WaitError = DeadlinePassed | StillWaiting

  datatype Look = Look(exits: Option<int>, moment: Moment, expired: bool)

  function AfterLooks(j: Job, looks: seq<Look>): Job {
    if looks == [] then j
    else
      var before := AfterLooks(j, looks[..|looks| - 1]);
      var look := looks[|looks| - 1];
      Refreshed(if look.exits.Some? then ChildExited(before, look.exits.value) else before, look.moment)
  }

  /** A record whose methods run under the backend's lock. The child itself is part of the record. */
  class Record {
    const started: real
    const budget: Option<real>
    var exit: Option<int>
    var cancelled: bool
    var timedOut: bool
    var execution: Execution

    function View(): Job
      reads this
    {
      Job(started, budget, exit, cancelled, timedOut, execution)
    }

    constructor (started: real, budget: Option<real>)
      ensures View() == Submitted(started, budget)
    {
      this.started, this.budget := started, budget;
      exit, cancelled, timedOut := None, false, false;
      execution := Execution(Running, None, None);
    }

    method Stop(timedOut: bool, m: Moment)
      modifies this
      ensures View() == Stopped(old(View()), timedOut, m)
    {
      this.timedOut := timedOut;
      if exit.None? {
        exit := Some(m.code);
      }
      execution := execution.(finishedAt := Some(m.later));
    }

    method Refresh(m: Moment) returns (snapshot: Execution)
      modifies this
      ensures View() == Refreshed(old(View()), m) && snapshot == execution
    {
      if execution.state.IsTerminal() {
        return execution;
      }
      var returncode := exit;
      if returncode.None? {
        if ExceededTimeout(View(), m.now) {
          Stop(true, m);
          returncode := exit;
        } else {
          return execution;
        }
      }
      execution := Execution(
        StateFor(View(), returncode.value),
        if execution.finishedAt.Some? then execution.finishedAt else Some(m.later),
        Some(ResultFor(View(), returncode.value)));
      return execution;
    }

    method Cancel(m: Moment) returns (snapshot: Execution)
      modifies this
      ensures View() == CancelledNow(old(View()), m) && snapshot == execution
    {
      if execution.state.IsTerminal() {
        return execution;
      }
      if exit.None? {
        Stop(false, m);
      }
      cancelled := true;
      snapshot := Refresh(m);
    }

    /** The waiting loop. Before each look the child may exit; after each look the caller's deadline
        may have passed. It uses the first `used` looks. */
    method Wait(looks: seq<Look>) returns (used: nat, r: Result<Execution, WaitError>)
      modifies this
      ensures used <= |looks| && View() == AfterLooks(old(View()), looks[..used])
      ensures match r
              case Ok(e) => used > 0 && e == execution && e.state.IsTerminal()
              case Err(DeadlinePassed) => used > 0 && looks[used - 1].expired && !execution.state.IsTerminal()
              case Err(StillWaiting) => used == |looks|
    {
      used := 0;
      while used < |looks|
        invariant 0 <= used <= |looks|
        invariant View() == AfterLooks(old(View()), looks[..used])
      {
        var look := looks[used];
        assert looks[..used + 1][..used] == looks[..used];
        used := used + 1;
        if look.exits.Some? && exit.None? {
          exit := look.exits;
        }
        var snapshot := Refresh(look.moment);
        if snapshot.state.IsTerminal() {
          return used, Ok(snapshot);
        }
        if look.expired {
          return used, Err(DeadlinePassed);
        }
      }
      return used, Err(StillWaiting);
    }
  }

  datatype Event = Exit(code: int) | Get(moment: Moment) | Cancel(moment: Moment)

  function Apply(j: Job, e: Event): Job {
    match e
    case Exit(code) => ChildExited(j, code)
    case Get(m) => Refreshed(j, m)
    case Cancel(m) => CancelledNow(j, m)
  }

  function Run(j: Job, events: seq<Event>): Job {
    if events == [] then j else Apply(Run(j, events[..|events| - 1]), events[|events| - 1])
  }

  predicate SoundEvents(events: seq<Event>) {
    forall e :: e in events ==> (e.Get? || e.Cancel? ==> Sound(e.moment))
  }

  /** What every record says. While the job is not over it is RUNNING with nothing recorded. Once it is
      over the child is dead, the exit code is the child's, and each state has its exact reason. */
  ghost predicate Consistent(j: Job) {
    if !j.execution.state.IsTerminal() then
      j.execution == Execution(Running, None, None) && !j.timedOut && !j.cancelled
    else
      && j.exit.Some? && j.execution.finishedAt.Some? && j.execution.result.Some?
      && !(j.timedOut && j.cancelled)
      && var code, result := j.exit.value, j.execution.result.value;
      && result.exitCode == code
      && (j.execution.state == TimedOut <==> j.timedOut)
      && (j.execution.state == Cancelled <==> j.cancelled)
      && (j.execution.state == Succeeded <==> code == 0 && !j.timedOut && !j.cancelled)
      && (j.execution.state == Failed <==> code != 0 && !j.timedOut && !j.cancelled)
      && (j.timedOut ==> j.budget.Some? && j.execution.finishedAt.value - j.started > j.budget.value)
      && (result.error == None <==> j.execution.state == Succeeded)
      && result.error == (match j.execution.state
                          case TimedOut => Some(TimedOutAfter(j.budget.value))
                          case Cancelled => Some(WasCancelled)
                          case Failed => Some(ExitedWith(code))
                          case _ => None)
  }

  lemma EventKeepsConsistent(j: Job, e: Event)
    requires Consistent(j) && (e.Get? || e.Cancel? ==> Sound(e.moment))
    ensures Consistent(Apply(j, e))
    ensures j.execution.state.IsTerminal() ==> Apply(j, e) == j
    ensures j.exit.Some? ==> Apply(j, e).exit == j.exit
    ensures TransitionsTo(j.execution.state, Apply(j, e).execution.state)
  {
  }

  /** Over every run against a child that exits whenever it likes: each record is consistent. */
  lemma {:induction false} RunIsConsistent(started: real, budget: Option<real>, events: seq<Event>)
    requires SoundEvents(events)
    ensures Consistent(Run(Submitted(started, budget), events))
    ensures Run(Submitted(started, budget), events).started == started
    ensures Run(Submitted(started, budget), events).budget == budget
  {
    if events != [] {
      var last := events[|events| - 1];
      assert last in events;
      assert forall e :: e in events[..|events| - 1] ==> e in events;
      RunIsConsistent(started, budget, events[..|events| - 1]);
      EventKeepsConsistent(Run(Submitted(started, budget), events[..|events| - 1]), last);
    }
  }

  lemma {:induction false} RunConcat(j: Job, a: seq<Event>, b: seq<Event>)
    ensures Run(j, a + b) == Run(Run(j, a), b)
  {
    if b == [] {
      assert a + b == a;
    } else {
      assert (a + b)[..|a + b| - 1] == a + b[..|b| - 1];
      RunConcat(j, a, b[..|b| - 1]);
    }
  }

  lemma {:induction false} TerminalStays(j: Job, events: seq<Event>)
    requires Consistent(j) && j.execution.state.IsTerminal() && SoundEvents(events)
    ensures Run(j, events) == j
  {
    if events != [] {
      var last := events[|events| - 1];
      assert last in events;
      assert forall e :: e in events[..|events| - 1] ==> e in events;
      TerminalStays(j, events[..|events| - 1]);
      EventKeepsConsistent(j, last);
    }
  }

  /** The first terminal snapshot never changes, whatever happens afterwards. */
  lemma TerminalSnapshotIsFinal(started: real, budget: Option<real>, before: seq<Event>, after: seq<Event>)
    requires SoundEvents(before) && SoundEvents(after)
    requires Run(Submitted(started, budget), before).execution.state.IsTerminal()
    ensures Run(Submitted(started, budget), before + after) == Run(Submitted(started, budget), before)
  {
    RunIsConsistent(started, budget, before);
    RunConcat(Submitted(started, budget), before, after);
    TerminalStays(Run(Submitted(started, budget), before), after);
  }

  /** When a look or a cancel settles the job, and as what: a look exactly if the child is dead or the
      budget is spent, with TIMED_OUT only for a child found alive; a cancel always, and as CANCELLED
      even for a child that had exited with success unseen. */
  lemma WhatSettlesAJob(j: Job, m: Moment)
    requires Consistent(j) && !j.execution.state.IsTerminal() && Sound(m)
    ensures Refreshed(j, m).execution.state ==
            match j.exit
            case Some(code) => if code == 0 then Succeeded else Failed
            case None => if j.budget.Some? && m.now > j.started + j.budget.value then TimedOut else Running
    ensures j.exit.None? && Refreshed(j, m).execution.state == TimedOut ==> Refreshed(j, m).exit == Some(m.code)
    ensures j.exit.None? && Refreshed(j, m).execution.state != TimedOut ==> Refreshed(j, m) == j
    ensures CancelledNow(j, m).execution.state == Cancelled
    ensures CancelledNow(j, m).exit == (if j.exit.Some? then j.exit else Some(m.code))
    ensures CancelledNow(j, m).execution.finishedAt == Some(m.later)
    ensures Refreshed(j, m) != j ==> Refreshed(j, m).execution.finishedAt == Some(m.later)
  {
  }

  /** A job that had ended with success, and is only then cancelled, is reported as CANCELLED. */
  lemma CancelAfterSuccess(started: real, budget: Option<real>, m: Moment)
    requires Sound(m)
    ensures var j := Run(Submitted(started, budget), [Exit(0), Cancel(m)]);
            j.execution.state == Cancelled && j.execution.result == Some(JobResult(0, Some(WasCancelled)))
  {
    assert [Exit(0), Cancel(m)][..1] == [Exit(0)];
    assert Run(Submitted(started, budget), [Exit(0)]) == ChildExited(Submitted(started, budget), 0);
  }

  /** What one look of a wait comes to: the child's exit before it, if there is one, and the look itself. */
  function EventsOf(look: Look): seq<Event> {
    match look.exits
    case Some(code) => [Exit(code), Get(look.moment)]
    case None => [Get(look.moment)]
  }

  function EventsOfAll(looks: seq<Look>): seq<Event> {
    if looks == [] then [] else EventsOfAll(looks[..|looks| - 1]) + EventsOf(looks[|looks| - 1])
  }

  lemma LookIsItsEvents(j: Job, look: Look)
    requires Sound(look.moment)
    ensures Run(j, EventsOf(look)) ==
            Refreshed(if look.exits.Some? then ChildExited(j, look.exits.value) else j, look.moment)
    ensures SoundEvents(EventsOf(look))
  {
    match look.exits
    case Some(code) =>
      assert EventsOf(look)[..1] == [Exit(code)] && [Exit(code)][..0] == [];
      assert Run(j, [Exit(code)]) == ChildExited(j, code);
    case None =>
      assert EventsOf(look)[..0] == [];
  }

  /** A wait is the run of its looks, so it returns only consistent terminal snapshots. */
  lemma {:induction false} WaitIsARun(j: Job, looks: seq<Look>)
    requires forall l :: l in looks ==> Sound(l.moment)
    ensures AfterLooks(j, looks) == Run(j, EventsOfAll(looks)) && SoundEvents(EventsOfAll(looks))
  {
    if looks != [] {
      var front, look := looks[..|looks| - 1], looks[|looks| - 1];
      assert look in looks;
      assert forall l :: l in front ==> l in looks;
      WaitIsARun(j, front);
      RunConcat(j, EventsOfAll(front), EventsOf(look));
      LookIsItsEvents(Run(j, EventsOfAll(front)), look);
    }
  }

  /** Looks only, all of them within the budget if there is one. */
  predicate InTime(started: real, budget: Option<real>, events: seq<Event>) {
    forall e :: e in events ==> e.Get? && Sound(e.moment)
                                && (budget.Some? ==> e.moment.now <= started + budget.value)
  }

  /** As long as nothing happens but looks within the budget, the job stays RUNNING and its child alive. */
  lemma {:induction false} LooksInTime(started: real, budget: Option<real>, events: seq<Event>)
    requires InTime(started, budget, events)
    ensures Run(Submitted(started, budget), events) == Job(started, budget, None, false, false,
                                                           Execution(Running, None, None))
  {
    if events != [] {
      var last := events[|events| - 1];
      assert last in events;
      assert forall e :: e in events[..|events| - 1] ==> e in events;
      LooksInTime(started, budget, events[..|events| - 1]);
    }
  }

  lemma FirstSettles(started: real, budget: Option<real>, before: seq<Event>, e: Event, after: seq<Event>)
    requires InTime(started, budget, before) && SoundEvents(after) && (e.Get? || e.Cancel? ==> Sound(e.moment))
    ensures var j := Apply(Submitted(started, budget), e);
            && Run(Submitted(started, budget), before + [e]) == j
            && (j.execution.state.IsTerminal() ==> Run(Submitted(started, budget), before + [e] + after) == j)
  {
    LooksInTime(started, budget, before);
    assert (before + [e])[..|before|] == before;
    var j := Submitted(started, budget);
    RunConcat(j, before + [e], after);
    EventKeepsConsistent(j, e);
    if Apply(j, e).execution.state.IsTerminal() {
      TerminalStays(Apply(j, e), after);
    }
  }

  /** The first look later than start plus budget, at a child still alive, stops it as TIMED_OUT for good. */
  lemma FirstLateLook(started: real, budget: real, before: seq<Event>, m: Moment, after: seq<Event>)
    requires InTime(started, Some(budget), before) && Sound(m) && m.now > started + budget && SoundEvents(after)
    ensures var j := Run(Submitted(started, Some(budget)), before + [Get(m)] + after);
            && j.execution.state == TimedOut && j.exit == Some(m.code)
            && j.execution.finishedAt == Some(m.later)
            && j.execution.result == Some(JobResult(m.code, Some(TimedOutAfter(budget))))
  {
    FirstSettles(started, Some(budget), before, Get(m), after);
  }

  /** A cancel of a child still alive stops it as CANCELLED for good. */
  lemma CancelOfLivingChild(started: real, budget: Option<real>, before: seq<Event>, m: Moment, after: seq<Event>)
    requires InTime(started, budget, before) && Sound(m) && SoundEvents(after)
    ensures var j := Run(Submitted(started, budget), before + [Cancel(m)] + after);
            && j.execution.state == Cancelled && j.exit == Some(m.code)
            && j.execution.result == Some(JobResult(m.code, Some(WasCancelled)))
  {
    FirstSettles(started, budget, before, Cancel(m), after);
  }

  /** A child that exits by itself first is reported by its own code at the next look, however late. */
  lemma ExitOfItsOwn(started: real, budget: Option<real>, before: seq<Event>, code: int, m: Moment, after: seq<Event>)
    requires InTime(started, budget, before) && Sound(m) && SoundEvents(after)
    ensures var j := Run(Submitted(started, budget), before + [Exit(code)] + ([Get(m)] + after));
            && j.exit == Some(code)
            && j.execution.state == (if code == 0 then Succeeded else Failed)
            && j.execution.result == Some(JobResult(code, if code == 0 then None else Some(ExitedWith(code))))
  {
    var j := ChildExited(Submitted(started, budget), code);
    FirstSettles(started, budget, before, Exit(code), []);
    RunConcat(Submitted(started, budget), before + [Exit(code)], [Get(m)] + after);
    RunConcat(j, [Get(m)], after);
    assert [Get(m)][..0] == [] && Run(j, [Get(m)]) == Refreshed(j, m);
    TerminalStays(Refreshed(j, m), after);
  }
}
