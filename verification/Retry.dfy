/** Retry intent, its delay arithmetic, and the one computation that the in-process
    backends each spell out as their own loop. */
module Retry {
  import opened Executions

  datatype Backoff = NoBackoff | Fixed | Linear | Exponential

  datatype Owner = Backend | Application | NoOwner

  function Pow2(n: nat): (r: real)
    ensures r >= 1.0
  {
    if n == 0 then 1.0 else 2.0 * Pow2(n - 1)
  }

  datatype RetryPolicy = RetryPolicy(
    maxAttempts: int, backoff: Backoff, initialDelay: real, maxDelay: Option<real>,
    jitter: bool, retryOn: seq<string>, noRetryOn: seq<string>, owner: Owner)
  {
    /** What construction insists on. */
    predicate Valid() {
      && maxAttempts >= 1
      && initialDelay >= 0.0
      && (maxDelay.Some? ==> maxDelay.value >= 0.0)
    }

    predicate Enabled() {
      maxAttempts > 1 && owner != NoOwner
    }

    function EngineAttempts(): int {
      if owner == Backend then maxAttempts else 1
    }

    /** The exception filter on its own: exclusions first, then inclusions. */
    predicate Matches(e: Exn) {
      if exists n :: n in noRetryOn && n in e.names then false
      else if retryOn != [] then exists n :: n in retryOn && n in e.names
      else true
    }

    predicate ShouldRetry(e: Exn, attempt: int) {
      attempt < maxAttempts && owner == Backend && Matches(e)
    }

    /** Growth of the delay before the ceiling is applied; for attempts from the second on. */
    function RawDelay(attempt: int): real
      requires attempt >= 2
    {
      match backoff
      case NoBackoff => 0.0
      case Fixed => initialDelay
      case Linear => initialDelay * (attempt - 1) as real
      case Exponential => initialDelay * Pow2(attempt - 2)
    }

    function DelayFor(attempt: int): real {
      if attempt <= 1 then 0.0
      else
        var delay := RawDelay(attempt);
        if maxDelay.Some? && maxDelay.value < delay then maxDelay.value else delay
    }
  }

  type Policy = p: RetryPolicy | p.Valid()
    witness RetryPolicy(1, Exponential, 1.0, Some(300.0), true, [], [], Backend)

  const NO_RETRY: Policy := RetryPolicy(1, Exponential, 1.0, Some(300.0), true, [], [], NoOwner)

  lemma {:induction false} Pow2Monotone(m: nat, n: nat)
    requires m <= n
    ensures Pow2(m) <= Pow2(n)
    decreases n
  {
    if m < n {
      Pow2Monotone(m, n - 1);
    }
  }

  lemma MulMonotone(x: real, y: real, k: real)
    requires 0.0 <= x <= y && 0.0 <= k
    ensures 0.0 <= k * x <= k * y
  {
  }

  /** The multiple of the initial delay that an attempt waits for. */
  function Factor(b: Backoff, attempt: int): real
    requires attempt >= 2
  {
    match b
    case NoBackoff => 0.0
    case Fixed => 1.0
    case Linear => (attempt - 1) as real
    case Exponential => Pow2(attempt - 2)
  }

  lemma FactorMonotone(b: Backoff, m: int, n: int)
    requires 2 <= m <= n
    ensures 0.0 <= Factor(b, m) <= Factor(b, n)
  {
    if b == Exponential {
      Pow2Monotone(m - 2, n - 2);
    }
  }

  lemma RawDelayIsMultiple(p: RetryPolicy, attempt: int)
    requires attempt >= 2
    ensures p.RawDelay(attempt) == p.initialDelay * Factor(p.backoff, attempt)
  {
  }

  lemma RawDelayMonotone(p: Policy, m: int, n: int)
    requires 2 <= m <= n
    ensures 0.0 <= p.RawDelay(m) <= p.RawDelay(n)
  {
    RawDelayIsMultiple(p, m);
    RawDelayIsMultiple(p, n);
    FactorMonotone(p.backoff, m, n);
    MulMonotone(Factor(p.backoff, m), Factor(p.backoff, n), p.initialDelay);
  }

  /** Delays never shrink as attempts grow, are never negative and never pass the ceiling. */
  lemma DelayMonotoneAndCapped(p: Policy, a: int, b: int)
    requires a <= b
    ensures 0.0 <= p.DelayFor(a) <= p.DelayFor(b)
    ensures p.maxDelay.Some? ==> p.DelayFor(b) <= p.maxDelay.value
  {
    if b >= 2 {
      RawDelayMonotone(p, if a < 2 then 2 else a, b);
    }
  }

  /** Seconds waited in all before attempt `n` starts. */
  function TotalWait(p: Policy, n: nat): real {
    if n <= 1 then 0.0 else TotalWait(p, n - 1) + p.DelayFor(n)
  }

  /** A number added up `n` times. */
  function Times(n: nat, x: real): real {
    if n == 0 then 0.0 else Times(n - 1, x) + x
  }

  lemma {:induction false} TimesIsProduct(n: nat, x: real)
    ensures Times(n, x) == n as real * x
  {
    if n > 0 {
      TimesIsProduct(n - 1, x);
      assert n as real * x == (n - 1) as real * x + x;
    }
  }

  lemma {:induction false} TotalWaitWithinCeilings(p: Policy, n: nat)
    requires n >= 1 && p.maxDelay.Some?
    ensures TotalWait(p, n) <= Times(n - 1, p.maxDelay.value)
  {
    if n > 1 {
      TotalWaitWithinCeilings(p, n - 1);
      DelayMonotoneAndCapped(p, n, n);
    }
  }

  /** With a ceiling, the total wait is at most one ceiling per retry. */
  lemma {:induction false} TotalWaitCapped(p: Policy, n: nat)
    requires n >= 1 && p.maxDelay.Some?
    ensures TotalWait(p, n) <= (n - 1) as real * p.maxDelay.value
  {
    TotalWaitWithinCeilings(p, n);
    TimesIsProduct(n - 1, p.maxDelay.value);
  }

  lemma AddMultiple(k: real, before: real, more: real)
    ensures k * before + k * more == k * (before + more)
  {
  }

  lemma {:induction false} TotalWaitFixed(p: Policy, n: nat)
    requires n >= 1 && p.maxDelay.None? && p.backoff == Fixed
    ensures TotalWait(p, n) == p.initialDelay * (n - 1) as real
  {
    if n > 1 {
      TotalWaitFixed(p, n - 1);
      AddMultiple(p.initialDelay, (n - 2) as real, 1.0);
    }
  }

  function Triangle(n: nat): real {
    if n == 0 then 0.0 else Triangle(n - 1) + n as real
  }

  lemma {:induction false} TotalWaitLinear(p: Policy, n: nat)
    requires n >= 1 && p.maxDelay.None? && p.backoff == Linear
    ensures TotalWait(p, n) == p.initialDelay * Triangle(n - 1)
  {
    if n > 1 {
      TotalWaitLinear(p, n - 1);
      AddMultiple(p.initialDelay, Triangle(n - 2), (n - 1) as real);
    }
  }

  lemma {:induction false} TriangleClosedForm(n: nat)
    ensures Triangle(n) == (n * (n + 1)) as real / 2.0
  {
    if n > 0 {
      TriangleClosedForm(n - 1);
      assert n * (n + 1) == (n - 1) * n + 2 * n;
      assert (n * (n + 1)) as real == ((n - 1) * n) as real + 2.0 * n as real;
    }
  }

  lemma {:induction false} TotalWaitLinearClosed(p: Policy, n: nat)
    requires n >= 1 && p.maxDelay.None? && p.backoff == Linear
    ensures TotalWait(p, n) == p.initialDelay * (((n - 1) * n) as real / 2.0)
  {
    TotalWaitLinear(p, n);
    TriangleClosedForm(n - 1);
  }

  lemma {:induction false} TotalWaitExponential(p: Policy, n: nat)
    requires n >= 1 && p.maxDelay.None? && p.backoff == Exponential
    ensures TotalWait(p, n) == p.initialDelay * (Pow2(n - 1) - 1.0)
  {
    if n > 1 {
      TotalWaitExponential(p, n - 1);
      AddMultiple(p.initialDelay, Pow2(n - 2) - 1.0, Pow2(n - 2));
    }
  }

  lemma {:induction false} TotalWaitNone(p: Policy, n: nat)
    requires p.maxDelay.None? && p.backoff == NoBackoff
    ensures TotalWait(p, n) == 0.0
  {
    if n > 1 {
      TotalWaitNone(p, n - 1);
    }
  }

  /** Without a ceiling, the total wait before attempt `n` has the textbook closed form of its backoff:
      nothing, `n-1`, `n(n-1)/2` or `2^(n-1)-1` initial delays. */
  lemma {:induction false} TotalWaitClosedForm(p: Policy, n: nat)
    requires n >= 1 && p.maxDelay.None?
    ensures var multiple := match p.backoff
                            case NoBackoff => 0.0
                            case Fixed => (n - 1) as real
                            case Linear => ((n - 1) * n) as real / 2.0
                            case Exponential => Pow2(n - 1) - 1.0;
            TotalWait(p, n) == p.initialDelay * multiple
  {
    match p.backoff
    case NoBackoff => TotalWaitNone(p, n);
    case Fixed => TotalWaitFixed(p, n);
    case Linear => TotalWaitLinearClosed(p, n);
    case Exponential => TotalWaitExponential(p, n);
  }

  /** Everything observable about one supervised execution: its attempts, the delays between them and
      the last outcome. */
  datatype RetryRun = RetryRun(attempts: nat, delays: seq<real>, outcome: Outcome)

  /** Calls of the function are numbered; `script(n)` is what the n-th call does. */
  type Script = nat -> Outcome

  predicate Retried(p: RetryPolicy, script: Script, attempt: nat) {
    script(attempt).Raised? && p.ShouldRetry(script(attempt).exn, attempt)
  }

  /** The supervised execution from a given attempt on. */
  function RunFrom(p: RetryPolicy, script: Script, attempt: nat): RetryRun
    decreases p.maxAttempts - attempt
  {
    if Retried(p, script, attempt) then
      var rest := RunFrom(p, script, attempt + 1);
      RetryRun(1 + rest.attempts, [p.DelayFor(attempt + 1)] + rest.delays, rest.outcome)
    else
      RetryRun(1, [], script(attempt))
  }

  function Run(p: RetryPolicy, script: Script): RetryRun {
    RunFrom(p, script, 1)
  }

  /** An execution in-process, from its name on: a name that does not resolve, and the error that says
      so, is final at once, before any call and whatever the policy. */
  function InProcess(p: RetryPolicy, script: Script, unresolved: Option<Exn>): RetryRun {
    match unresolved
    case Some(e) => RetryRun(1, [], Raised(e))
    case None => Run(p, script)
  }

  /** A direct description: `n` is the first attempt whose outcome is not retried. */
  ghost predicate Describes(p: RetryPolicy, script: Script, first: nat, r: RetryRun) {
    && r.attempts >= 1
    && var last := first + r.attempts - 1;
    && (forall a :: first <= a < last ==> Retried(p, script, a))
    && !Retried(p, script, last)
    && r.outcome == script(last)
    && |r.delays| == r.attempts - 1
    && (forall i :: 0 <= i < |r.delays| ==> r.delays[i] == p.DelayFor(first + i + 1))
  }

  lemma {:induction false} RunFromDescribed(p: RetryPolicy, script: Script, first: nat)
    ensures Describes(p, script, first, RunFrom(p, script, first))
    decreases p.maxAttempts - first
  {
    if Retried(p, script, first) {
      RunFromDescribed(p, script, first + 1);
      var r := RunFrom(p, script, first);
      var rest := RunFrom(p, script, first + 1);
      forall i | 0 <= i < |r.delays|
        ensures r.delays[i] == p.DelayFor(first + i + 1)
      {
        if i > 0 {
          assert r.delays[i] == rest.delays[i - 1];
        }
      }
    }
  }

  lemma NotShorter(p: RetryPolicy, script: Script, r: RetryRun, s: RetryRun)
    requires Describes(p, script, 1, r) && Describes(p, script, 1, s)
    ensures s.attempts <= r.attempts
  {
    if r.attempts < s.attempts {
      assert false;
    }
  }

  /** The description leaves no freedom, so it and the recursive run are the same thing. */
  lemma RunIsExactly(p: RetryPolicy, script: Script, r: RetryRun)
    ensures Describes(p, script, 1, r) <==> r == Run(p, script)
  {
    var run := Run(p, script);
    RunFromDescribed(p, script, 1);
    if Describes(p, script, 1, r) {
      NotShorter(p, script, r, run);
      NotShorter(p, script, run, r);
      assert r.delays == run.delays;
    }
  }

  function Sum(s: seq<real>): real {
    if s == [] then 0.0 else Sum(s[..|s| - 1]) + s[|s| - 1]
  }

  lemma {:induction false} SumIsTotalWait(p: Policy, delays: seq<real>)
    requires forall i :: 0 <= i < |delays| ==> delays[i] == p.DelayFor(i + 2)
    ensures Sum(delays) == TotalWait(p, |delays| + 1)
  {
    if delays != [] {
      SumIsTotalWait(p, delays[..|delays| - 1]);
    }
  }

  /** The function is never called more often than the attempts the policy grants its owner,
      and the time spent waiting is the total wait before the last attempt. */
  lemma {:induction false} RunIsBounded(p: Policy, script: Script)
    ensures 1 <= Run(p, script).attempts <= p.EngineAttempts()
    ensures Sum(Run(p, script).delays) == TotalWait(p, Run(p, script).attempts)
  {
    var r := Run(p, script);
    RunFromDescribed(p, script, 1);
    if r.attempts > 1 {
      assert Retried(p, script, r.attempts - 1);
    }
    SumIsTotalWait(p, r.delays);
  }

  /** The sleeps a loop really performs: a zero delay is skipped rather than slept. */
  function Slept(delays: seq<real>): seq<real> {
    if delays == [] then []
    else if delays[0] > 0.0 then [delays[0]] + Slept(delays[1..])
    else Slept(delays[1..])
  }

  lemma {:induction false} SleptAppend(a: seq<real>, b: seq<real>)
    ensures Slept(a + b) == Slept(a) + Slept(b)
  {
    if a == [] {
      assert a + b == b;
    } else {
      assert (a + b)[1..] == a[1..] + b;
      SleptAppend(a[1..], b);
    }
  }

  /** What is still to come when a loop reaches `attempt`, put behind what it has done. */
  ghost predicate Resumes(p: RetryPolicy, script: Script, attempt: nat, done: seq<real>, slept: seq<real>) {
    && attempt >= 1
    && |done| == attempt - 1
    && slept == Slept(done)
    && var rest := RunFrom(p, script, attempt);
       Run(p, script) == RetryRun(attempt - 1 + rest.attempts, done + rest.delays, rest.outcome)
  }

  lemma ResumesAfterRetry(p: Policy, script: Script, attempt: nat, done: seq<real>, slept: seq<real>)
    requires Resumes(p, script, attempt, done, slept)
    requires Retried(p, script, attempt)
    ensures var d := p.DelayFor(attempt + 1);
            Resumes(p, script, attempt + 1, done + [d], if d > 0.0 then slept + [d] else slept)
  {
    var d := p.DelayFor(attempt + 1);
    var rest := RunFrom(p, script, attempt);
    assert done + rest.delays == done + [d] + RunFrom(p, script, attempt + 1).delays;
    SleptAppend(done, [d]);
  }

  lemma ResumesAtEnd(p: Policy, script: Script, attempt: nat, done: seq<real>, slept: seq<real>)
    requires Resumes(p, script, attempt, done, slept)
    requires !Retried(p, script, attempt)
    ensures Run(p, script) == RetryRun(attempt, done, script(attempt)) && slept == Slept(done)
  {
    assert done + [] == done;
  }

  /** The thread backend's worker, from the resolution of the name on. Its loop sleeps before it counts
      the attempt. */
  method CallWithRetriesThread(p: Policy, script: Script, unresolved: Option<Exn>)
    returns (outcome: Outcome, attempts: nat, slept: seq<real>)
    ensures var r := InProcess(p, script, unresolved);
            outcome == r.outcome && attempts == r.attempts && slept == Slept(r.delays)
  {
    if unresolved.Some? {
      return Raised(unresolved.value), 1, [];
    }
    var attempt := 1;
    slept := [];
    ghost var done := [];
    assert [] + Run(p, script).delays == Run(p, script).delays;
    while true
      invariant Resumes(p, script, attempt, done, slept)
      decreases p.maxAttempts - attempt
    {
      var result := script(attempt);
      if result.Raised? {
        if p.ShouldRetry(result.exn, attempt) {
          ResumesAfterRetry(p, script, attempt, done, slept);
          var delay := p.DelayFor(attempt + 1);
          DelayMonotoneAndCapped(p, attempt + 1, attempt + 1);
          if delay != 0.0 {
            slept := slept + [delay];
          }
          done := done + [delay];
          attempt := attempt + 1;
          continue;
        }
        ResumesAtEnd(p, script, attempt, done, slept);
        return result, attempt, slept;
      }
      ResumesAtEnd(p, script, attempt, done, slept);
      return result, attempt, slept;
    }
  }

  /** The process backend's child: the name is resolved outside the loop, which counts the attempt, then
      sleeps, and re-raises at the end. */
  method ExecuteInChild(p: Policy, script: Script, unresolved: Option<Exn>)
    returns (outcome: Outcome, calls: nat, slept: seq<real>)
    ensures var r := InProcess(p, script, unresolved);
            outcome == r.outcome && slept == Slept(r.delays)
            && calls == if unresolved.Some? then 0 else r.attempts
  {
    if unresolved.Some? {
      return Raised(unresolved.value), 0, [];
    }
    var attempt := 1;
    slept, calls := [], 0;
    ghost var done := [];
    assert [] + Run(p, script).delays == Run(p, script).delays;
    while true
      invariant calls == attempt - 1
      invariant Resumes(p, script, attempt, done, slept)
      decreases p.maxAttempts - attempt
    {
      calls := calls + 1;
      var result := script(attempt);
      if result.Returned? || !p.ShouldRetry(result.exn, attempt) {
        ResumesAtEnd(p, script, attempt, done, slept);
        return result, calls, slept;
      }
      ResumesAfterRetry(p, script, attempt, done, slept);
      attempt := attempt + 1;
      var delay := p.DelayFor(attempt);
      DelayMonotoneAndCapped(p, attempt, attempt);
      if delay != 0.0 {
        slept := slept + [delay];
      }
      done := done + [delay];
    }
  }

  /** Each delay exactly: what the backoff asks for by itself, or the ceiling where that is smaller. */
  lemma DelayIsExact(p: Policy, attempt: int)
    ensures var uncapped := p.(maxDelay := None).DelayFor(attempt);
            && (p.maxDelay.None? ==> p.DelayFor(attempt) == uncapped)
            && (p.maxDelay.Some? && p.maxDelay.value <= uncapped ==> p.DelayFor(attempt) == p.maxDelay.value)
            && (p.maxDelay.Some? && uncapped <= p.maxDelay.value ==> p.DelayFor(attempt) == uncapped)
            && uncapped == if attempt <= 1 then 0.0 else match p.backoff
                                                         case NoBackoff => 0.0
                                                         case Fixed => p.initialDelay
                                                         case Linear => p.initialDelay * (attempt - 1) as real
                                                         case Exponential => p.initialDelay * Pow2(attempt - 2)
  {
  }

  /** The filter in terms of sets: no excluded name, and an included one if any are asked for. */
  lemma MatchesInPlain(p: RetryPolicy, e: Exn)
    ensures var excluded, included := set n | n in p.noRetryOn, set n | n in p.retryOn;
            p.Matches(e) <==> excluded !! e.names && (included == {} || !(included !! e.names))
  {
    var excluded, included := set n | n in p.noRetryOn, set n | n in p.retryOn;
    assert included == {} <==> p.retryOn == [] by {
      if p.retryOn != [] {
        assert p.retryOn[0] in included;
      }
    }
    if exists n :: n in p.noRetryOn && n in e.names {
      var n :| n in p.noRetryOn && n in e.names;
      assert n in excluded * e.names;
    }
    if exists n :: n in p.retryOn && n in e.names {
      var n :| n in p.retryOn && n in e.names;
      assert n in included * e.names;
    }
  }

  /** From the policy's own fields: the attempt raises what the filter matches, it is not the last one granted,
      and the backend owns the retry. */
  predicate Repeats(p: RetryPolicy, script: Script, n: nat) {
    script(n).Raised? && p.Matches(script(n).exn) && p.owner == Backend && n < p.maxAttempts
  }

  /** A run ends at the first attempt that is not repeated, after the delays of the repeated ones. */
  lemma RunInPlain(p: Policy, script: Script)
    ensures var r := Run(p, script);
            && r.attempts >= 1 && r.outcome == script(r.attempts)
            && (forall n: nat :: 1 <= n < r.attempts ==> Repeats(p, script, n))
            && !Repeats(p, script, r.attempts)
            && |r.delays| == r.attempts - 1
            && forall i :: 0 <= i < |r.delays| ==> r.delays[i] == p.DelayFor(i + 2)
  {
    RunFromDescribed(p, script, 1);
    var r := Run(p, script);
    assert 1 + r.attempts - 1 == r.attempts && !Retried(p, script, r.attempts);
    forall n: nat | 1 <= n < r.attempts
      ensures Repeats(p, script, n)
    {
      assert Retried(p, script, n);
    }
  }

  /** A function that always raises a matching error is called as often as its policy says. */
  lemma AlwaysRaising(p: Policy, script: Script, e: Exn)
    requires p.Matches(e) && forall n :: script(n) == Raised(e)
    ensures Run(p, script).attempts == if p.owner == Backend then p.maxAttempts else 1
    ensures p.EngineAttempts() == if p.owner == Backend then p.maxAttempts else 1
  {
    RunInPlain(p, script);
    var n := Run(p, script).attempts;
    assert script(n) == Raised(e);
    if n > 1 {
      assert Repeats(p, script, n - 1);
    }
  }

  lemma {:induction false} SleptAddsUp(delays: seq<real>)
    requires forall i :: 0 <= i < |delays| ==> delays[i] >= 0.0
    ensures Sum(Slept(delays)) == Sum(delays)
  {
    if delays != [] {
      var front, last := delays[..|delays| - 1], delays[|delays| - 1];
      SleptAddsUp(front);
      assert delays == front + [last];
      SleptAppend(front, [last]);
      assert [last][1..] == [];
      if last > 0.0 {
        assert (Slept(front) + [last])[..|Slept(front)|] == Slept(front);
      } else {
        assert Slept(front) + [] == Slept(front);
      }
    }
  }

  lemma {:induction false} SleptIsPositive(delays: seq<real>)
    ensures forall i :: 0 <= i < |Slept(delays)| ==> Slept(delays)[i] > 0.0
  {
    if delays != [] {
      SleptIsPositive(delays[1..]);
    }
  }

  /** The sleeps of a run are real waits, and add up to the whole wait before its last attempt. */
  lemma SleepsAddUp(p: Policy, script: Script)
    ensures var slept := Slept(Run(p, script).delays);
            && Sum(slept) == TotalWait(p, Run(p, script).attempts)
            && forall i :: 0 <= i < |slept| ==> slept[i] > 0.0
  {
    RunInPlain(p, script);
    RunIsBounded(p, script);
    var delays := Run(p, script).delays;
    forall i | 0 <= i < |delays|
      ensures delays[i] >= 0.0
    {
      DelayMonotoneAndCapped(p, i + 2, i + 2);
    }
    SleptAddsUp(delays);
    SleptIsPositive(delays);
  }
}
