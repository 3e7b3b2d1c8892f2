/** The Celery and Procrastinate dispatchers: one retry decision per delivery, with an engine
    that redelivers on request, against what the in-process backends do. */
module Dispatchers {
  import opened Executions
  import opened Retry
  import opened Correlations
  import opened Envelope

  datatype Decision = Complete(value: string) | Requeue(delay: real) | Fail(exn: Exn)

  /** Where a worker runs: the names it can resolve, the id of the flow it would start, and the exception
      that each refusal of an envelope raises. */
  datatype Site = Site(registry: set<string>, freshId: string, fault: Error -> Exn)

  /** One execution of a message inside the dispatcher's `try`: what the function does, if there is one
      to call. */
  function Attempted(wire: Wire, site: Site, behaviour: Outcome): Outcome {
    match Requested(AnObject(wire), site.registry, site.freshId)
    case Err(e) => Raised(site.fault(e))
    case Ok(_) => behaviour
  }

  /** Shared shape of both dispatchers once the attempt number is known. */
  function Decide(p: Policy, attempt: int, outcome: Outcome): Decision {
    match outcome
    case Returned(v) => Complete(v)
    case Raised(e) => if p.ShouldRetry(e, attempt) then Requeue(p.DelayFor(attempt + 1)) else Fail(e)
  }

  /** Celery reports the retries already made, when it reports anything. */
  function CeleryDispatch(wire: Wire, retries: Option<nat>, site: Site, behaviour: Outcome): Result<Decision, Error> {
    match DecodeRetry(wire)
    case Err(e) => Err(e)
    case Ok(p) => Ok(Decide(p, OrElse(retries, 0) + 1, Attempted(wire, site, behaviour)))
  }

  /** Procrastinate reports the attempts already made through the job context, if one is passed. */
  function AttemptNumber(attempts: Option<nat>): int {
    if attempts.Some? then attempts.value + 1 else 1
  }

  function ProcrastinateDispatch(
    wire: Wire, attempts: Option<nat>, site: Site, behaviour: Outcome): Result<Decision, Error>
  {
    match DecodeRetry(wire)
    case Err(e) => Err(e)
    case Ok(p) => Ok(Decide(p, AttemptNumber(attempts), Attempted(wire, site, behaviour)))
  }

  datatype Engine = Celery | Procrastinate

  function Dispatch(
    engine: Engine, wire: Wire, delivered: nat, site: Site, behaviour: Outcome): Result<Decision, Error>
  {
    match engine
    case Celery => CeleryDispatch(wire, Some(delivered), site, behaviour)
    case Procrastinate => ProcrastinateDispatch(wire, Some(delivered), site, behaviour)
  }

  /** All deliveries of one message from an engine that honours every request to requeue. */
  function Deliveries(engine: Engine, wire: Wire, site: Site, script: Script, delivered: nat): RetryRun
    requires DecodeRetry(wire).Ok?
    decreases DecodeRetry(wire).value.maxAttempts - delivered
  {
    match Dispatch(engine, wire, delivered, site, script(delivered + 1)).value
    case Requeue(delay) =>
      var rest := Deliveries(engine, wire, site, script, delivered + 1);
      RetryRun(1 + rest.attempts, [delay] + rest.delays, rest.outcome)
    case Complete(v) => RetryRun(1, [], Returned(v))
    case Fail(e) => RetryRun(1, [], Raised(e))
  }

  /** What each delivery does, one after the other. */
  function AttemptScript(wire: Wire, site: Site, script: Script): Script {
    (n: nat) => Attempted(wire, site, script(n))
  }

  lemma {:induction false} DeliveriesFollowDecodedPolicy(
    engine: Engine, wire: Wire, site: Site, script: Script, delivered: nat)
    requires DecodeRetry(wire).Ok?
    ensures Deliveries(engine, wire, site, script, delivered)
         == RunFrom(DecodeRetry(wire).value, AttemptScript(wire, site, script), delivered + 1)
    decreases DecodeRetry(wire).value.maxAttempts - delivered
  {
    if Retried(DecodeRetry(wire).value, AttemptScript(wire, site, script), delivered + 1) {
      DeliveriesFollowDecodedPolicy(engine, wire, site, script, delivered + 1);
    }
  }

  /** Two policies that retry the same attempts after the same delays, on scripts that do the same, run
      alike. */
  lemma {:induction false} SameRetriesSameRun(p: Policy, q: Policy, script: Script, other: Script, attempt: nat)
    requires forall a: nat :: script(a) == other(a)
    requires forall a: nat :: a >= attempt ==> (Retried(p, script, a) <==> Retried(q, script, a))
    requires forall a: nat :: a > attempt && Retried(p, script, a - 1) ==> p.DelayFor(a) == q.DelayFor(a)
    ensures RunFrom(p, script, attempt) == RunFrom(q, other, attempt)
    decreases p.maxAttempts - attempt
  {
    assert script(attempt) == other(attempt);
    if Retried(p, script, attempt) {
      assert Retried(p, script, attempt + 1 - 1);
      SameRetriesSameRun(p, q, script, other, attempt + 1);
    }
  }

  /** The error that tells a worker, or an in-process backend, that it does not know the name. */
  function Unresolved(spec: Spec, site: Site): Option<Exn> {
    if spec.task in site.registry then None else Some(site.fault(Unresolvable))
  }

  lemma BuiltMessageIsAttempted(spec: Spec, site: Site, behaviour: Outcome)
    ensures Attempted(BuildEnvelope(spec), site, behaviour) ==
            match Unresolved(spec, site)
            case Some(e) => Raised(e)
            case None => behaviour
  {
  }

  /** The submitted policy makes its first failure final while the decoded one retries it. */
  predicate OwnerLost(p: Policy, script: Script) {
    p.owner == Application && p.maxAttempts > 1 && script(1).Raised? && p.Matches(script(1).exn)
  }

  /** Why the deliveries of a message can differ from an in-process execution. A name that resolves: the
      lost owner. A name that does not: in-process that is final, while the dispatcher asks the policy. */
  predicate Diverges(spec: Spec, site: Site, script: Script) {
    match Unresolved(spec, site)
    case None => OwnerLost(spec.retry, script)
    case Some(e) => spec.retry.Enabled() && spec.retry.Matches(e)
  }

  lemma {:induction false} DecodedRunsAlike(p: Policy, script: Script, other: Script)
    requires forall a: nat :: script(a) == other(a)
    ensures var q := if p.Enabled() then p.(jitter := true, owner := Backend) else NO_RETRY;
            Run(q, other) == Run(p, script) <==> !OwnerLost(p, script)
  {
    var q := if p.Enabled() then p.(jitter := true, owner := Backend) else NO_RETRY;
    if p.owner == Application && p.Enabled() {
      assert Run(p, script).attempts == 1;
      assert script(1) == other(1);
      assert Retried(q, other, 1) <==> OwnerLost(p, script);
    } else {
      SameRetriesSameRun(p, q, script, other, 1);
    }
  }

  lemma ResolvedRefinesLoop(engine: Engine, spec: Spec, site: Site, script: Script)
    requires spec.task in site.registry
    ensures DecodeRetry(BuildEnvelope(spec)).Ok?
    ensures Deliveries(engine, BuildEnvelope(spec), site, script, 0) == Run(spec.retry, script)
       <==> !OwnerLost(spec.retry, script)
  {
    var wire := BuildEnvelope(spec);
    DecodeOfEncode(spec);
    DeliveriesFollowDecodedPolicy(engine, wire, site, script, 0);
    forall a: nat
      ensures AttemptScript(wire, site, script)(a) == script(a)
    {
      BuiltMessageIsAttempted(spec, site, script(a));
    }
    DecodedRunsAlike(spec.retry, script, AttemptScript(wire, site, script));
  }

  lemma UnresolvedIsFinalIff(engine: Engine, spec: Spec, site: Site, script: Script)
    requires spec.task !in site.registry
    ensures DecodeRetry(BuildEnvelope(spec)).Ok?
    ensures Deliveries(engine, BuildEnvelope(spec), site, script, 0)
         == RetryRun(1, [], Raised(site.fault(Unresolvable)))
       <==> !(spec.retry.Enabled() && spec.retry.Matches(site.fault(Unresolvable)))
  {
    var wire := BuildEnvelope(spec);
    DecodeOfEncode(spec);
    DeliveriesFollowDecodedPolicy(engine, wire, site, script, 0);
    BuiltMessageIsAttempted(spec, site, script(1));
    assert AttemptScript(wire, site, script)(1) == Raised(site.fault(Unresolvable));
  }

  /** Delivery through either engine gives the same number of attempts, the same delays and the same final
      outcome as an in-process execution, for every policy, name and script of outcomes, except exactly
      when an application-owned policy meets a first failure that its filter would retry, or an enabled
      policy's filter would retry the failure to resolve the name. */
  lemma EngineRefinesLoop(engine: Engine, spec: Spec, site: Site, script: Script)
    ensures DecodeRetry(BuildEnvelope(spec)).Ok?
    ensures Deliveries(engine, BuildEnvelope(spec), site, script, 0)
         == InProcess(spec.retry, script, Unresolved(spec, site))
       <==> !Diverges(spec, site, script)
  {
    if spec.task in site.registry {
      ResolvedRefinesLoop(engine, spec, site, script);
    } else {
      UnresolvedIsFinalIff(engine, spec, site, script);
    }
  }

  /** A task without arguments whose policy grants three attempts a second apart to the given owner. */
  function ThreeAttempts(task: string, owner: Owner): Spec
    requires task != ""
  {
    TaskSpec(task, [], map[], "", "", None, map[], RetryPolicy(3, Fixed, 1.0, None, true, [], [], owner))
  }

  lemma {:induction false} ThreeRaise(p: RetryPolicy, script: Script, e: Exn)
    requires p == RetryPolicy(3, Fixed, 1.0, None, true, [], [], Backend)
    requires script(1) == script(2) == script(3) == Raised(e)
    ensures Run(p, script) == RetryRun(3, [1.0, 1.0], Raised(e))
  {
    assert p.Matches(e);
    assert RunFrom(p, script, 3) == RetryRun(1, [], Raised(e));
    assert RunFrom(p, script, 2) == RetryRun(2, [1.0], Raised(e));
  }

  /** Three deliveries, one second apart, of a task whose every attempt raises the same error. */
  lemma {:induction false} ThreeDeliveries(
    engine: Engine, task: string, owner: Owner, site: Site, script: Script, e: Exn)
    requires task != "" && owner != NoOwner
    requires forall n: nat :: Attempted(BuildEnvelope(ThreeAttempts(task, owner)), site, script(n)) == Raised(e)
    ensures DecodeRetry(BuildEnvelope(ThreeAttempts(task, owner))).Ok?
    ensures Deliveries(engine, BuildEnvelope(ThreeAttempts(task, owner)), site, script, 0)
         == RetryRun(3, [1.0, 1.0], Raised(e))
  {
    var wire := BuildEnvelope(ThreeAttempts(task, owner));
    DecodeOfEncode(ThreeAttempts(task, owner));
    DeliveriesFollowDecodedPolicy(engine, wire, site, script, 0);
    ThreeRaise(DecodeRetry(wire).value, AttemptScript(wire, site, script), e);
  }

  /** The application's own policy is retried by the engine: one attempt in-process, three deliveries. */
  lemma LostOwnerIsRetried(engine: Engine, task: string, site: Site, e: Exn)
    requires task in site.registry && task != ""
    ensures var spec, script := ThreeAttempts(task, Application), (n: nat) => Raised(e);
            && InProcess(spec.retry, script, Unresolved(spec, site)) == RetryRun(1, [], Raised(e))
            && DecodeRetry(BuildEnvelope(spec)).Ok?
            && Deliveries(engine, BuildEnvelope(spec), site, script, 0) == RetryRun(3, [1.0, 1.0], Raised(e))
  {
    var spec := ThreeAttempts(task, Application);
    BuiltMessageIsAttempted(spec, site, Raised(e));
    ThreeDeliveries(engine, task, Application, site, (n: nat) => Raised(e), e);
  }

  /** A name that no worker can resolve is redelivered: final at once in-process, three deliveries. */
  lemma UnresolvedIsRedelivered(engine: Engine, task: string, site: Site, script: Script)
    requires task !in site.registry && task != ""
    ensures var spec, e := ThreeAttempts(task, Backend), site.fault(Unresolvable);
            && InProcess(spec.retry, script, Unresolved(spec, site)) == RetryRun(1, [], Raised(e))
            && DecodeRetry(BuildEnvelope(spec)).Ok?
            && Deliveries(engine, BuildEnvelope(spec), site, script, 0) == RetryRun(3, [1.0, 1.0], Raised(e))
  {
    var spec, e := ThreeAttempts(task, Backend), site.fault(Unresolvable);
    forall n: nat
      ensures Attempted(BuildEnvelope(spec), site, script(n)) == Raised(e)
    {
      BuiltMessageIsAttempted(spec, site, script(n));
    }
    ThreeDeliveries(engine, task, Backend, site, script, e);
  }

  /** A Celery task that does not tell its retries is taken to be delivered for the first time. */
  lemma WithoutCountIsFirst(spec: Spec, site: Site, behaviour: Outcome)
    ensures CeleryDispatch(BuildEnvelope(spec), None, site, behaviour)
         == Dispatch(Celery, BuildEnvelope(spec), 0, site, behaviour)
  {
  }

  /** Without a job context every delivery counts as the first, so no delivery is ever the last one:
      an engine that honours requests would redeliver a matching failure for ever. */
  lemma WithoutContextNeverGivesUp(spec: Spec, site: Site, behaviour: Outcome)
    ensures ProcrastinateDispatch(BuildEnvelope(spec), None, site, behaviour) ==
            Ok(match Attempted(BuildEnvelope(spec), site, behaviour)
               case Returned(v) => Complete(v)
               case Raised(e) =>
                 if spec.retry.Enabled() && spec.retry.Matches(e) then Requeue(spec.retry.DelayFor(2)) else Fail(e))
  {
    DecodeOfEncode(spec);
  }

  /** The third delivery under a policy of three attempts: the last with a job context, requeued without. */
  lemma WithoutContextExample(task: string, site: Site, e: Exn)
    requires task in site.registry && task != ""
    ensures var wire := BuildEnvelope(ThreeAttempts(task, Backend));
            && ProcrastinateDispatch(wire, Some(2), site, Raised(e)) == Ok(Fail(e))
            && ProcrastinateDispatch(wire, None, site, Raised(e)) == Ok(Requeue(1.0))
  {
    var spec := ThreeAttempts(task, Backend);
    DecodeOfEncode(spec);
    BuiltMessageIsAttempted(spec, site, Raised(e));
    WithoutContextNeverGivesUp(spec, site, Raised(e));
  }
}
