/** The wire envelope of a task: how a spec is written, read back and run by a worker. */
module Envelope {
  import opened Executions
  import opened Retry
  import opened Correlations

  const ENVELOPE_VERSION := "2"

  datatype JSON = JsonNull | Bool(b: bool) | Number(n: real) | Str(s: string)
                | Array(items: seq<JSON>) | Object(fields: map<string, JSON>)

  datatype RawSpec = TaskSpec(
    task: string, args: seq<JSON>, kwargs: map<string, JSON>, name: string, queue: string,
    correlation: Option<Correlation>, labels: map<string, string>, retry: Policy)

  /** A spec refuses an empty task name at construction. */
  type Spec = s: RawSpec | s.task != ""
    witness TaskSpec("m:f", [], map[], "", "", None, map[], NO_RETRY)

  /** What an object holds under a key: nothing, an explicit null, or a value. */
  datatype Field<+T> = Missing | Null | Present(value: T)

  /** The retry object on the wire. */
  datatype RetryWire = RetryWire(
    maxAttempts: Field<int>, backoff: Field<string>, initialDelay: Field<real>,
    maxDelay: Field<real>, retryOn: Field<seq<string>>, noRetryOn: Field<seq<string>>)

  /** A decoded JSON object with the envelope's keys, any of which may be missing. None of these keys
      tells a null from a missing value. */
  datatype Wire = Wire(
    version: Option<string>, task: Option<string>, args: Option<seq<JSON>>,
    kwargs: Option<map<string, JSON>>, name: Option<string>, queue: Option<string>,
    correlation: Option<Headers>, labels: Option<map<string, string>>, retry: Option<RetryWire>)

  datatype Payload = NotAnObject | AnObject(wire: Wire)

  datatype Error = NotJsonObject | BadVersion | NoTask | BadPolicy | Unresolvable | TaskRaised(exn: Exn)

  function BackoffName(b: Backoff): string {
    match b
    case NoBackoff => "none"
    case Fixed => "fixed"
    case Linear => "linear"
    case Exponential => "exponential"
  }

  function ParseBackoff(s: string): Option<Backoff> {
    if s == "none" then Some(NoBackoff)
    else if s == "fixed" then Some(Fixed)
    else if s == "linear" then Some(Linear)
    else if s == "exponential" then Some(Exponential)
    else None
  }

  lemma BackoffNameParses(b: Backoff)
    ensures ParseBackoff(BackoffName(b)) == Some(b)
  {
    assert "none"[0] != "fixed"[0] && "none"[0] != "linear"[0] && "none"[0] != "exponential"[0];
    assert "fixed"[0] != "linear"[0] && "fixed"[0] != "exponential"[0] && "linear"[0] != "exponential"[0];
  }

  function EncodeRetry(p: Policy): Option<RetryWire> {
    if !p.Enabled() then None
    else Some(RetryWire(
                Present(p.maxAttempts), Present(BackoffName(p.backoff)), Present(p.initialDelay),
                if p.maxDelay.Some? then Present(p.maxDelay.value) else Null,
                Present(p.retryOn), Present(p.noRetryOn)))
  }

  function BuildEnvelope(spec: Spec): Wire {
    Wire(Some(ENVELOPE_VERSION), Some(spec.task), Some(spec.args), Some(spec.kwargs),
         Some(spec.name), Some(spec.queue),
         if spec.correlation.Some? then Some(spec.correlation.value.ToHeaders()) else None,
         Some(spec.labels), EncodeRetry(spec.retry))
  }

  function ReadEnvelope(payload: Payload): Result<Wire, Error> {
    if payload.NotAnObject? then Err(NotJsonObject)
    else if payload.wire.version != Some(ENVELOPE_VERSION) then Err(BadVersion)
    else if payload.wire.task.None? || payload.wire.task.value == "" then Err(NoTask)
    else Ok(payload.wire)
  }

  function OrElse<T>(o: Option<T>, default: T): T {
    if o.Some? then o.value else default
  }

  function ValueOr<T>(f: Field<T>, default: T): T {
    if f.Present? then f.value else default
  }

  /** The backoff under its key: exponential if missing, while a null is no backoff's name. */
  function DecodeBackoff(f: Field<string>): Option<Backoff> {
    match f
    case Missing => Some(Exponential)
    case Null => None
    case Present(name) => ParseBackoff(name)
  }

  /** Rebuilds a policy. The owner is not on the wire, so the default, the engine, is assumed. A null or
      zero attempt count is one; a missing initial delay is one second, a null one none; an invalid
      policy or an unknown backoff is an error. */
  function DecodeRetry(wire: Wire): (r: Result<Policy, Error>) {
    if wire.retry.None? then Ok(NO_RETRY)
    else
      var raw := wire.retry.value;
      var attempts := if ValueOr(raw.maxAttempts, 1) == 0 then 1 else ValueOr(raw.maxAttempts, 1);
      var backoff := DecodeBackoff(raw.backoff);
      if backoff.None? then Err(BadPolicy)
      else
        var p := RetryPolicy(attempts, backoff.value,
                             if raw.initialDelay.Missing? then 1.0 else ValueOr(raw.initialDelay, 0.0),
                             if raw.maxDelay.Present? then Some(raw.maxDelay.value) else None, true,
                             ValueOr(raw.retryOn, []), ValueOr(raw.noRetryOn, []), Backend);
        if p.Valid() then Ok(p) else Err(BadPolicy)
  }

  /** Every envelope built from a spec decodes, to the same policy up to jitter and owner. */
  lemma DecodeOfEncode(spec: Spec)
    ensures DecodeRetry(BuildEnvelope(spec)) ==
            Ok(if spec.retry.Enabled() then spec.retry.(jitter := true, owner := Backend) else NO_RETRY)
  {
    BackoffNameParses(spec.retry.backoff);
  }

  /** The decoded policy decides every retry as the submitted one does, except the one case that
      the missing owner allows: an application-owned policy with an attempt left and a matching error. */
  lemma DecodedPolicyDecides(spec: Spec, e: Exn, attempt: int)
    requires attempt >= 1
    ensures DecodeRetry(BuildEnvelope(spec)).Ok?
    ensures DecodeRetry(BuildEnvelope(spec)).value.ShouldRetry(e, attempt) == spec.retry.ShouldRetry(e, attempt)
       <==> !(spec.retry.owner == Application && attempt < spec.retry.maxAttempts && spec.retry.Matches(e))
  {
    DecodeOfEncode(spec);
  }

  function ReadCorrelation(wire: Wire, freshId: string): Correlation {
    if wire.correlation.Some? && wire.correlation.value != map[]
    then FromHeaders(wire.correlation.value, freshId)
    else Start(freshId)
  }

  /** One call of a task function, with the correlation bound around it. */
  datatype Call = Call(task: string, args: seq<JSON>, kwargs: map<string, JSON>, ambient: Correlation)

  /** The call that a payload asks a worker for; `registry` is the set of resolvable names. */
  function Requested(payload: Payload, registry: set<string>, freshId: string): Result<Call, Error> {
    match ReadEnvelope(payload)
    case Err(e) => Err(e)
    case Ok(wire) =>
      if OrElse(wire.task, "") !in registry then Err(Unresolvable)
      else Ok(Call(OrElse(wire.task, ""), OrElse(wire.args, []), OrElse(wire.kwargs, map[]),
                   ReadCorrelation(wire, freshId)))
  }

  /** The worker calls what was submitted: same name, same arguments; and under the submitted
      correlation exactly when that correlation is portable. */
  lemma WorkerRunsWhatWasSubmitted(spec: Spec, registry: set<string>, freshId: string)
    requires freshId != ""
    ensures var r := Requested(AnObject(BuildEnvelope(spec)), registry, freshId);
            if spec.task in registry then
              && r.Ok?
              && r.value.task == spec.task && r.value.args == spec.args && r.value.kwargs == spec.kwargs
              && (spec.correlation.Some? ==>
                    (r.value.ambient == spec.correlation.value <==> spec.correlation.value.Portable()))
              && (spec.correlation.None? ==> r.value.ambient == Correlation(freshId, None, map[]))
            else r == Err(Unresolvable)
  {
    if spec.correlation.Some? {
      HeadersRoundTrip(spec.correlation.value, freshId);
      assert CORRELATION_HEADER in spec.correlation.value.ToHeaders();
    }
  }

  /** A worker process: the ambient correlation variable and the log of calls made. */
  class Worker {
    var current: Option<Correlation>
    var calls: seq<Call>

    constructor ()
      ensures current == None && calls == []
    {
      current, calls := None, [];
    }

    /** Calls the function under whatever correlation is ambient, and records that. */
    method Invoke(task: string, args: seq<JSON>, kwargs: map<string, JSON>, behaviour: Call -> Outcome)
      returns (outcome: Outcome)
      requires current.Some?
      modifies this`calls
      ensures calls == old(calls) + [Call(task, args, kwargs, current.value)]
      ensures outcome == behaviour(Call(task, args, kwargs, current.value))
    {
      var call := Call(task, args, kwargs, current.value);
      calls := calls + [call];
      outcome := behaviour(call);
    }

    /** Reads, resolves and runs one envelope. `behaviour` is what the called function does. */
    method ExecuteEnvelope(payload: Payload, registry: set<string>, freshId: string, behaviour: Call -> Outcome)
      returns (r: Result<string, Error>)
      modifies this
      ensures current == old(current)
      ensures var requested := Requested(payload, registry, freshId);
              match requested
              case Err(e) => r == Err(e) && calls == old(calls)
              case Ok(call) =>
                && calls == old(calls) + [call]
                && r == match behaviour(call)
                        case Returned(v) => Ok(v)
                        case Raised(e) => Err(TaskRaised(e))
    {
      var read := ReadEnvelope(payload);
      if read.Err? {
        return Err(read.error);
      }
      var wire := read.value;
      if OrElse(wire.task, "") !in registry {
        return Err(Unresolvable);
      }
      var token := current;
      current := Some(ReadCorrelation(wire, freshId));
      var outcome := Invoke(OrElse(wire.task, ""), OrElse(wire.args, []), OrElse(wire.kwargs, map[]), behaviour);
      current := token;
      match outcome
      case Returned(v) => r := Ok(v);
      case Raised(e) => r := Err(TaskRaised(e));
    }
  }

  /** Which payloads a worker refuses, and as what. */
  lemma RefusalsAreExact(payload: Payload, registry: set<string>, freshId: string)
    ensures var r := Requested(payload, registry, freshId);
            match payload
            case NotAnObject => r == Err(NotJsonObject)
            case AnObject(w) =>
              if w.version != Some("2") then r == Err(BadVersion)
              else if w.task == None || w.task == Some("") then r == Err(NoTask)
              else if w.task.value !in registry then r == Err(Unresolvable)
              else
                && r.Ok? && r.value.task == w.task.value
                && r.value.args == (if w.args.Some? then w.args.value else [])
                && r.value.kwargs == (if w.kwargs.Some? then w.kwargs.value else map[])
  {
  }

  /** What a retry object on the wire decodes to, key by key. */
  lemma RetryObjectInPlain(wire: Wire, raw: RetryWire)
    requires wire.retry == Some(raw)
    ensures DecodeRetry(wire).Ok? <==>
            && !raw.backoff.Null?
            && (raw.backoff.Present? ==> raw.backoff.value in {"none", "fixed", "linear", "exponential"})
            && (raw.maxAttempts.Present? ==> raw.maxAttempts.value >= 0)
            && (raw.initialDelay.Present? ==> raw.initialDelay.value >= 0.0)
            && (raw.maxDelay.Present? ==> raw.maxDelay.value >= 0.0)
    ensures DecodeRetry(wire).Ok? ==>
              var p := DecodeRetry(wire).value;
              && p.maxAttempts == (if raw.maxAttempts.Present? && raw.maxAttempts.value > 0
                                   then raw.maxAttempts.value else 1)
              && (raw.backoff.Missing? ==> p.backoff == Exponential)
              && (raw.backoff.Present? ==>
                    raw.backoff.value == match p.backoff
                                         case NoBackoff => "none"
                                         case Fixed => "fixed"
                                         case Linear => "linear"
                                         case Exponential => "exponential")
              && p.initialDelay == (if raw.initialDelay.Missing? then 1.0
                                    else if raw.initialDelay.Null? then 0.0 else raw.initialDelay.value)
              && (p.maxDelay.Some? <==> raw.maxDelay.Present?)
              && (p.maxDelay.Some? ==> p.maxDelay.value == raw.maxDelay.value)
              && p.retryOn == (if raw.retryOn.Present? then raw.retryOn.value else [])
              && p.noRetryOn == (if raw.noRetryOn.Present? then raw.noRetryOn.value else [])
              && p.owner == Backend
  {
    if raw.backoff.Present? {
      var name := raw.backoff.value;
      assert ParseBackoff(name).Some? <==> name in {"none", "fixed", "linear", "exponential"};
    }
  }

  /** What travels: everything that was submitted, under the version this worker speaks; and the retry object
      only if more than one attempt is asked for by anyone. */
  lemma EverythingTravels(spec: Spec)
    ensures var w := BuildEnvelope(spec);
            && w.version == Some("2") && w.task == Some(spec.task)
            && w.args == Some(spec.args) && w.kwargs == Some(spec.kwargs)
            && w.name == Some(spec.name) && w.queue == Some(spec.queue) && w.labels == Some(spec.labels)
            && (w.correlation.Some? <==> spec.correlation.Some?)
            && (w.retry.Some? <==> spec.retry.maxAttempts > 1 && spec.retry.owner != NoOwner)
  {
  }
}
