/** The inline backend: runs the function in the calling thread, retries included, tells the hooks,
    and keeps a bounded history. */
module InlineBackend {
  import opened Executions
  import opened Retry
  import opened History
  import opened Hooks

  datatype Execution = Execution(state: State, attempt: nat, result: Option<ExecutionResult>)

  /** The three structures of the history. */
  datatype Store = Store(executions: map<Id, Execution>, results: map<Id, ExecutionResult>, order: seq<Id>)

  const EMPTY: Store := Store(map[], map[], [])

  function Dropping<V>(m: map<Id, V>, gone: seq<Id>): map<Id, V> {
    map k | k in m && k !in gone :: m[k]
  }

  lemma DropOneMore<V>(m: map<Id, V>, gone: seq<Id>, key: Id)
    ensures Dropping(m, gone) - {key} == Dropping(m, gone + [key])
  {
  }

  function Remembered(s: Store, key: Id, e: Execution, r: ExecutionResult, history: nat): Store {
    if history == 0 then s
    else
      var gone := Evicted(s.order + [key], history);
      Store(Dropping(s.executions[key := e], gone), Dropping(s.results[key := r], gone),
            Kept(s.order + [key], history))
  }

  /** What one submission leaves behind, by the supervised run of its function. */
  function Finished(p: Policy, script: Script): Execution {
    var r := Run(p, script);
    Execution(StateOf(r.outcome), r.attempts, Some(ResultOf(r.outcome)))
  }

  /** One `on_retry` for each re-attempt, with the number of the attempt to come. */
  function RetryEvents(calls: nat): seq<HookEvent> {
    if calls <= 1 then [] else RetryEvents(calls - 1) + [OnRetry(calls)]
  }

  /** Everything one submission tells the hooks, in order. */
  function Trace(p: Policy, script: Script): seq<HookEvent> {
    var e := Finished(p, script);
    [BeforeSubmit, BeforeExecute] + RetryEvents(e.attempt)
    + [AfterExecute(e.state, e.attempt), if e.state == Succeeded then OnSuccess else OnFailure,
       AfterSubmit(e.state, e.attempt)]
  }

  class InlineExecutionBackend {
    const history: nat
    const chain: HookChain
    var executions: map<Id, Execution>
    var results: map<Id, ExecutionResult>
    var order: seq<Id>

    function View(): Store
      reads this
    {
      Store(executions, results, order)
    }

    constructor (history: nat, chain: HookChain)
      ensures View() == EMPTY && this.history == history && this.chain == chain
    {
      this.history, this.chain := history, chain;
      executions, results, order := map[], map[], [];
    }

    /** What every hook has seen since some earlier moment. */
    ghost predicate Told(before: seq<seq<HookEvent>>, trace: seq<HookEvent>)
      reads chain
    {
      && |before| == |chain.hooks| && chain.Valid()
      && forall i :: 0 <= i < |before| ==> chain.seen[i] == before[i] + Visible(chain.hooks[i], trace)
    }

    method Tell(ghost before: seq<seq<HookEvent>>, ghost trace: seq<HookEvent>, e: HookEvent)
      requires Told(before, trace)
      modifies chain
      ensures Told(before, trace + [e])
    {
      chain.Dispatch(e);
      forall i | 0 <= i < |before|
        ensures chain.seen[i] == before[i] + Visible(chain.hooks[i], trace + [e])
      {
        VisibleAppend(chain.hooks[i], trace, [e]);
        assert [e][..0] == [];
      }
    }

    ghost function TraceUpTo(e: Execution): seq<HookEvent> {
      [BeforeSubmit, BeforeExecute] + RetryEvents(e.attempt)
      + [AfterExecute(e.state, e.attempt), if e.state == Succeeded then OnSuccess else OnFailure]
    }

    /** The retry loop: the hooks are told before the sleep, and the attempt is counted after it. */
    method CallWithRetries(p: Policy, script: Script, ghost before: seq<seq<HookEvent>>)
      returns (outcome: Outcome, attempts: nat, slept: seq<real>)
      requires Told(before, [BeforeSubmit, BeforeExecute])
      modifies chain
      ensures var r := Run(p, script);
              outcome == r.outcome && attempts == r.attempts && slept == Slept(r.delays)
      ensures Told(before, [BeforeSubmit, BeforeExecute] + RetryEvents(attempts))
    {
      var attempt := 1;
      slept := [];
      ghost var done := [];
      assert [] + Run(p, script).delays == Run(p, script).delays;
      assert [BeforeSubmit, BeforeExecute] + RetryEvents(1) == [BeforeSubmit, BeforeExecute];
      while true
        invariant Resumes(p, script, attempt, done, slept)
        invariant Told(before, [BeforeSubmit, BeforeExecute] + RetryEvents(attempt))
        decreases p.maxAttempts - attempt
      {
        var result := script(attempt);
        if result.Returned? || !p.ShouldRetry(result.exn, attempt) {
          ResumesAtEnd(p, script, attempt, done, slept);
          return result, attempt, slept;
        }
        ResumesAfterRetry(p, script, attempt, done, slept);
        Tell(before, [BeforeSubmit, BeforeExecute] + RetryEvents(attempt), OnRetry(attempt + 1));
        assert [BeforeSubmit, BeforeExecute] + RetryEvents(attempt) + [OnRetry(attempt + 1)]
            == [BeforeSubmit, BeforeExecute] + RetryEvents(attempt + 1);
        var delay := p.DelayFor(attempt + 1);
        if delay > 0.0 {
          slept := slept + [delay];
        }
        done := done + [delay];
        attempt := attempt + 1;
      }
    }

    method Remember(key: Id, execution: Execution, result: ExecutionResult)
      modifies this
      ensures View() == Remembered(old(View()), key, execution, result, history)
    {
      if history == 0 {
        return;
      }
      executions := executions[key := execution];
      results := results[key := result];
      order := order + [key];
      ghost var es, rs, appended, n := executions, results, order, 0;
      while |order| > history
        invariant n <= |appended| && (n > 0 ==> |order| >= history)
        invariant order == appended[n..]
        invariant executions == Dropping(es, appended[..n]) && results == Dropping(rs, appended[..n])
        decreases |order|
      {
        var evicted := order[0];
        order := order[1..];
        assert appended[..n + 1] == appended[..n] + [evicted];
        DropOneMore(es, appended[..n], evicted);
        DropOneMore(rs, appended[..n], evicted);
        executions := executions - {evicted};
        results := results - {evicted};
        n := n + 1;
      }
    }

    method SubmitInner(key: Id, p: Policy, script: Script, ghost before: seq<seq<HookEvent>>)
      returns (execution: Execution)
      requires Told(before, [BeforeSubmit])
      modifies this, chain
      ensures execution == Finished(p, script)
      ensures View() == Remembered(old(View()), key, execution, execution.result.value, history)
      ensures Told(before, TraceUpTo(execution))
    {
      Tell(before, [BeforeSubmit], BeforeExecute);
      assert [BeforeSubmit] + [BeforeExecute] == [BeforeSubmit, BeforeExecute];
      var outcome, attempts, slept := CallWithRetries(p, script, before);
      var result, state := ResultOf(outcome), StateOf(outcome);
      execution := Execution(state, attempts, Some(result));
      ghost var trace := [BeforeSubmit, BeforeExecute] + RetryEvents(attempts);
      Tell(before, trace, AfterExecute(state, attempts));
      if outcome.Returned? {
        Tell(before, trace + [AfterExecute(state, attempts)], OnSuccess);
        assert trace + [AfterExecute(state, attempts)] + [OnSuccess] == TraceUpTo(execution);
      } else {
        Tell(before, trace + [AfterExecute(state, attempts)], OnFailure);
        assert trace + [AfterExecute(state, attempts)] + [OnFailure] == TraceUpTo(execution);
      }
      Remember(key, execution, result);
    }

    /** Submission: each hook sees the trace, as far as it has handlers, whichever hooks raise; the
        execution returned is terminal and is what the history remembers. */
    method Submit(key: Id, p: Policy, script: Script) returns (execution: Execution)
      requires chain.Valid()
      modifies this, chain
      ensures execution == Finished(p, script)
      ensures execution.attempt >= 1 && execution.result.Some?
      ensures match script(execution.attempt)
              case Returned(v) =>
                execution.state == Succeeded && execution.result.value == ExecutionResult(Some(v), None, None)
              case Raised(e) =>
                && execution.state == Failed && execution.result.value.value == None
                && execution.result.value.errorType == Some(e.qualName)
                && execution.result.value.error == Some(if e.message == "" then e.typeName else e.message)
      ensures View() == Remembered(old(View()), key, execution, execution.result.value, history)
      ensures Told(old(chain.seen), Trace(p, script))
    {
      ghost var before := chain.seen;
      Tell(before, [], BeforeSubmit);
      assert [] + [BeforeSubmit] == [BeforeSubmit];
      execution := SubmitInner(key, p, script, before);
      Tell(before, TraceUpTo(execution), AfterSubmit(execution.state, execution.attempt));
      assert TraceUpTo(execution) + [AfterSubmit(execution.state, execution.attempt)] == Trace(p, script);
      RunInPlain(p, script);
      ReportInPlain(script(execution.attempt));
    }
  }

  datatype Submission = Submission(key: Id, policy: Policy, script: Script)

  function SubmitAll(submissions: seq<Submission>, history: nat): Store {
    if submissions == [] then EMPTY
    else
      var last := submissions[|submissions| - 1];
      var e := Finished(last.policy, last.script);
      Remembered(SubmitAll(submissions[..|submissions| - 1], history), last.key, e, e.result.value, history)
  }

  function KeysOf(submissions: seq<Submission>): seq<Id> {
    seq(|submissions|, i requires 0 <= i < |submissions| => submissions[i].key)
  }

  ghost predicate SameResults(s: Store) {
    forall k :: k in s.executions && k in s.results ==> s.executions[k].result == Some(s.results[k])
  }

  ghost predicate IsHistory(s: Store, submitted: seq<Id>, history: nat) {
    && s.order == Kept(submitted, history)
    && s.executions.Keys == s.results.Keys == Elements(s.order)
    && SameResults(s)
  }

  lemma RememberedSameResults(s: Store, key: Id, e: Execution, r: ExecutionResult, history: nat)
    requires SameResults(s) && e.result == Some(r) && s.executions.Keys == s.results.Keys
    ensures SameResults(Remembered(s, key, e, r, history))
  {
  }

  lemma RememberedKeys(s: Store, key: Id, e: Execution, r: ExecutionResult, history: nat)
    requires history > 0
    ensures var s', gone := Remembered(s, key, e, r, history), Elements(Evicted(s.order + [key], history));
            && s'.executions.Keys == (s.executions.Keys + {key}) - gone
            && s'.results.Keys == (s.results.Keys + {key}) - gone
  {
  }

  lemma RememberedKeepsHistory(s: Store, submitted: seq<Id>, key: Id, e: Execution, r: ExecutionResult, history: nat)
    requires IsHistory(s, submitted, history) && Distinct(submitted) && key !in submitted && e.result == Some(r)
    ensures IsHistory(Remembered(s, key, e, r, history), submitted + [key], history)
  {
    KeptIsDistinct(submitted, history);
    KeptOfKept(submitted, key, history);
    AppendKeepsDistinct(s.order, key);
    RememberedSameResults(s, key, e, r, history);
    if history > 0 {
      RememberedKeys(s, key, e, r, history);
      var s', gone := Remembered(s, key, e, r, history), Evicted(s.order + [key], history);
      assert gone + s'.order == s.order + [key];
      DistinctHalves(gone, s'.order);
    }
  }

  /** After any submissions with fresh ids, the three structures hold the same ids, the last `history`
      submitted and in order, with each result that of its execution; a history of zero holds none. */
  lemma {:induction false} HistoryIsARing(submissions: seq<Submission>, history: nat)
    requires Distinct(KeysOf(submissions))
    ensures IsHistory(SubmitAll(submissions, history), KeysOf(submissions), history)
    ensures |SubmitAll(submissions, history).executions| <= history
  {
    if submissions == [] {
      assert KeysOf([]) == [] && Elements<Id>([]) == {};
    } else {
      var before, last := submissions[..|submissions| - 1], submissions[|submissions| - 1];
      assert KeysOf(submissions) == KeysOf(before) + [last.key];
      assert Distinct(KeysOf(before)) && last.key !in KeysOf(before) by {
        assert forall i :: 0 <= i < |before| ==> KeysOf(submissions)[i] == KeysOf(before)[i];
        assert KeysOf(submissions)[|before|] == last.key;
      }
      HistoryIsARing(before, history);
      var e := Finished(last.policy, last.script);
      RememberedKeepsHistory(SubmitAll(before, history), KeysOf(before), last.key, e, e.result.value, history);
    }
    var s := SubmitAll(submissions, history);
    KeptIsDistinct(KeysOf(submissions), history);
    DistinctSize(s.order);
    assert |s.executions| == |s.executions.Keys|;
  }

  lemma {:induction false} RetryEventsAt(calls: nat)
    requires calls >= 1
    ensures |RetryEvents(calls)| == calls - 1
    ensures forall i :: 0 <= i < calls - 1 ==> RetryEvents(calls)[i] == OnRetry(i + 2)
  {
    if calls > 1 {
      RetryEventsAt(calls - 1);
    }
  }

  ghost predicate Stored(s: Store, submissions: seq<Submission>) {
    forall i :: 0 <= i < |submissions| && submissions[i].key in s.executions ==>
                  s.executions[submissions[i].key] == Finished(submissions[i].policy, submissions[i].script)
  }

  lemma RememberedEntries(s: Store, key: Id, e: Execution, r: ExecutionResult, history: nat, j: Id)
    requires j in Remembered(s, key, e, r, history).executions && history > 0
    ensures if j == key then Remembered(s, key, e, r, history).executions[j] == e
            else j in s.executions && Remembered(s, key, e, r, history).executions[j] == s.executions[j]
  {
  }

  lemma KeysBefore(submissions: seq<Submission>)
    requires submissions != [] && Distinct(KeysOf(submissions))
    ensures var before := submissions[..|submissions| - 1];
            && Distinct(KeysOf(before))
            && forall i :: 0 <= i < |before| ==> before[i].key != submissions[|submissions| - 1].key
  {
    var before, all := submissions[..|submissions| - 1], KeysOf(submissions);
    assert forall i :: 0 <= i < |before| ==> all[i] == before[i].key == KeysOf(before)[i];
    assert all[|before|] == submissions[|before|].key;
  }

  /** What is kept under an id is the execution that its own submission returned. */
  lemma {:induction false} KeepsWhatWasReturned(submissions: seq<Submission>, history: nat)
    requires Distinct(KeysOf(submissions))
    ensures Stored(SubmitAll(submissions, history), submissions)
  {
    if history == 0 {
      HistoryIsARing(submissions, history);
    } else if submissions != [] {
      var n := |submissions| - 1;
      var before, last := submissions[..n], submissions[n];
      KeysBefore(submissions);
      KeepsWhatWasReturned(before, history);
      var s, s' := SubmitAll(before, history), SubmitAll(submissions, history);
      var e := Finished(last.policy, last.script);
      forall i | 0 <= i < |submissions| && submissions[i].key in s'.executions
        ensures s'.executions[submissions[i].key] == Finished(submissions[i].policy, submissions[i].script)
      {
        RememberedEntries(s, last.key, e, e.result.value, history, submissions[i].key);
        if i < n {
          assert submissions[i] == before[i];
        }
      }
    }
  }

  lemma InThreeParts<T>(a: seq<T>, b: seq<T>, c: seq<T>)
    ensures var s := a + b + c;
            && (forall i :: 0 <= i < |a| ==> s[i] == a[i])
            && (forall i :: 0 <= i < |b| ==> s[|a| + i] == b[i])
            && (forall i :: 0 <= i < |c| ==> s[|a| + |b| + i] == c[i])
  {
  }

  /** The trace in words: submit-side events enclose execute-side ones, and between `before_execute` and
      `after_execute` come exactly the re-attempts, one short of the attempt number returned. */
  lemma TraceOrder(p: Policy, script: Script)
    ensures var trace, n := Trace(p, script), Finished(p, script).attempt;
            && |trace| == n + 4
            && trace[0] == BeforeSubmit && trace[1] == BeforeExecute
            && (forall i :: 2 <= i < n + 1 ==> trace[i] == OnRetry(i))
            && trace[n + 1] == AfterExecute(Finished(p, script).state, n)
            && (trace[n + 2] == OnSuccess <==> Run(p, script).outcome.Returned?)
            && (trace[n + 2] == OnFailure <==> Run(p, script).outcome.Raised?)
            && trace[n + 3] == AfterSubmit(Finished(p, script).state, n)
            && 1 <= n <= p.EngineAttempts()
  {
    RunIsBounded(p, script);
    var e := Finished(p, script);
    var retries := RetryEvents(e.attempt);
    var ending := [AfterExecute(e.state, e.attempt), if e.state == Succeeded then OnSuccess else OnFailure,
                   AfterSubmit(e.state, e.attempt)];
    RetryEventsAt(e.attempt);
    InThreeParts([BeforeSubmit, BeforeExecute], retries, ending);
    assert Trace(p, script) == [BeforeSubmit, BeforeExecute] + retries + ending;
    forall i | 2 <= i < e.attempt + 1
      ensures Trace(p, script)[i] == OnRetry(i)
    {
      assert retries[i - 2] == OnRetry(i - 2 + 2);
    }
    assert Trace(p, script)[e.attempt + 1 + 0] == ending[0];
    assert Trace(p, script)[e.attempt + 1 + 1] == ending[1];
    assert Trace(p, script)[e.attempt + 1 + 2] == ending[2];
  }
}
