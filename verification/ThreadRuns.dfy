/** All interleavings of submitters, workers and cancellers over the thread backend's table.
    One step is one locked section, one operation on a future, or one call of a task function. */
module ThreadRuns {
  import opened Executions
  import opened Retry
  import opened History
  import opened ThreadBackend

  datatype Future = Unset | Waiting | Busy | Dropped | Done {
    /** Whether a thread blocked on the future's result may go on. */
    predicate IsOver() {
      Dropped? || Done?
    }
  }

  /** Where the pool thread is that runs a task. `Checked` is the gap between the look for a
      cancellation and the move to RUNNING. */
  datatype Worker = Idle | Dispatched | Fetched | Checked | Marked | Calling(attempt: nat)
                  | Finishing(outcome: Outcome, attempt: nat) | Returning | Exited
  {
    predicate BeforeCheck() {
      Idle? || Dispatched? || Fetched?
    }
  }

  /** One task. The last three fields are history: what each call of its function did, what
      `_finish` recorded, and whether a cancel landed in the gap. */
  datatype Task = Task(
    policy: Policy, future: Future, returned: bool, worker: Worker,
    outcomes: seq<Outcome>, finished: Option<Outcome>, gap: bool)

  datatype Phase = Entered | Tried(stopped: bool) | Over

  datatype Canceller = Canceller(key: Id, phase: Phase)

  datatype Sys = Sys(
    history: nat, table: Table<Entry>, submitted: seq<Id>, tasks: map<Id, Task>,
    cancellers: map<nat, Canceller>)

  datatype Step =
    | Submit(k: Id, policy: Policy)
    | Launch(k: Id)
    | Return(k: Id)
    | Dispatch(k: Id)
    | Fetch(k: Id)
    | Check(k: Id)
    | Mark(k: Id)
    | ReadRunning(k: Id)
    | ResolveFails(k: Id, exn: Exn)
    | CallFunction(k: Id, outcome: Outcome)
    | Finish(k: Id)
    | Complete(k: Id)
    | CancelEnter(c: nat, k: Id)
    | CancelFuture(c: nat)
    | CancelCommit(c: nat)

  function Init(history: nat): Sys {
    Sys(history, Table(map[], []), [], map[], map[])
  }

  /** Steps of a submitter or a worker on one task that has been registered. */
  predicate OnTask(step: Step) {
    !step.Submit? && !step.CancelEnter? && !step.CancelFuture? && !step.CancelCommit?
  }

  predicate CanMove(task: Task, step: Step)
    requires OnTask(step)
  {
    match step
    case Launch(_) => task.future == Unset
    case Return(_) => task.future != Unset
    case Dispatch(_) => task.future == Waiting
    case Fetch(_) => task.worker == Dispatched
    case Check(_) => task.worker == Fetched
    case Mark(_) => task.worker == Checked
    case ReadRunning(_) => task.worker == Marked
    case ResolveFails(_, _) => task.worker == Calling(1)
    case CallFunction(_, _) => task.worker.Calling?
    case Finish(_) => task.worker.Finishing?
    case Complete(_) => task.worker == Returning
  }

  predicate Enabled(s: Sys, step: Step) {
    match step
    case Submit(k, _) => k !in s.tasks
    // Only ids that a submission has returned are cancelled.
    case CancelEnter(c, k) => c !in s.cancellers && k in s.tasks && s.tasks[k].returned
    case CancelFuture(c) => c in s.cancellers && s.cancellers[c].phase == Entered && s.cancellers[c].key in s.tasks
    case CancelCommit(c) => c in s.cancellers && s.cancellers[c].phase.Tried? && s.cancellers[c].key in s.tasks
    case _ => step.k in s.tasks && CanMove(s.tasks[step.k], step)
  }

  predicate RetriedAt(p: RetryPolicy, o: Outcome, attempt: nat) {
    o.Raised? && p.ShouldRetry(o.exn, attempt)
  }

  function Called(task: Task, o: Outcome): Task
    requires task.worker.Calling?
  {
    var a := task.worker.attempt;
    task.(outcomes := task.outcomes + [o],
    worker := if RetriedAt(task.policy, o, a) then Calling(a + 1) else Finishing(o, a))
  }

  /** What a step on a task does to that task, given the table it sees. */
  function Move(t: Table<Entry>, task: Task, step: Step): Task
    requires OnTask(step) && CanMove(task, step)
  {
    match step
    case Launch(_) => task.(future := Waiting)
    case Return(_) => task.(returned := true)
    case Dispatch(_) => task.(future := Busy, worker := Dispatched)
    case Fetch(k) => task.(worker := if k in t.entries then Fetched else Returning)
    case Check(k) => task.(worker := if IsCancelledBlock(t, k) then Returning else Checked)
    case Mark(_) => task.(worker := Marked)
    // An entry evicted by now is a lookup error, which the future absorbs.
    case ReadRunning(k) => task.(worker := if k in t.entries then Calling(1) else Returning)
    case ResolveFails(_, exn) => task.(worker := Finishing(Raised(exn), 1))
    case CallFunction(_, o) => Called(task, o)
    case Finish(_) => task.(worker := Returning, finished := Some(task.worker.outcome))
    case Complete(_) => task.(worker := Exited, future := Done)
  }

  /** What it does to the table. */
  function Written(t: Table<Entry>, task: Task, step: Step): Table<Entry>
    requires OnTask(step) && CanMove(task, step)
  {
    match step
    case Mark(k) => TransitionBlock(t, k, Running)
    case Finish(k) => FinishBlock(t, k, task.worker.outcome, task.worker.attempt)
    case _ => t
  }

  /** The second half of a cancel, seen from its own task. */
  function Committed(t: Table<Entry>, task: Task, k: Id, stopped: bool): Task {
    task.(gap := task.gap || (CancelCommitBlock(t, k, stopped) != t && task.worker == Checked))
  }

  function Apply(s: Sys, step: Step): Sys
    requires Enabled(s, step)
  {
    match step
    case Submit(k, policy) =>
      s.(table := Register(s.table, k, FRESH, s.history),
         submitted := s.submitted + [k],
         tasks := s.tasks[k := Task(policy, Unset, false, Idle, [], None, false)])
    case CancelEnter(c, k) =>
      var phase := if CancelEnterBlock(s.table, k) == Proceed then Entered else Over;
      s.(cancellers := s.cancellers[c := Canceller(k, phase)])
    case CancelFuture(c) =>
      var k := s.cancellers[c].key;
      var f := s.tasks[k].future;
      s.(tasks := s.tasks[k := s.tasks[k].(future := if f == Waiting then Dropped else f)],
         cancellers := s.cancellers[c := Canceller(k, Tried(f == Waiting || f == Dropped))])
    case CancelCommit(c) =>
      var k := s.cancellers[c].key;
      var t := CancelCommitBlock(s.table, k, s.cancellers[c].phase.stopped);
      s.(table := t,
         tasks := s.tasks[k := Committed(s.table, s.tasks[k], k, s.cancellers[c].phase.stopped)],
         cancellers := s.cancellers[c := Canceller(k, Over)])
    case _ =>
      s.(table := Written(s.table, s.tasks[step.k], step),
         tasks := s.tasks[step.k := Move(s.table, s.tasks[step.k], step)])
  }

  /** The outcome handed to `_finish`: that of the last call, which is not retried, or the failure
      to resolve the name, before any call. */
  ghost predicate FinalOk(t: Task, outcome: Outcome, attempt: nat) {
    if t.outcomes == [] then outcome.Raised? && attempt == 1
    else
      && attempt == |t.outcomes|
      && outcome == t.outcomes[attempt - 1]
      && !RetriedAt(t.policy, outcome, attempt)
  }

  /** A future and its worker move together; calls and attempts agree with the policy. */
  ghost predicate TaskOk(t: Task) {
    && (t.worker == Idle <==> t.future in {Unset, Waiting, Dropped})
    && (t.worker == Exited <==> t.future == Done)
    && (t.returned ==> t.future != Unset)
    && (t.worker.BeforeCheck() || t.worker in {Checked, Marked} ==> t.outcomes == [] && t.finished == None)
    && (forall i :: 0 <= i < |t.outcomes| - 1 ==> RetriedAt(t.policy, t.outcomes[i], i + 1))
    && (t.worker.Calling? ==>
          && t.finished == None
          && t.worker.attempt == |t.outcomes| + 1
          && (t.outcomes != [] ==> RetriedAt(t.policy, t.outcomes[|t.outcomes| - 1], |t.outcomes|)))
    && (t.worker.Finishing? ==> t.finished == None && FinalOk(t, t.worker.outcome, t.worker.attempt))
    && (t.finished.Some? ==> t.worker in {Returning, Exited})
  }

  ghost predicate UntouchedOrCancelled(e: Entry) {
    e == FRESH || e == FRESH.(state := Cancelled)
  }

  ghost predicate UnderWay(t: Task, e: Entry) {
    e == FRESH.(state := if t.gap then Cancelled else Running)
  }

  ghost predicate Settled(t: Task, e: Entry) {
    match t.finished
    case Some(o) =>
      && e.state == StateOf(o) && e.result == Some(ResultOf(o))
      && FinalOk(t, o, e.attempt)
    case None => e == FRESH.(state := Cancelled) && !t.gap && t.outcomes == []
  }

  /** What the entry of a task says, by where the worker is. */
  ghost predicate EntryOk(t: Task, e: Entry) {
    match t.worker
    case Idle => UntouchedOrCancelled(e) && !t.gap && (e.state == Cancelled ==> t.future == Dropped)
    case Dispatched => UntouchedOrCancelled(e) && !t.gap
    case Fetched => UntouchedOrCancelled(e) && !t.gap
    case Checked => UntouchedOrCancelled(e) && (t.gap <==> e.state == Cancelled)
    case Marked => UnderWay(t, e)
    case Calling(_) => UnderWay(t, e)
    case Finishing(_, _) => UnderWay(t, e)
    case Returning => Settled(t, e)
    case Exited => Settled(t, e)
  }

  /** A canceller that took the future down and has not yet recorded it. */
  ghost predicate Stopper(s: Sys, k: Id) {
    exists c :: c in s.cancellers && s.cancellers[c] == Canceller(k, Tried(true))
  }

  ghost predicate CancellerOk(s: Sys, c: Canceller) {
    && c.key in s.tasks
    && s.tasks[c.key].returned
    && (c.phase == Tried(true) ==> s.tasks[c.key].future == Dropped)
    && (c.phase == Tried(false) ==> s.tasks[c.key].future in {Busy, Done})
  }

  ghost predicate KeysOk(s: Sys) {
    && IsRing(s.table, s.submitted, s.history)
    && s.tasks.Keys == Elements(s.submitted)
    && s.table.entries.Keys <= s.tasks.Keys
  }

  ghost predicate TasksOk(s: Sys) {
    forall k :: k in s.tasks ==> TaskOk(s.tasks[k])
  }

  ghost predicate EntriesOk(s: Sys) {
    forall k :: k in s.table.entries && k in s.tasks ==> EntryOk(s.tasks[k], s.table.entries[k])
  }

  ghost predicate DroppedOk(s: Sys) {
    forall k :: k in s.table.entries && k in s.tasks && s.tasks[k].future == Dropped ==>
                    s.table.entries[k].state == Cancelled || Stopper(s, k)
  }

  ghost predicate CancellersOk(s: Sys) {
    forall c :: c in s.cancellers ==> CancellerOk(s, s.cancellers[c])
  }

  ghost predicate Inv(s: Sys) {
    KeysOk(s) && TasksOk(s) && EntriesOk(s) && DroppedOk(s) && CancellersOk(s)
  }

  lemma CalledKeepsTaskOk(task: Task, o: Outcome)
    requires TaskOk(task) && task.worker.Calling?
    ensures TaskOk(Called(task, o))
  {
    var task' := Called(task, o);
    var n := |task.outcomes|;
    assert task'.outcomes[n] == o;
    forall i | 0 <= i < |task'.outcomes| - 1
      ensures RetriedAt(task'.policy, task'.outcomes[i], i + 1)
    {
      assert task'.outcomes[i] == task.outcomes[i];
    }
  }

  lemma MoveKeepsTaskOk(t: Table<Entry>, task: Task, step: Step)
    requires OnTask(step) && CanMove(task, step) && TaskOk(task)
    ensures TaskOk(Move(t, task, step))
  {
    if step.CallFunction? {
      CalledKeepsTaskOk(task, step.outcome);
    }
  }

  lemma MoveKeepsEntryOk(t: Table<Entry>, task: Task, step: Step)
    requires OnTask(step) && CanMove(task, step) && TaskOk(task)
    requires step.k in t.entries && EntryOk(task, t.entries[step.k])
    ensures EntryOk(Move(t, task, step), Written(t, task, step).entries[step.k])
  {
    var task', e := Move(t, task, step), t.entries[step.k];
    if step.CallFunction? {
      assert UnderWay(task, e);
    } else if step.Finish? {
      assert FinalOk(task, task.worker.outcome, task.worker.attempt);
      assert FinalOk(task', task.worker.outcome, task.worker.attempt);
    }
  }

  lemma WrittenElsewhere(t: Table<Entry>, task: Task, step: Step)
    requires OnTask(step) && CanMove(task, step)
    ensures var t' := Written(t, task, step);
            && t'.order == t.order && t'.entries.Keys == t.entries.Keys
            && forall k :: k in t.entries && k != step.k ==> t'.entries[k] == t.entries[k]
  {
  }

  /** How a future may move: once busy it never comes back, once dropped it stays dropped. */
  predicate Advances(task: Task, task': Task) {
    && (task.returned ==> task'.returned)
    && (task.future == Dropped ==> task'.future == Dropped)
    && (task.future in {Busy, Done} ==> task'.future in {Busy, Done})
  }

  lemma MoveAdvances(t: Table<Entry>, task: Task, step: Step)
    requires OnTask(step) && CanMove(task, step) && TaskOk(task)
    ensures Advances(task, Move(t, task, step))
    ensures Move(t, task, step).future == Dropped ==> task.future == Dropped && step.Return?
  {
  }

  /** A step that rewrites one task, its entry and its canceller, and nothing else. */
  ghost predicate Rewrites(s: Sys, s': Sys, k: Id) {
    && k in s.tasks && k in s'.tasks
    && s'.history == s.history && s'.submitted == s.submitted
    && s'.tasks == s.tasks[k := s'.tasks[k]]
    && s'.table.order == s.table.order
    && s'.table.entries.Keys == s.table.entries.Keys
    && (forall j :: j in s.table.entries && j != k ==> s'.table.entries[j] == s.table.entries[j])
    && s.cancellers.Keys <= s'.cancellers.Keys
    && (forall c :: c in s'.cancellers ==>
          s'.cancellers[c].key == k || (c in s.cancellers && s'.cancellers[c] == s.cancellers[c]))
    && (forall c :: c in s.cancellers && s.cancellers[c].key != k ==> s'.cancellers[c] == s.cancellers[c])
  }

  lemma RewriteKeepsKeys(s: Sys, s': Sys, k: Id)
    requires KeysOk(s) && Rewrites(s, s', k)
    ensures KeysOk(s')
  {
    assert s'.tasks.Keys == s.tasks.Keys;
  }

  lemma RewriteKeepsTasks(s: Sys, s': Sys, k: Id)
    requires TasksOk(s) && Rewrites(s, s', k) && TaskOk(s'.tasks[k])
    ensures TasksOk(s')
  {
    forall j | j in s'.tasks
      ensures TaskOk(s'.tasks[j])
    {
      if j != k {
        assert s'.tasks[j] == s.tasks[j];
      }
    }
  }

  lemma RewriteKeepsEntries(s: Sys, s': Sys, k: Id)
    requires EntriesOk(s) && Rewrites(s, s', k)
    requires k in s'.table.entries ==> EntryOk(s'.tasks[k], s'.table.entries[k])
    ensures EntriesOk(s')
  {
    forall j | j in s'.table.entries && j in s'.tasks
      ensures EntryOk(s'.tasks[j], s'.table.entries[j])
    {
      if j != k {
        assert j in s.table.entries && s'.tasks[j] == s.tasks[j];
      }
    }
  }

  lemma RewriteKeepsDropped(s: Sys, s': Sys, k: Id)
    requires DroppedOk(s) && Rewrites(s, s', k)
    requires k in s'.table.entries && s'.tasks[k].future == Dropped ==>
               s'.table.entries[k].state == Cancelled || Stopper(s', k)
    ensures DroppedOk(s')
  {
    forall j | j in s'.table.entries && j in s'.tasks && s'.tasks[j].future == Dropped
      ensures s'.table.entries[j].state == Cancelled || Stopper(s', j)
    {
      if j != k && s'.table.entries[j].state != Cancelled {
        assert j in s.table.entries && s'.tasks[j] == s.tasks[j];
        var c :| c in s.cancellers && s.cancellers[c] == Canceller(j, Tried(true));
        assert s'.cancellers[c] == Canceller(j, Tried(true));
      }
    }
  }

  /** Whether the canceller `c` is new, or moved, between two states. */
  predicate Moved(s: Sys, s': Sys, c: nat)
    requires c in s'.cancellers
  {
    c !in s.cancellers || s'.cancellers[c] != s.cancellers[c]
  }

  lemma RewriteKeepsCancellers(s: Sys, s': Sys, k: Id)
    requires CancellersOk(s) && Rewrites(s, s', k) && Advances(s.tasks[k], s'.tasks[k])
    requires forall c :: c in s'.cancellers && Moved(s, s', c) ==> CancellerOk(s', s'.cancellers[c])
    ensures CancellersOk(s')
  {
    forall c | c in s'.cancellers && !Moved(s, s', c)
      ensures CancellerOk(s', s'.cancellers[c])
    {
      assert CancellerOk(s, s.cancellers[c]);
    }
  }

  lemma CommitKeepsEntryOk(t: Table<Entry>, task: Task, k: Id, stopped: bool)
    requires TaskOk(task) && (k in t.entries ==> EntryOk(task, t.entries[k]))
    requires if stopped then task.future == Dropped else task.future in {Busy, Done}
    ensures TaskOk(Committed(t, task, k, stopped))
    ensures k in t.entries ==>
              EntryOk(Committed(t, task, k, stopped), CancelCommitBlock(t, k, stopped).entries[k])
  {
  }

  /** The invariant survives a step on one task if it does so on that task. */
  lemma RewriteKeepsInv(s: Sys, s': Sys, k: Id)
    requires Inv(s) && Rewrites(s, s', k) && Advances(s.tasks[k], s'.tasks[k])
    requires TaskOk(s'.tasks[k])
    requires k in s'.table.entries ==> EntryOk(s'.tasks[k], s'.table.entries[k])
    requires k in s'.table.entries && s'.tasks[k].future == Dropped ==>
               s'.table.entries[k].state == Cancelled || Stopper(s', k)
    requires forall c :: c in s'.cancellers && Moved(s, s', c) ==> CancellerOk(s', s'.cancellers[c])
    ensures Inv(s')
  {
    RewriteKeepsKeys(s, s', k);
    RewriteKeepsTasks(s, s', k);
    RewriteKeepsEntries(s, s', k);
    RewriteKeepsDropped(s, s', k);
    RewriteKeepsCancellers(s, s', k);
  }

  lemma StopperStays(s: Sys, s': Sys, k: Id)
    requires Stopper(s, k)
    requires forall c :: c in s.cancellers && s.cancellers[c] == Canceller(k, Tried(true)) ==>
                           c in s'.cancellers && s'.cancellers[c] == s.cancellers[c]
    ensures Stopper(s', k)
  {
    var c :| c in s.cancellers && s.cancellers[c] == Canceller(k, Tried(true));
    assert s'.cancellers[c] == Canceller(k, Tried(true));
  }

  lemma OnTaskKeepsInv(s: Sys, step: Step)
    requires Inv(s) && OnTask(step) && Enabled(s, step)
    ensures Inv(Apply(s, step))
  {
    var s', k, task := Apply(s, step), step.k, s.tasks[step.k];
    assert TaskOk(task);
    MoveKeepsTaskOk(s.table, task, step);
    WrittenElsewhere(s.table, task, step);
    MoveAdvances(s.table, task, step);
    if k in s.table.entries {
      MoveKeepsEntryOk(s.table, task, step);
      if s'.tasks[k].future == Dropped && s.table.entries[k].state != Cancelled {
        StopperStays(s, s', k);
      }
    }
    RewriteKeepsInv(s, s', k);
  }

  lemma EnterRewrites(s: Sys, step: Step)
    requires step.CancelEnter? && Enabled(s, step)
    ensures Rewrites(s, Apply(s, step), step.k)
    ensures Apply(s, step).tasks == s.tasks && Apply(s, step).table == s.table
  {
  }

  lemma EnterKeepsDropped(s: Sys, step: Step)
    requires DroppedOk(s) && step.CancelEnter? && Enabled(s, step)
    ensures DroppedOk(Apply(s, step))
  {
    var s', k := Apply(s, step), step.k;
    EnterRewrites(s, step);
    if Stopper(s, k) {
      StopperStays(s, s', k);
    }
    RewriteKeepsDropped(s, s', k);
  }

  lemma CancelEnterKeepsInv(s: Sys, step: Step)
    requires Inv(s) && step.CancelEnter? && Enabled(s, step)
    ensures Inv(Apply(s, step))
  {
    var s', k := Apply(s, step), step.k;
    EnterRewrites(s, step);
    EnterKeepsDropped(s, step);
    RewriteKeepsKeys(s, s', k);
    RewriteKeepsTasks(s, s', k);
    RewriteKeepsEntries(s, s', k);
    RewriteKeepsCancellers(s, s', k);
  }

  lemma TryRewrites(s: Sys, step: Step)
    requires step.CancelFuture? && Enabled(s, step)
    ensures var k := s.cancellers[step.c].key;
            Rewrites(s, Apply(s, step), k) && Advances(s.tasks[k], Apply(s, step).tasks[k])
  {
  }

  lemma TryKeepsDropped(s: Sys, step: Step)
    requires DroppedOk(s) && step.CancelFuture? && Enabled(s, step)
    ensures DroppedOk(Apply(s, step))
  {
    var s', k := Apply(s, step), s.cancellers[step.c].key;
    TryRewrites(s, step);
    if s'.tasks[k].future == Dropped {
      assert s'.cancellers[step.c] == Canceller(k, Tried(true));
    }
    RewriteKeepsDropped(s, s', k);
  }

  lemma TryKeepsCancellers(s: Sys, step: Step)
    requires CancellersOk(s) && TasksOk(s) && step.CancelFuture? && Enabled(s, step)
    ensures CancellersOk(Apply(s, step))
  {
    var k := s.cancellers[step.c].key;
    assert CancellerOk(s, s.cancellers[step.c]) && TaskOk(s.tasks[k]);
    TryRewrites(s, step);
    RewriteKeepsCancellers(s, Apply(s, step), k);
  }

  lemma TryKeepsTask(s: Sys, step: Step)
    requires step.CancelFuture? && Enabled(s, step)
    ensures var k, s' := s.cancellers[step.c].key, Apply(s, step);
            && (TaskOk(s.tasks[k]) ==> TaskOk(s'.tasks[k]))
            && s'.table == s.table
            && forall e :: EntryOk(s.tasks[k], e) ==> EntryOk(s'.tasks[k], e)
  {
  }

  lemma CancelFutureKeepsInv(s: Sys, step: Step)
    requires Inv(s) && step.CancelFuture? && Enabled(s, step)
    ensures Inv(Apply(s, step))
  {
    var s', k := Apply(s, step), s.cancellers[step.c].key;
    TryRewrites(s, step);
    TryKeepsTask(s, step);
    TryKeepsDropped(s, step);
    TryKeepsCancellers(s, step);
    RewriteKeepsKeys(s, s', k);
    RewriteKeepsTasks(s, s', k);
    RewriteKeepsEntries(s, s', k);
  }

  lemma CommitRewrites(s: Sys, step: Step)
    requires step.CancelCommit? && Enabled(s, step)
    ensures var k := s.cancellers[step.c].key;
            Rewrites(s, Apply(s, step), k) && Advances(s.tasks[k], Apply(s, step).tasks[k])
  {
  }

  lemma CommitKeepsDropped(s: Sys, step: Step)
    requires DroppedOk(s) && step.CancelCommit? && Enabled(s, step)
    ensures DroppedOk(Apply(s, step))
  {
    var s', k := Apply(s, step), s.cancellers[step.c].key;
    CommitRewrites(s, step);
    if !s.cancellers[step.c].phase.stopped && Stopper(s, k) {
      StopperStays(s, s', k);
    }
    RewriteKeepsDropped(s, s', k);
  }

  lemma CommitKeepsCancellers(s: Sys, step: Step)
    requires CancellersOk(s) && step.CancelCommit? && Enabled(s, step)
    ensures CancellersOk(Apply(s, step))
  {
    CommitRewrites(s, step);
    assert CancellerOk(s, s.cancellers[step.c]);
    RewriteKeepsCancellers(s, Apply(s, step), s.cancellers[step.c].key);
  }

  lemma CancelCommitKeepsInv(s: Sys, step: Step)
    requires Inv(s) && step.CancelCommit? && Enabled(s, step)
    ensures Inv(Apply(s, step))
  {
    var s', k := Apply(s, step), s.cancellers[step.c].key;
    assert CancellerOk(s, s.cancellers[step.c]);
    CommitKeepsEntryOk(s.table, s.tasks[k], k, s.cancellers[step.c].phase.stopped);
    CommitRewrites(s, step);
    CommitKeepsDropped(s, step);
    CommitKeepsCancellers(s, step);
    RewriteKeepsKeys(s, s', k);
    RewriteKeepsTasks(s, s', k);
    RewriteKeepsEntries(s, s', k);
  }

  lemma SubmitKeepsTasks(s: Sys, step: Step)
    requires TasksOk(s) && step.Submit? && Enabled(s, step)
    ensures TasksOk(Apply(s, step))
  {
  }

  lemma SubmitKeepsEntries(s: Sys, step: Step)
    requires EntriesOk(s) && KeysOk(s) && step.Submit? && Enabled(s, step)
    ensures EntriesOk(Apply(s, step))
  {
    var s' := Apply(s, step);
    forall j | j in s'.table.entries && j in s'.tasks
      ensures EntryOk(s'.tasks[j], s'.table.entries[j])
    {
      if j != step.k {
        assert j in s.table.entries && s'.tasks[j] == s.tasks[j];
      }
    }
  }

  lemma SubmitKeepsCancellers(s: Sys, step: Step)
    requires CancellersOk(s) && step.Submit? && Enabled(s, step)
    ensures CancellersOk(Apply(s, step))
  {
    forall c | c in s.cancellers
      ensures CancellerOk(Apply(s, step), s.cancellers[c])
    {
      assert CancellerOk(s, s.cancellers[c]);
    }
  }

  lemma SubmitKeepsRing(s: Sys, step: Step)
    requires IsRing(s.table, s.submitted, s.history) && step.Submit? && step.k !in s.submitted
    requires Enabled(s, step)
    ensures IsRing(Apply(s, step).table, Apply(s, step).submitted, Apply(s, step).history)
  {
    RegisterKeepsRing(s.table, s.submitted, step.k, FRESH, s.history);
  }

  lemma SubmitKeepsKnown(s: Sys, step: Step)
    requires s.tasks.Keys == Elements(s.submitted) && s.table.entries.Keys <= s.tasks.Keys
    requires step.Submit? && Enabled(s, step)
    ensures Apply(s, step).tasks.Keys == Elements(Apply(s, step).submitted)
    ensures Apply(s, step).table.entries.Keys <= Apply(s, step).tasks.Keys
  {
    ElementsAppend(s.submitted, step.k);
    RegisterAddsAtMostTheKey(s.table, step.k, FRESH, s.history);
  }

  lemma SubmitKeepsKeys(s: Sys, step: Step)
    requires KeysOk(s) && step.Submit? && Enabled(s, step)
    ensures KeysOk(Apply(s, step))
  {
    SubmitKeepsRing(s, step);
    SubmitKeepsKnown(s, step);
  }

  lemma SubmitKeepsDropped(s: Sys, step: Step)
    requires DroppedOk(s) && step.Submit? && Enabled(s, step)
    ensures DroppedOk(Apply(s, step))
  {
    var s' := Apply(s, step);
    forall j | j in s'.table.entries && j in s'.tasks && s'.tasks[j].future == Dropped
      ensures s'.table.entries[j].state == Cancelled || Stopper(s', j)
    {
      assert j in s.table.entries && s'.tasks[j] == s.tasks[j];
      if Stopper(s, j) {
        StopperStays(s, s', j);
      }
    }
  }

  lemma SubmitKeepsInv(s: Sys, step: Step)
    requires Inv(s) && step.Submit? && Enabled(s, step)
    ensures Inv(Apply(s, step))
  {
    SubmitKeepsKeys(s, step);
    SubmitKeepsTasks(s, step);
    SubmitKeepsEntries(s, step);
    SubmitKeepsDropped(s, step);
    SubmitKeepsCancellers(s, step);
  }

  /** Every step keeps the invariant. */
  lemma StepKeepsInv(s: Sys, step: Step)
    requires Inv(s) && Enabled(s, step)
    ensures Inv(Apply(s, step))
  {
    if OnTask(step) {
      OnTaskKeepsInv(s, step);
    } else if step.Submit? {
      SubmitKeepsInv(s, step);
    } else if step.CancelEnter? {
      CancelEnterKeepsInv(s, step);
    } else if step.CancelFuture? {
      CancelFutureKeepsInv(s, step);
    } else {
      CancelCommitKeepsInv(s, step);
    }
  }

  ghost predicate LandsInGap(s: Sys, step: Step, k: Id) {
    && step.CancelCommit? && Enabled(s, step) && s.cancellers[step.c].key == k
    && k in s.table.entries && s.table.entries[k].state == Queued
    && s.tasks[k].worker == Checked
  }

  lemma WriteObeysTable(t: Table<Entry>, task: Task, step: Step)
    requires OnTask(step) && CanMove(task, step) && TaskOk(task)
    requires step.k in t.entries && EntryOk(task, t.entries[step.k])
    ensures var before, after := t.entries[step.k], Written(t, task, step).entries[step.k];
            && (TransitionsTo(before.state, after.state) <==> !(step == Finish(step.k) && task.gap))
            && (before.state in {Succeeded, Failed} ==> after == before)
  {
  }

  lemma CommitObeysTable(t: Table<Entry>, task: Task, k: Id, stopped: bool)
    requires TaskOk(task) && k in t.entries && EntryOk(task, t.entries[k])
    requires if stopped then task.future == Dropped else task.future in {Busy, Done}
    ensures var before, after := t.entries[k], CancelCommitBlock(t, k, stopped).entries[k];
            && TransitionsTo(before.state, after.state)
            && (before.state in {Succeeded, Failed} ==> after == before)
  {
  }

  lemma OnTaskObeysTable(s: Sys, step: Step, k: Id)
    requires TasksOk(s) && EntriesOk(s) && OnTask(step) && Enabled(s, step) && k in s.table.entries && k in s.tasks
    ensures k in Apply(s, step).table.entries
    ensures var before, after := s.table.entries[k], Apply(s, step).table.entries[k];
            && (TransitionsTo(before.state, after.state) <==> !(step == Finish(k) && s.tasks[k].gap))
            && (before.state in {Succeeded, Failed} ==> after == before)
  {
    WrittenElsewhere(s.table, s.tasks[step.k], step);
    if step.k == k {
      WriteObeysTable(s.table, s.tasks[k], step);
    }
  }

  lemma CancelObeysTable(s: Sys, step: Step, k: Id)
    requires TasksOk(s) && EntriesOk(s) && CancellersOk(s) && k in s.table.entries && k in s.tasks
    requires step.CancelCommit? && Enabled(s, step)
    ensures k in Apply(s, step).table.entries
    ensures var before, after := s.table.entries[k], Apply(s, step).table.entries[k];
            && TransitionsTo(before.state, after.state)
            && (before.state in {Succeeded, Failed} ==> after == before)
  {
    if s.cancellers[step.c].key == k {
      assert CancellerOk(s, s.cancellers[step.c]);
      CommitObeysTable(s.table, s.tasks[k], k, s.cancellers[step.c].phase.stopped);
    }
  }

  /** A retained entry changes state along the table of legal transitions, except exactly when
      `_finish` records the outcome of a task whose cancel landed in the gap; and an outcome, once
      recorded, is never replaced. */
  lemma StepObeysTable(s: Sys, step: Step, k: Id)
    requires Inv(s) && Enabled(s, step)
    requires k in s.table.entries && k in Apply(s, step).table.entries
    ensures k in s.tasks
    ensures var before, after := s.table.entries[k], Apply(s, step).table.entries[k];
            && (TransitionsTo(before.state, after.state) <==> !(step == Finish(k) && s.tasks[k].gap))
            && (before.state in {Succeeded, Failed} ==> after == before)
  {
    if OnTask(step) {
      OnTaskObeysTable(s, step, k);
    } else if step.CancelCommit? {
      CancelObeysTable(s, step, k);
    }
  }

  /** A task whose future is over, seen on its own. */
  lemma OverIsSettled(task: Task, e: Entry)
    requires TaskOk(task) && EntryOk(task, e) && task.future.IsOver()
    ensures !e.state.IsTerminal() ==> e.state == Queued && task.future == Dropped
    ensures e.state == Cancelled <==> e.state.IsTerminal() && task.finished.None?
    ensures task.finished.Some? ==> e.state == StateOf(task.finished.value)
    ensures e.result == match task.finished case Some(o) => Some(ResultOf(o)) case None => None
  {
  }

  lemma DroppedIsIdle(s: Sys, k: Id)
    requires Inv(s) && k in s.table.entries && k in s.tasks && s.tasks[k].future == Dropped
    ensures s.table.entries[k].state in {Queued, Cancelled}
  {
    assert TaskOk(s.tasks[k]) && EntryOk(s.tasks[k], s.table.entries[k]);
  }

  /** In a whole state, an entry whose future is over and which is not terminal has a canceller that took
      the future down and has yet to record it. */
  lemma OverIsSettledOrStopping(s: Sys, k: Id)
    requires Inv(s) && k in s.table.entries && k in s.tasks && s.tasks[k].future.IsOver()
    ensures var e := s.table.entries[k];
            && (!e.state.IsTerminal() ==> e.state == Queued && s.tasks[k].future == Dropped && Stopper(s, k))
            && (e.state == Cancelled <==> e.state.IsTerminal() && s.tasks[k].finished.None?)
            && (s.tasks[k].finished.Some? ==> e.state == StateOf(s.tasks[k].finished.value))
            && (e.state.IsTerminal() ==>
                  ResultBlock(s.table, k) == Some(match s.tasks[k].finished
                                                  case Some(o) => ResultOf(o)
                                                  case None => CANCELLED_RESULT))
  {
    assert TaskOk(s.tasks[k]) && EntryOk(s.tasks[k], s.table.entries[k]);
    OverIsSettled(s.tasks[k], s.table.entries[k]);
  }

  lemma OutcomesAreTheRun(t: Task, script: Script)
    requires TaskOk(t) && t.outcomes != []
    requires FinalOk(t, t.outcomes[|t.outcomes| - 1], |t.outcomes|)
    requires forall i :: 0 <= i < |t.outcomes| ==> script(i + 1) == t.outcomes[i]
    ensures Run(t.policy, script).attempts == |t.outcomes|
    ensures Run(t.policy, script).outcome == t.outcomes[|t.outcomes| - 1]
  {
    var n := |t.outcomes|;
    var r := RetryRun(n, seq(n - 1, i requires 0 <= i => t.policy.DelayFor(i + 2)), t.outcomes[n - 1]);
    forall a: nat | 1 <= a < n
      ensures Retried(t.policy, script, a)
    {
      assert RetriedAt(t.policy, t.outcomes[a - 1], a - 1 + 1);
    }
    assert script(n) == t.outcomes[n - 1];
    RunIsExactly(t.policy, script, r);
  }

  /** The error of resolving the name, of a task that finished without a call. */
  function ResolutionError(t: Task): Option<Exn> {
    if t.outcomes == [] && t.finished.Some? && t.finished.value.Raised? then Some(t.finished.value.exn) else None
  }

  lemma FinishedIsTheRun(s: Sys, k: Id, script: Script)
    requires Inv(s) && k in s.table.entries && k in s.tasks && s.tasks[k].finished.Some?
    requires forall i :: 0 <= i < |s.tasks[k].outcomes| ==> script(i + 1) == s.tasks[k].outcomes[i]
    ensures var r := InProcess(s.tasks[k].policy, script, ResolutionError(s.tasks[k]));
            s.table.entries[k] == Entry(StateOf(r.outcome), r.attempts, Some(ResultOf(r.outcome)))
  {
    var t := s.tasks[k];
    assert TaskOk(t) && EntryOk(t, s.table.entries[k]);
    if t.outcomes != [] {
      OutcomesAreTheRun(t, script);
    }
  }

  lemma FewCalls(t: Task)
    requires TaskOk(t)
    ensures |t.outcomes| <= t.policy.EngineAttempts()
  {
    var n := |t.outcomes|;
    if n >= 2 {
      assert RetriedAt(t.policy, t.outcomes[n - 2], n - 2 + 1);
    }
  }

  ghost predicate IsRun(history: nat, states: seq<Sys>, steps: seq<Step>) {
    && |states| == |steps| + 1
    && states[0] == Init(history)
    && forall i {:trigger steps[i]} :: 0 <= i < |steps| ==>
         Enabled(states[i], steps[i]) && states[i + 1] == Apply(states[i], steps[i])
  }

  lemma {:induction false} RunKeepsInv(history: nat, states: seq<Sys>, steps: seq<Step>, i: nat)
    requires IsRun(history, states, steps) && i < |states|
    ensures Inv(states[i])
  {
    if i == 0 {
      assert Kept([], history) == [];
    } else {
      RunKeepsInv(history, states, steps, i - 1);
      StepKeepsInv(states[i - 1], steps[i - 1]);
    }
  }

  /** What a finished entry records is what an in-process execution of its policy gives, over what the
      calls did; a name that did not resolve included. */
  lemma RecordedRun(history: nat, states: seq<Sys>, steps: seq<Step>, i: nat, k: Id, script: Script)
    requires IsRun(history, states, steps) && i < |states|
    requires k in states[i].table.entries && k in states[i].tasks && states[i].tasks[k].finished.Some?
    requires forall n :: 0 <= n < |states[i].tasks[k].outcomes| ==> script(n + 1) == states[i].tasks[k].outcomes[n]
    ensures var t := states[i].tasks[k];
            var r := InProcess(t.policy, script, ResolutionError(t));
            states[i].table.entries[k] == Entry(StateOf(r.outcome), r.attempts, Some(ResultOf(r.outcome)))
  {
    RunKeepsInv(history, states, steps, i);
    FinishedIsTheRun(states[i], k, script);
  }

  /** A finished entry, in plain words: SUCCEEDED with the value the last call returned, or FAILED with what the
      last call, or the resolution of the name, raised; and `result` answers just that. */
  lemma FinishedInPlain(history: nat, states: seq<Sys>, steps: seq<Step>, i: nat, k: Id)
    requires IsRun(history, states, steps) && i < |states|
    requires k in states[i].table.entries && k in states[i].tasks && states[i].tasks[k].finished.Some?
    ensures var t, e := states[i].tasks[k], states[i].table.entries[k];
            && (t.outcomes != [] ==> t.finished.value == t.outcomes[|t.outcomes| - 1])
            && e.attempt == (if t.outcomes == [] then 1 else |t.outcomes|)
            && ResultBlock(states[i].table, k) == e.result
            && match t.finished.value
               case Returned(v) => e.state == Succeeded && e.result == Some(ExecutionResult(Some(v), None, None))
               case Raised(x) =>
                 && e.state == Failed && e.result.Some? && e.result.value.value == None
                 && e.result.value.errorType == Some(x.qualName)
                 && e.result.value.error == Some(if x.message == "" then x.typeName else x.message)
  {
    RunKeepsInv(history, states, steps, i);
    assert TaskOk(states[i].tasks[k]) && EntryOk(states[i].tasks[k], states[i].table.entries[k]);
    ReportInPlain(states[i].tasks[k].finished.value);
  }

  /** And for an entry that is CANCELLED with nothing finished, `result` answers so. */
  lemma CancelledInPlain(history: nat, states: seq<Sys>, steps: seq<Step>, i: nat, k: Id)
    requires IsRun(history, states, steps) && i < |states|
    requires k in states[i].table.entries && k in states[i].tasks && states[i].tasks[k].finished.None?
    ensures ResultBlock(states[i].table, k)
         == Some(ExecutionResult(None, Some("execution was cancelled"), Some("ExecutionCancelled")))
  {
    RunKeepsInv(history, states, steps, i);
    assert TaskOk(states[i].tasks[k]) && EntryOk(states[i].tasks[k], states[i].table.entries[k]);
  }

  /** At no moment has a function been called more often than the policy grants the backend. */
  lemma CallsAreBounded(history: nat, states: seq<Sys>, steps: seq<Step>, i: nat, k: Id)
    requires IsRun(history, states, steps) && i < |states| && k in states[i].tasks
    ensures |states[i].tasks[k].outcomes| <= states[i].tasks[k].policy.EngineAttempts()
  {
    RunKeepsInv(history, states, steps, i);
    FewCalls(states[i].tasks[k]);
  }

  /** A cancel goes on beyond its first look exactly for an entry that is kept and not over; else it neither
      changes anything nor has a further step. */
  lemma CancelGoesOnIff(s: Sys, c: nat, k: Id)
    requires Enabled(s, CancelEnter(c, k))
    ensures var s' := Apply(s, CancelEnter(c, k));
            && s'.table == s.table && s'.tasks == s.tasks
            && (Enabled(s', CancelFuture(c)) <==>
                  k in s.table.entries && s.table.entries[k].state in {Pending, Queued, Running, Unknown})
            && !Enabled(s', CancelCommit(c))
    ensures CancelEnterBlock(s.table, k).AlreadyOver? ==>
              k in s.table.entries && CancelEnterBlock(s.table, k).entry == s.table.entries[k]
  {
    if k in s.table.entries {
      TransitionsInPlain(s.table.entries[k].state, Queued);
    }
  }

  lemma TasksStay(s: Sys, step: Step)
    requires Enabled(s, step)
    ensures s.tasks.Keys <= Apply(s, step).tasks.Keys
  {
  }

  /** The gap mark is set exactly by a cancel that lands in the gap. */
  lemma CommitMarksGap(t: Table<Entry>, task: Task, k: Id, stopped: bool)
    requires TaskOk(task) && (k in t.entries ==> EntryOk(task, t.entries[k]))
    requires if stopped then task.future == Dropped else task.future in {Busy, Done}
    ensures Committed(t, task, k, stopped).gap <==>
            task.gap || (k in t.entries && t.entries[k].state == Queued && task.worker == Checked)
  {
  }

  predicate Gapped(s: Sys, k: Id) {
    k in s.tasks && s.tasks[k].gap
  }

  lemma GapCommit(s: Sys, step: Step, k: Id)
    requires TasksOk(s) && EntriesOk(s) && CancellersOk(s)
    requires step.CancelCommit? && Enabled(s, step) && s.cancellers[step.c].key == k
    ensures Gapped(Apply(s, step), k) <==> Gapped(s, k) || LandsInGap(s, step, k)
  {
    assert CancellerOk(s, s.cancellers[step.c]);
    CommitMarksGap(s.table, s.tasks[k], k, s.cancellers[step.c].phase.stopped);
  }

  lemma MoveKeepsGap(t: Table<Entry>, task: Task, step: Step)
    requires OnTask(step) && CanMove(task, step)
    ensures Move(t, task, step).gap == task.gap
  {
  }

  lemma GapElsewhere(s: Sys, step: Step, k: Id)
    requires Enabled(s, step) && (step.CancelCommit? ==> s.cancellers[step.c].key != k)
    ensures Gapped(Apply(s, step), k) <==> Gapped(s, k)
  {
    if OnTask(step) {
      MoveKeepsGap(s.table, s.tasks[step.k], step);
    }
  }

  lemma GapStep(s: Sys, step: Step, k: Id)
    requires Inv(s) && Enabled(s, step)
    ensures Gapped(Apply(s, step), k) <==> Gapped(s, k) || LandsInGap(s, step, k)
  {
    if step.CancelCommit? && s.cancellers[step.c].key == k {
      GapCommit(s, step, k);
    } else {
      GapElsewhere(s, step, k);
    }
  }

  /** A cancel landed in the gap of this task at some step before `i`. */
  ghost predicate LandedBefore(states: seq<Sys>, steps: seq<Step>, i: nat, k: Id)
    requires i <= |steps| <= |states|
  {
    exists j :: 0 <= j < i && LandsInGap(states[j], steps[j], k)
  }

  lemma LandedStep(states: seq<Sys>, steps: seq<Step>, i: nat, k: Id)
    requires i < |steps| <= |states|
    ensures LandedBefore(states, steps, i + 1, k) <==>
            LandedBefore(states, steps, i, k) || LandsInGap(states[i], steps[i], k)
  {
  }

  lemma GapAfterStep(history: nat, states: seq<Sys>, steps: seq<Step>, i: nat, k: Id)
    requires IsRun(history, states, steps) && i < |steps|
    ensures Gapped(states[i + 1], k) <==> Gapped(states[i], k) || LandsInGap(states[i], steps[i], k)
  {
    RunKeepsInv(history, states, steps, i);
    GapStep(states[i], steps[i], k);
  }

  lemma GapMeaningNext(history: nat, states: seq<Sys>, steps: seq<Step>, i: nat, k: Id)
    requires IsRun(history, states, steps) && i < |steps|
    requires Gapped(states[i], k) <==> LandedBefore(states, steps, i, k)
    ensures Gapped(states[i + 1], k) <==> LandedBefore(states, steps, i + 1, k)
  {
    LandedStep(states, steps, i, k);
    GapAfterStep(history, states, steps, i, k);
  }

  lemma {:induction false} GapMeaning(history: nat, states: seq<Sys>, steps: seq<Step>, i: nat, k: Id)
    requires IsRun(history, states, steps) && i <= |steps|
    ensures Gapped(states[i], k) <==> LandedBefore(states, steps, i, k)
  {
    if i > 0 {
      GapMeaning(history, states, steps, i - 1, k);
      GapMeaningNext(history, states, steps, i - 1, k);
    }
  }

  lemma {:induction false} TasksStayThroughout(
    history: nat, states: seq<Sys>, steps: seq<Step>, i: nat, j: nat, k: Id)
    requires IsRun(history, states, steps) && i <= j < |states| && k in states[i].tasks
    ensures k in states[j].tasks
    decreases j
  {
    if i < j {
      TasksStayThroughout(history, states, steps, i, j - 1, k);
      TasksStay(states[j - 1], steps[j - 1]);
    }
  }

  /** Over every interleaving: each change of a retained entry is in the table, except exactly when the
      step is a `_finish` and an earlier cancel was recorded between that worker's look for a
      cancellation and its move to RUNNING. */
  lemma RunObeysTable(history: nat, states: seq<Sys>, steps: seq<Step>, i: nat, k: Id)
    requires IsRun(history, states, steps) && i < |steps|
    requires k in states[i].table.entries && k in states[i + 1].table.entries
    ensures TransitionsTo(states[i].table.entries[k].state, states[i + 1].table.entries[k].state)
       <==> !(steps[i] == Finish(k) && LandedBefore(states, steps, i, k))
  {
    RunKeepsInv(history, states, steps, i);
    StepObeysTable(states[i], steps[i], k);
    GapMeaning(history, states, steps, i, k);
  }

  /** A key that has left the table, or is not yet in it and not to be submitted again, stays out. */
  lemma LeavingIsFinal(s: Sys, step: Step, k: Id)
    requires Enabled(s, step) && k in s.tasks && k !in s.table.entries
    ensures k !in Apply(s, step).table.entries
  {
  }

  lemma KeptIsKnown(history: nat, states: seq<Sys>, steps: seq<Step>, i: nat, k: Id)
    requires IsRun(history, states, steps) && i < |states| && k in states[i].table.entries
    ensures k in states[i].tasks
  {
    RunKeepsInv(history, states, steps, i);
  }

  /** A key that is kept after a step, and was submitted before it, was kept before it. */
  lemma KeptWasKept(history: nat, states: seq<Sys>, steps: seq<Step>, i: nat, k: Id)
    requires IsRun(history, states, steps) && i < |steps|
    requires k in states[i].tasks && k in states[i + 1].table.entries
    ensures k in states[i].table.entries
  {
    RunKeepsInv(history, states, steps, i);
    if k !in states[i].table.entries {
      LeavingIsFinal(states[i], steps[i], k);
    }
  }

  lemma KeptThroughout(history: nat, states: seq<Sys>, steps: seq<Step>, i: nat, j: nat, k: Id)
    requires IsRun(history, states, steps) && i < j < |states|
    requires k in states[i].table.entries && k in states[j].table.entries
    ensures k in states[j - 1].table.entries
  {
    KeptIsKnown(history, states, steps, i, k);
    TasksStayThroughout(history, states, steps, i, j - 1, k);
    KeptWasKept(history, states, steps, j - 1, k);
  }

  /** A canceller that took down the future of this task records it. */
  ghost predicate RecordsStop(s: Sys, step: Step, k: Id) {
    && step.CancelCommit? && Enabled(s, step)
    && s.cancellers[step.c] == Canceller(k, Tried(true))
  }

  predicate DownedTask(t: Table<Entry>, task: Task, k: Id) {
    task.future == Dropped && k in t.entries && t.entries[k].state == Cancelled
  }

  predicate Downed(s: Sys, k: Id) {
    k in s.tasks && DownedTask(s.table, s.tasks[k], k)
  }

  /** The entry of a task that a run has seen is kept, or the task has not been submitted yet. */
  predicate KeptOrUnknown(s: Sys, k: Id) {
    k in s.table.entries || k !in s.tasks
  }

  /** With the future down, no worker writes the entry, and no worker takes the future down. */
  lemma MoveKeepsDowned(t: Table<Entry>, task: Task, step: Step)
    requires OnTask(step) && CanMove(task, step) && TaskOk(task)
    ensures DownedTask(Written(t, task, step), Move(t, task, step), step.k) <==> DownedTask(t, task, step.k)
  {
  }

  lemma OnTaskKeepsDowned(s: Sys, step: Step, k: Id)
    requires TasksOk(s) && OnTask(step) && Enabled(s, step)
    ensures Downed(Apply(s, step), k) <==> Downed(s, k)
  {
    if step.k == k {
      MoveKeepsDowned(s.table, s.tasks[k], step);
    } else {
      WrittenElsewhere(s.table, s.tasks[step.k], step);
    }
  }

  /** Before a canceller takes the future down, an entry that no worker has picked up is not CANCELLED. */
  lemma TryDownsTask(t: Table<Entry>, task: Task, k: Id)
    requires TaskOk(task) && (k in t.entries ==> EntryOk(task, t.entries[k])) && task.future == Waiting
    ensures !DownedTask(t, task.(future := Dropped), k)
  {
  }

  lemma TryKeepsDowned(s: Sys, step: Step, k: Id)
    requires TasksOk(s) && EntriesOk(s) && step.CancelFuture? && Enabled(s, step)
    ensures Downed(Apply(s, step), k) <==> Downed(s, k)
  {
    if s.cancellers[step.c].key == k && s.tasks[k].future == Waiting {
      TryDownsTask(s.table, s.tasks[k], k);
    }
  }

  lemma CommitDownsTask(t: Table<Entry>, task: Task, k: Id, stopped: bool)
    requires k in t.entries && if stopped then task.future == Dropped else task.future in {Busy, Done}
    ensures DownedTask(CancelCommitBlock(t, k, stopped), Committed(t, task, k, stopped), k)
       <==> DownedTask(t, task, k) || stopped
  {
  }

  lemma CommitDowns(s: Sys, step: Step, k: Id)
    requires CancellersOk(s) && step.CancelCommit? && Enabled(s, step)
    requires KeptOrUnknown(Apply(s, step), k)
    ensures Downed(Apply(s, step), k) <==> Downed(s, k) || RecordsStop(s, step, k)
  {
    var c := s.cancellers[step.c];
    if c.key == k {
      assert CancellerOk(s, c);
      CommitDownsTask(s.table, s.tasks[k], k, c.phase.stopped);
    }
  }

  lemma SubmitKeepsDowned(s: Sys, step: Step, k: Id)
    requires KeysOk(s) && (step.Submit? || step.CancelEnter?) && Enabled(s, step)
    requires KeptOrUnknown(Apply(s, step), k)
    ensures Downed(Apply(s, step), k) <==> Downed(s, k)
  {
  }

  /** An entry with its future down turns CANCELLED exactly when a canceller that took it down says so. */
  lemma DownedStep(s: Sys, step: Step, k: Id)
    requires Inv(s) && Enabled(s, step)
    requires KeptOrUnknown(Apply(s, step), k)
    ensures Downed(Apply(s, step), k) <==> Downed(s, k) || RecordsStop(s, step, k)
  {
    if OnTask(step) {
      OnTaskKeepsDowned(s, step, k);
    } else if step.CancelFuture? {
      TryKeepsDowned(s, step, k);
    } else if step.CancelCommit? {
      CommitDowns(s, step, k);
    } else {
      SubmitKeepsDowned(s, step, k);
    }
  }

  /** Some canceller that took the future of this task down recorded it before step `i`. */
  ghost predicate StopRecordedBefore(states: seq<Sys>, steps: seq<Step>, i: nat, k: Id)
    requires i <= |steps| <= |states|
  {
    exists j :: 0 <= j < i && RecordsStop(states[j], steps[j], k)
  }

  lemma StopRecordedStep(states: seq<Sys>, steps: seq<Step>, i: nat, k: Id)
    requires i < |steps| <= |states|
    ensures StopRecordedBefore(states, steps, i + 1, k) <==>
            StopRecordedBefore(states, steps, i, k) || RecordsStop(states[i], steps[i], k)
  {
  }

  lemma KeptOrUnknownBefore(history: nat, states: seq<Sys>, steps: seq<Step>, i: nat, k: Id)
    requires IsRun(history, states, steps) && i < |steps| && KeptOrUnknown(states[i + 1], k)
    ensures KeptOrUnknown(states[i], k)
  {
    if k in states[i].tasks {
      TasksStay(states[i], steps[i]);
      KeptWasKept(history, states, steps, i, k);
    }
  }

  lemma DownedMeaningNext(history: nat, states: seq<Sys>, steps: seq<Step>, i: nat, k: Id)
    requires IsRun(history, states, steps) && i < |steps| && KeptOrUnknown(states[i + 1], k)
    requires Downed(states[i], k) <==> StopRecordedBefore(states, steps, i, k)
    ensures Downed(states[i + 1], k) <==> StopRecordedBefore(states, steps, i + 1, k)
  {
    StopRecordedStep(states, steps, i, k);
    RunKeepsInv(history, states, steps, i);
    DownedStep(states[i], steps[i], k);
  }

  lemma {:induction false} DownedMeaning(history: nat, states: seq<Sys>, steps: seq<Step>, i: nat, k: Id)
    requires IsRun(history, states, steps) && i <= |steps| && KeptOrUnknown(states[i], k)
    ensures Downed(states[i], k) <==> StopRecordedBefore(states, steps, i, k)
  {
    if i > 0 {
      KeptOrUnknownBefore(history, states, steps, i - 1, k);
      DownedMeaning(history, states, steps, i - 1, k);
      DownedMeaningNext(history, states, steps, i - 1, k);
    }
  }

  /** Over every interleaving: once the future of a kept entry is over, so that a wait on it returns, the
      entry is terminal, except exactly while the future is down and no canceller that took it down has
      recorded that yet. A terminal entry then says what `_finish` recorded, and `result` answers it, or
      the placeholder exactly for a cancelled entry. */
  lemma NoStuckExecution(history: nat, states: seq<Sys>, steps: seq<Step>, i: nat, k: Id)
    requires IsRun(history, states, steps) && i < |states|
    requires k in states[i].table.entries && k in states[i].tasks && states[i].tasks[k].future.IsOver()
    ensures var s, e := states[i], states[i].table.entries[k];
            && (!e.state.IsTerminal() <==> s.tasks[k].future == Dropped && !StopRecordedBefore(states, steps, i, k))
            && (!e.state.IsTerminal() ==> e.state == Queued && Stopper(s, k))
            && (e.state == Cancelled <==> e.state.IsTerminal() && s.tasks[k].finished.None?)
            && (s.tasks[k].finished.Some? ==> e.state == StateOf(s.tasks[k].finished.value))
            && (e.state.IsTerminal() ==>
                  ResultBlock(s.table, k) == Some(match s.tasks[k].finished
                                                  case Some(o) => ResultOf(o)
                                                  case None => CANCELLED_RESULT))
  {
    RunKeepsInv(history, states, steps, i);
    OverIsSettledOrStopping(states[i], k);
    DownedMeaning(history, states, steps, i, k);
    if states[i].tasks[k].future == Dropped {
      DroppedIsIdle(states[i], k);
    }
  }

  lemma RecordedStays(history: nat, states: seq<Sys>, steps: seq<Step>, i: nat, k: Id)
    requires IsRun(history, states, steps) && i < |steps|
    requires k in states[i].table.entries && k in states[i + 1].table.entries
    requires states[i].table.entries[k].state in {Succeeded, Failed}
    ensures states[i + 1].table.entries[k] == states[i].table.entries[k]
  {
    RunKeepsInv(history, states, steps, i);
    StepObeysTable(states[i], steps[i], k);
  }

  /** SUCCEEDED and FAILED are absorbing, result and attempt included, for as long as the entry is kept. */
  lemma {:induction false} RecordedIsFinal(history: nat, states: seq<Sys>, steps: seq<Step>, i: nat, j: nat, k: Id)
    requires IsRun(history, states, steps) && i <= j < |states|
    requires k in states[i].table.entries && states[i].table.entries[k].state in {Succeeded, Failed}
    ensures k in states[j].table.entries ==> states[j].table.entries[k] == states[i].table.entries[k]
    decreases j
  {
    if i < j && k in states[j].table.entries {
      KeptThroughout(history, states, steps, i, j, k);
      RecordedIsFinal(history, states, steps, i, j - 1, k);
      RecordedStays(history, states, steps, j - 1, k);
    }
  }

  /** Cancelled or evicted before the worker has looked, or already turned away: not called so far,
      and never to be called. */
  ghost predicate DoomedTask(t: Table<Entry>, task: Task, k: Id) {
    && task.outcomes == []
    && (task.worker in {Returning, Exited} || (task.worker.BeforeCheck() && IsCancelledBlock(t, k)))
  }

  ghost predicate Doomed(s: Sys, k: Id) {
    k in s.tasks && DoomedTask(s.table, s.tasks[k], k)
  }

  lemma MoveKeepsDoomed(t: Table<Entry>, task: Task, step: Step)
    requires OnTask(step) && CanMove(task, step) && TaskOk(task) && DoomedTask(t, task, step.k)
    ensures DoomedTask(Written(t, task, step), Move(t, task, step), step.k)
  {
  }

  lemma OnTaskKeepsDoomed(s: Sys, step: Step, k: Id)
    requires OnTask(step) && Enabled(s, step) && TasksOk(s) && Doomed(s, k)
    ensures Doomed(Apply(s, step), k)
  {
    WrittenElsewhere(s.table, s.tasks[step.k], step);
    if step.k == k {
      assert TaskOk(s.tasks[k]);
      MoveKeepsDoomed(s.table, s.tasks[k], step);
    }
  }

  lemma DoomedStays(s: Sys, step: Step, k: Id)
    requires KeysOk(s) && TasksOk(s) && Enabled(s, step) && Doomed(s, k)
    ensures Doomed(Apply(s, step), k)
  {
    if OnTask(step) {
      OnTaskKeepsDoomed(s, step, k);
    } else if step.Submit? {
      RegisteredKeys(s.table, step.k, FRESH, s.history);
    }
  }

  /** A cancel recorded before the worker's look means that the function is never called. */
  lemma {:induction false} CancelledIsNeverCalled(
    history: nat, states: seq<Sys>, steps: seq<Step>, i: nat, j: nat, k: Id)
    requires IsRun(history, states, steps) && i <= j < |states|
    requires k in states[i].table.entries && states[i].table.entries[k].state == Cancelled
    requires k in states[i].tasks && states[i].tasks[k].worker.BeforeCheck()
    ensures k in states[j].tasks && states[j].tasks[k].outcomes == []
    ensures Doomed(states[j], k)
    decreases j
  {
    if i == j {
      RunKeepsInv(history, states, steps, i);
      assert TaskOk(states[i].tasks[k]);
    } else {
      CancelledIsNeverCalled(history, states, steps, i, j - 1, k);
      RunKeepsInv(history, states, steps, j - 1);
      DoomedStays(states[j - 1], steps[j - 1], k);
    }
  }

  lemma {:induction false} HistoryIsFixed(history: nat, states: seq<Sys>, steps: seq<Step>, i: nat)
    requires IsRun(history, states, steps) && i < |states|
    ensures states[i].history == history
  {
    if i > 0 {
      HistoryIsFixed(history, states, steps, i - 1);
      assert states[i] == Apply(states[i - 1], steps[i - 1]);
    }
  }

  /** Evicted before its worker has read it back, or already turned away. */
  ghost predicate Barred(s: Sys, k: Id) {
    || Doomed(s, k)
    || (k in s.tasks && k !in s.table.entries && s.tasks[k].outcomes == [] && s.tasks[k].worker in {Checked, Marked})
  }

  lemma MoveKeepsBarred(t: Table<Entry>, task: Task, step: Step)
    requires OnTask(step) && CanMove(task, step) && TaskOk(task)
    requires step.k !in t.entries && task.outcomes == [] && task.worker in {Checked, Marked}
    ensures Move(t, task, step).outcomes == [] && Move(t, task, step).worker in {Checked, Marked, Returning}
  {
  }

  lemma BarredStays(s: Sys, step: Step, k: Id)
    requires KeysOk(s) && TasksOk(s) && Enabled(s, step) && Barred(s, k)
    ensures Barred(Apply(s, step), k)
  {
    if Doomed(s, k) {
      DoomedStays(s, step, k);
    } else {
      LeavingIsFinal(s, step, k);
      if OnTask(step) && step.k == k {
        MoveKeepsBarred(s.table, s.tasks[k], step);
      }
    }
  }

  lemma EvictedIsBarred(s: Sys, k: Id)
    requires TasksOk(s) && k in s.tasks && k !in s.table.entries
    requires s.tasks[k].worker.BeforeCheck() || s.tasks[k].worker in {Checked, Marked}
    ensures Barred(s, k)
  {
    assert TaskOk(s.tasks[k]);
  }

  lemma BarredNext(history: nat, states: seq<Sys>, steps: seq<Step>, i: nat, k: Id)
    requires IsRun(history, states, steps) && i < |steps| && Barred(states[i], k)
    ensures Barred(states[i + 1], k)
  {
    RunKeepsInv(history, states, steps, i);
    BarredStays(states[i], steps[i], k);
  }

  lemma {:induction false} BarredThroughout(
    history: nat, states: seq<Sys>, steps: seq<Step>, i: nat, j: nat, k: Id)
    requires IsRun(history, states, steps) && i <= j < |states| && Barred(states[i], k)
    ensures Barred(states[j], k)
    decreases j
  {
    if i < j {
      BarredThroughout(history, states, steps, i, j - 1, k);
      BarredNext(history, states, steps, j - 1, k);
    }
  }

  /** A task whose entry is evicted before its worker has read it back is never called. */
  lemma EvictedIsNeverCalled(history: nat, states: seq<Sys>, steps: seq<Step>, i: nat, j: nat, k: Id)
    requires IsRun(history, states, steps) && i <= j < |states|
    requires k in states[i].tasks && k !in states[i].table.entries
    requires states[i].tasks[k].worker.BeforeCheck() || states[i].tasks[k].worker in {Checked, Marked}
    ensures k in states[j].tasks && states[j].tasks[k].outcomes == []
  {
    RunKeepsInv(history, states, steps, i);
    EvictedIsBarred(states[i], k);
    BarredThroughout(history, states, steps, i, j, k);
  }

  /** After any run the order lists the last `history` submissions, oldest first; the table holds
      those, or everything ever submitted when the history is zero. */
  lemma HistoryRing(history: nat, states: seq<Sys>, steps: seq<Step>, i: nat)
    requires IsRun(history, states, steps) && i < |states|
    ensures var s := states[i];
            && s.table.order == Kept(s.submitted, history)
            && s.table.entries.Keys == Elements(if history == 0 then s.submitted else s.table.order)
            && (|s.table.entries| <= history <==> history >= 1 || s.submitted == [])
  {
    RunKeepsInv(history, states, steps, i);
    HistoryIsFixed(history, states, steps, i);
    RingSize(states[i].table, states[i].submitted, history);
  }

  ghost predicate Reachable(history: nat, s: Sys) {
    exists states: seq<Sys>, steps: seq<Step> :: IsRun(history, states, steps) && states[|steps|] == s
  }

  lemma InitIsReachable(history: nat)
    ensures Reachable(history, Init(history))
  {
    assert IsRun(history, [Init(history)], []);
  }

  lemma StepIsReachable(history: nat, s: Sys, step: Step)
    requires Reachable(history, s) && Enabled(s, step)
    ensures Reachable(history, Apply(s, step))
  {
    var states: seq<Sys>, steps: seq<Step> :| IsRun(history, states, steps) && states[|steps|] == s;
    assert IsRun(history, states + [Apply(s, step)], steps + [step]);
  }

  /** A task alone in a table of one: registered, launched, returned and picked up to the check. */
  function Alone(k: Id, state: State, task: Task, cancellers: map<nat, Canceller>): Sys {
    Sys(1, Table(map[k := FRESH.(state := state)], [k]), [k], map[k := task], cancellers)
  }

  lemma ReachReturned(k: Id, p: Policy)
    ensures Reachable(1, Alone(k, Queued, Task(p, Waiting, true, Idle, [], None, false), map[]))
  {
    InitIsReachable(1);
    StepIsReachable(1, Init(1), Submit(k, p));
    var s1 := Alone(k, Queued, Task(p, Unset, false, Idle, [], None, false), map[]);
    assert Apply(Init(1), Submit(k, p)) == s1;
    StepIsReachable(1, s1, Launch(k));
    var s2 := Alone(k, Queued, Task(p, Waiting, false, Idle, [], None, false), map[]);
    assert Apply(s1, Launch(k)) == s2;
    StepIsReachable(1, s2, Return(k));
    assert Apply(s2, Return(k)) == Alone(k, Queued, Task(p, Waiting, true, Idle, [], None, false), map[]);
  }

  lemma ReachChecked(k: Id, p: Policy)
    ensures Reachable(1, Alone(k, Queued, Task(p, Busy, true, Checked, [], None, false), map[]))
  {
    ReachReturned(k, p);
    var s3 := Alone(k, Queued, Task(p, Waiting, true, Idle, [], None, false), map[]);
    StepIsReachable(1, s3, Dispatch(k));
    var s4 := Alone(k, Queued, Task(p, Busy, true, Dispatched, [], None, false), map[]);
    assert Apply(s3, Dispatch(k)) == s4;
    StepIsReachable(1, s4, Fetch(k));
    var s5 := Alone(k, Queued, Task(p, Busy, true, Fetched, [], None, false), map[]);
    assert Apply(s4, Fetch(k)) == s5;
    StepIsReachable(1, s5, Check(k));
    assert Apply(s5, Check(k)) == Alone(k, Queued, Task(p, Busy, true, Checked, [], None, false), map[]);
  }

  lemma ReachRefused(k: Id, p: Policy)
    ensures Reachable(
              1, Alone(k, Queued, Task(p, Busy, true, Checked, [], None, false), map[0 := Canceller(k, Tried(false))]))
  {
    ReachChecked(k, p);
    var s6 := Alone(k, Queued, Task(p, Busy, true, Checked, [], None, false), map[]);
    StepIsReachable(1, s6, CancelEnter(0, k));
    var s7 := s6.(cancellers := map[0 := Canceller(k, Entered)]);
    assert Apply(s6, CancelEnter(0, k)) == s7;
    StepIsReachable(1, s7, CancelFuture(0));
    assert Apply(s7, CancelFuture(0)) == s6.(cancellers := map[0 := Canceller(k, Tried(false))]);
  }

  lemma ReachCancelledInGap(k: Id, p: Policy)
    ensures Reachable(
              1, Alone(k, Cancelled, Task(p, Busy, true, Checked, [], None, true), map[0 := Canceller(k, Over)]))
  {
    ReachRefused(k, p);
    var s8 := Alone(k, Queued, Task(p, Busy, true, Checked, [], None, false), map[0 := Canceller(k, Tried(false))]);
    StepIsReachable(1, s8, CancelCommit(0));
    assert Apply(s8, CancelCommit(0)) ==
           Alone(k, Cancelled, Task(p, Busy, true, Checked, [], None, true), map[0 := Canceller(k, Over)]);
  }

  lemma ReachCallingAfterGap(k: Id, p: Policy)
    ensures Reachable(
              1, Alone(k, Cancelled, Task(p, Busy, true, Calling(1), [], None, true), map[0 := Canceller(k, Over)]))
  {
    ReachCancelledInGap(k, p);
    var over := map[0 := Canceller(k, Over)];
    var s9 := Alone(k, Cancelled, Task(p, Busy, true, Checked, [], None, true), over);
    StepIsReachable(1, s9, Mark(k));
    var s10 := Alone(k, Cancelled, Task(p, Busy, true, Marked, [], None, true), over);
    assert Apply(s9, Mark(k)) == s10;
    StepIsReachable(1, s10, ReadRunning(k));
    assert Apply(s10, ReadRunning(k)) ==
           Alone(k, Cancelled, Task(p, Busy, true, Calling(1), [], None, true), over);
  }

  /** The exception is real: a cancel lands in the gap, and CANCELLED turns into SUCCEEDED. */
  lemma GapOverwritesCancel(k: Id, p: Policy, value: string)
    ensures exists s: Sys :: Reachable(1, s) && Enabled(s, Finish(k))
                             && k in s.table.entries && s.table.entries[k].state == Cancelled
                             && Apply(s, Finish(k)).table.entries[k].state == Succeeded
  {
    ReachCallingAfterGap(k, p);
    var over, o := map[0 := Canceller(k, Over)], Returned(value);
    var s11 := Alone(k, Cancelled, Task(p, Busy, true, Calling(1), [], None, true), over);
    StepIsReachable(1, s11, CallFunction(k, o));
    var s12 := Alone(k, Cancelled, Task(p, Busy, true, Finishing(o, 1), [o], None, true), over);
    assert [] + [o] == [o];
    assert Apply(s11, CallFunction(k, o)) == s12;
    assert Enabled(s12, Finish(k));
  }

  lemma ReachStopping(k: Id, p: Policy)
    ensures Reachable(
              1, Alone(k, Queued, Task(p, Dropped, true, Idle, [], None, false), map[0 := Canceller(k, Tried(true))]))
  {
    ReachReturned(k, p);
    var s3 := Alone(k, Queued, Task(p, Waiting, true, Idle, [], None, false), map[]);
    StepIsReachable(1, s3, CancelEnter(0, k));
    var s4 := s3.(cancellers := map[0 := Canceller(k, Entered)]);
    assert Apply(s3, CancelEnter(0, k)) == s4;
    StepIsReachable(1, s4, CancelFuture(0));
    assert Apply(s4, CancelFuture(0)) ==
           Alone(k, Queued, Task(p, Dropped, true, Idle, [], None, false), map[0 := Canceller(k, Tried(true))]);
  }

  /** So is the one state in which a wait can end early: the future is down, the entry still QUEUED. */
  lemma WaitCanSeeQueued(k: Id, p: Policy)
    ensures exists s: Sys :: Reachable(1, s) && k in s.tasks && s.tasks[k].future.IsOver()
                             && k in s.table.entries && s.table.entries[k].state == Queued
  {
    ReachStopping(k, p);
    var s5 := Alone(k, Queued, Task(p, Dropped, true, Idle, [], None, false), map[0 := Canceller(k, Tried(true))]);
    assert k in s5.tasks;
  }

  lemma ReachFirstCall(k: Id, p: Policy)
    ensures Reachable(1, Alone(k, Running, Task(p, Busy, true, Calling(1), [], None, false), map[]))
  {
    ReachChecked(k, p);
    var s6 := Alone(k, Queued, Task(p, Busy, true, Checked, [], None, false), map[]);
    StepIsReachable(1, s6, Mark(k));
    var s7 := Alone(k, Running, Task(p, Busy, true, Marked, [], None, false), map[]);
    assert Apply(s6, Mark(k)) == s7;
    StepIsReachable(1, s7, ReadRunning(k));
    assert Apply(s7, ReadRunning(k)) == Alone(k, Running, Task(p, Busy, true, Calling(1), [], None, false), map[]);
  }

  /** What the first `n` calls do. */
  function FirstOutcomes(script: Script, n: nat): seq<Outcome> {
    if n == 0 then [] else FirstOutcomes(script, n - 1) + [script(n)]
  }

  lemma {:induction false} ReachCall(k: Id, p: Policy, script: Script, a: nat)
    requires a >= 1 && forall n :: 1 <= n < a ==> Retried(p, script, n)
    ensures Reachable(1, Alone(k, Running, Task(p, Busy, true, Calling(a), FirstOutcomes(script, a - 1), None, false),
                               map[]))
  {
    if a == 1 {
      ReachFirstCall(k, p);
    } else {
      ReachCall(k, p, script, a - 1);
      var o := FirstOutcomes(script, a - 2);
      var s := Alone(k, Running, Task(p, Busy, true, Calling(a - 1), o, None, false), map[]);
      var step := CallFunction(k, script(a - 1));
      StepIsReachable(1, s, step);
      assert Retried(p, script, a - 1);
      assert Apply(s, step) ==
             Alone(k, Running, Task(p, Busy, true, Calling(a), o + [script(a - 1)], None, false), map[]);
    }
  }

  /** From the moment a worker has something to record, to the end of its future. */
  lemma ReachRecorded(k: Id, p: Policy, outcomes: seq<Outcome>, o: Outcome, a: nat)
    requires Reachable(1, Alone(k, Running, Task(p, Busy, true, Finishing(o, a), outcomes, None, false), map[]))
    ensures exists s: Sys :: Reachable(1, s) && k in s.tasks && s.tasks[k].future == Done
                             && s.tasks[k].outcomes == outcomes && k in s.table.entries
                             && s.table.entries[k] == Entry(StateOf(o), a, Some(ResultOf(o)))
  {
    var s1 := Alone(k, Running, Task(p, Busy, true, Finishing(o, a), outcomes, None, false), map[]);
    StepIsReachable(1, s1, Finish(k));
    var table := Table(map[k := Entry(StateOf(o), a, Some(ResultOf(o)))], [k]);
    var s2 := s1.(table := table, tasks := map[k := Task(p, Busy, true, Returning, outcomes, Some(o), false)]);
    assert Apply(s1, Finish(k)) == s2;
    StepIsReachable(1, s2, Complete(k));
    var s3 := s2.(tasks := map[k := Task(p, Done, true, Exited, outcomes, Some(o), false)]);
    assert Apply(s2, Complete(k)) == s3;
    assert k in s3.tasks;
  }

  /** Left alone, a task runs to its end: for every policy and script there is an interleaving that makes all the
      calls of the supervised run and records what the last one did. */
  lemma UndisturbedRun(k: Id, p: Policy, script: Script)
    ensures var r := Run(p, script);
            exists s: Sys :: Reachable(1, s) && k in s.tasks && s.tasks[k].future == Done
                             && s.tasks[k].outcomes == FirstOutcomes(script, r.attempts) && k in s.table.entries
                             && s.table.entries[k] == Entry(StateOf(r.outcome), r.attempts, Some(ResultOf(r.outcome)))
  {
    var r := Run(p, script);
    RunFromDescribed(p, script, 1);
    var a := r.attempts;
    ReachCall(k, p, script, a);
    var o := FirstOutcomes(script, a - 1);
    var s := Alone(k, Running, Task(p, Busy, true, Calling(a), o, None, false), map[]);
    var step := CallFunction(k, script(a));
    StepIsReachable(1, s, step);
    assert !Retried(p, script, a);
    assert Apply(s, step) ==
           Alone(k, Running, Task(p, Busy, true, Finishing(script(a), a), o + [script(a)], None, false), map[]);
    ReachRecorded(k, p, o + [script(a)], script(a), a);
  }

  /** And a name that does not resolve is recorded as a failure of the first attempt, without a call. */
  lemma UnresolvedRun(k: Id, p: Policy, exn: Exn)
    ensures exists s: Sys :: Reachable(1, s) && k in s.tasks && s.tasks[k].future == Done
                             && s.tasks[k].outcomes == [] && k in s.table.entries
                             && s.table.entries[k] == Entry(Failed, 1, Some(ResultOf(Raised(exn))))
  {
    ReachFirstCall(k, p);
    var s := Alone(k, Running, Task(p, Busy, true, Calling(1), [], None, false), map[]);
    StepIsReachable(1, s, ResolveFails(k, exn));
    assert Apply(s, ResolveFails(k, exn)) ==
           Alone(k, Running, Task(p, Busy, true, Finishing(Raised(exn), 1), [], None, false), map[]);
    ReachRecorded(k, p, [], Raised(exn), 1);
  }

  /** A task that is cancelled before any worker picks it up ends as CANCELLED. */
  lemma CancelledRun(k: Id, p: Policy)
    ensures exists s: Sys :: Reachable(1, s) && k in s.tasks && s.tasks[k].future == Dropped
                             && s.tasks[k].outcomes == [] && k in s.table.entries
                             && s.table.entries[k] == Entry(Cancelled, 1, None)
  {
    ReachStopping(k, p);
    var s5 := Alone(k, Queued, Task(p, Dropped, true, Idle, [], None, false), map[0 := Canceller(k, Tried(true))]);
    StepIsReachable(1, s5, CancelCommit(0));
    var s6 := Alone(k, Cancelled, Task(p, Dropped, true, Idle, [], None, false), map[0 := Canceller(k, Over)]);
    assert Apply(s5, CancelCommit(0)) == s6;
    assert k in s6.tasks;
  }
}
