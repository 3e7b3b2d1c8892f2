/** All interleavings of submitters, the pool, observers and cancellers over the process backend's
    table. A cancel may name any id, and an observer may hold an entry that has been evicted. */
module ProcessRuns {
  import opened Executions
  import opened History
  import opened ProcessBackend

  datatype Future = Unset | Waiting | Busy | Dropped | Done(outcome: Outcome) {
    predicate IsOver() {
      Dropped? || Done?
    }

    predicate Started() {
      Busy? || Done?
    }

    function Settlement(): Settlement
      requires IsOver()
    {
      if Dropped? then None else Some(outcome)
    }
  }

  /** One task: its future, whether the entry holds it, whether the callback is attached, and
      whether the callback has run. */
  datatype Task = Task(future: Future, held: bool, attached: bool, settled: bool)

  datatype Phase = Looked | SawRunning | ReadOpen | TookDown | Over

  datatype Client = Client(key: Id, phase: Phase)

  datatype Sys = Sys(
    history: nat, table: Table<Entry>, submitted: seq<Id>, tasks: map<Id, Task>, clients: map<nat, Client>)

  datatype Step =
    | Submit(k: Id)
    | Launch(k: Id)
    | Assign(k: Id)
    | Attach(k: Id)
    | Start(k: Id)
    | Report(k: Id, outcome: Outcome)
    | PoolBreaks(k: Id, exn: Exn)
    | Settle(k: Id)
    | LookUp(c: nat, k: Id)
    | SeeRunning(c: nat)
    | MarkRunning(c: nat)
    | ReadTerminal(c: nat)
    | CancelFuture(c: nat)
    | CancelCommit(c: nat)

  function Init(history: nat): Sys {
    Sys(history, Table(map[], []), [], map[], map[])
  }

  predicate OnTask(step: Step) {
    step.Launch? || step.Assign? || step.Attach? || step.Start? || step.Report? || step.PoolBreaks? || step.Settle?
  }

  predicate CanMove(t: Task, step: Step)
    requires OnTask(step)
  {
    match step
    case Launch(_) => t.future.Unset?
    case Assign(_) => !t.future.Unset?
    case Attach(_) => t.held
    case Start(_) => t.future.Waiting?
    case Report(_, _) => t.future.Busy?
    case PoolBreaks(_, _) => t.future.Waiting? || t.future.Busy?
    // Run by whichever thread finishes the future, or at once if it is over when attached.
    case Settle(_) => t.attached && t.future.IsOver() && !t.settled
  }

  predicate OnClient(step: Step) {
    step.SeeRunning? || step.MarkRunning? || step.ReadTerminal? || step.CancelFuture? || step.CancelCommit?
  }

  predicate Due(phase: Phase, step: Step)
    requires OnClient(step)
  {
    match step
    case SeeRunning(_) => phase == Looked
    case MarkRunning(_) => phase == SawRunning
    case ReadTerminal(_) => phase == Looked
    case CancelFuture(_) => phase == ReadOpen
    case CancelCommit(_) => phase == TookDown
  }

  predicate Enabled(s: Sys, step: Step) {
    if OnTask(step) then step.k in s.tasks && CanMove(s.tasks[step.k], step)
    else if OnClient(step) then
      step.c in s.clients && s.clients[step.c].key in s.tasks && Due(s.clients[step.c].phase, step)
    else match step
      case Submit(k) => k !in s.tasks
      case LookUp(c, _) => c !in s.clients
      case _ => false
  }

  function Move(t: Task, step: Step): Task
    requires OnTask(step) && CanMove(t, step)
  {
    match step
    case Launch(_) => t.(future := Waiting)
    case Assign(_) => t.(held := true)
    case Attach(_) => t.(attached := true)
    case Start(_) => t.(future := Busy)
    case Report(_, o) => t.(future := Done(o))
    case PoolBreaks(_, exn) => t.(future := Done(Raised(exn)))
    case Settle(_) => t.(settled := true)
  }

  function Written(tbl: Table<Entry>, t: Task, step: Step): Table<Entry>
    requires OnTask(step) && CanMove(t, step)
  {
    if step.Settle? then SettleBlock(tbl, step.k, t.future.Settlement()) else tbl
  }

  /** Where an observer or a canceller goes next. An evicted entry's own state is not in the table;
      reading it may go either way, and going on is the case that can still do something. */
  function Turn(tbl: Table<Entry>, t: Task, k: Id, step: Step): Phase
    requires OnClient(step)
  {
    match step
    case SeeRunning(_) => if t.held && t.future.Busy? then SawRunning else Over
    case MarkRunning(_) => Over
    case ReadTerminal(_) => if k in tbl.entries && tbl.entries[k].state.IsTerminal() then Over else ReadOpen
    case CancelFuture(_) => if t.held && (t.future.Waiting? || t.future.Dropped?) then TookDown else Over
    case CancelCommit(_) => Over
  }

  function TakenDown(t: Task, step: Step): Task {
    if step.CancelFuture? && t.held && t.future.Waiting? then t.(future := Dropped) else t
  }

  function ClientTable(tbl: Table<Entry>, k: Id, step: Step): Table<Entry> {
    match step
    case MarkRunning(_) => MarkRunningBlock(tbl, k)
    case CancelCommit(_) => SetStateBlock(tbl, k, Cancelled)
    case _ => tbl
  }

  function Apply(s: Sys, step: Step): Sys
    requires Enabled(s, step)
  {
    if OnTask(step) then
      s.(table := Written(s.table, s.tasks[step.k], step),
         tasks := s.tasks[step.k := Move(s.tasks[step.k], step)])
    else if OnClient(step) then
      var k := s.clients[step.c].key;
      s.(table := ClientTable(s.table, k, step),
         tasks := s.tasks[k := TakenDown(s.tasks[k], step)],
         clients := s.clients[step.c := Client(k, Turn(s.table, s.tasks[k], k, step))])
    else match step
      case Submit(k) =>
        s.(table := Register(s.table, k, FRESH, s.history),
           submitted := s.submitted + [k],
           tasks := s.tasks[k := Task(Unset, false, false, false)])
      case LookUp(c, k) =>
        s.(clients := s.clients[c := Client(k, if k in s.table.entries then Looked else Over)])
  }

  ghost predicate TaskOk(t: Task) {
    && (t.held ==> !t.future.Unset?)
    && (t.settled ==> t.attached && t.future.IsOver())
  }

  ghost predicate EntryOk(t: Task, e: Entry) {
    if t.settled then
      match t.future
      case Dropped => e == Entry(Cancelled, None)
      case Done(o) => e == Entry(StateOf(o), Some(ResultOf(o)))
      case _ => false
    else
      && e.result == None
      && match e.state
         case Queued => true
         case Running => t.future.Started()
         case Cancelled => t.future.Dropped?
         case _ => false
  }

  ghost predicate ClientOk(t: Task, c: Client) {
    && (c.phase == SawRunning ==> t.future.Started())
    && (c.phase == TookDown ==> t.future.Dropped?)
  }

  ghost predicate KeysOk(s: Sys) {
    && IsRing(s.table, s.submitted, s.history)
    && s.tasks.Keys == Elements(s.submitted)
    && s.table.entries.Keys <= s.tasks.Keys
    && forall c :: c in s.clients && s.clients[c].phase != Over ==> s.clients[c].key in s.tasks
  }

  ghost predicate TasksOk(s: Sys) {
    forall k :: k in s.tasks ==> TaskOk(s.tasks[k])
  }

  ghost predicate EntriesOk(s: Sys) {
    forall k :: k in s.table.entries && k in s.tasks ==>
                    TaskOk(s.tasks[k]) && EntryOk(s.tasks[k], s.table.entries[k])
  }

  ghost predicate ClientsOk(s: Sys) {
    forall c :: c in s.clients && s.clients[c].key in s.tasks ==> ClientOk(s.tasks[s.clients[c].key], s.clients[c])
  }

  ghost predicate Inv(s: Sys) {
    KeysOk(s) && TasksOk(s) && EntriesOk(s) && ClientsOk(s)
  }

  lemma MoveKeepsTaskOk(t: Task, step: Step)
    requires OnTask(step) && CanMove(t, step) && TaskOk(t)
    ensures TaskOk(Move(t, step))
    ensures t.future.Started() ==> Move(t, step).future.Started()
    ensures t.future.Dropped? ==> Move(t, step).future.Dropped?
  {
  }

  lemma MoveKeepsEntryOk(tbl: Table<Entry>, t: Task, step: Step)
    requires OnTask(step) && CanMove(t, step) && TaskOk(t)
    requires step.k in tbl.entries && EntryOk(t, tbl.entries[step.k])
    ensures EntryOk(Move(t, step), Written(tbl, t, step).entries[step.k])
    ensures var before, after := tbl.entries[step.k], Written(tbl, t, step).entries[step.k];
            && TransitionsTo(before.state, after.state)
            && (before.state.IsTerminal() ==> after == before)
  {
  }

  lemma TurnKeepsOk(tbl: Table<Entry>, t: Task, c: Client, step: Step)
    requires OnClient(step) && Due(c.phase, step) && TaskOk(t) && ClientOk(t, c)
    ensures var t' := TakenDown(t, step);
            && TaskOk(t')
            && ClientOk(t', Client(c.key, Turn(tbl, t, c.key, step)))
            && (t.future.Started() ==> t'.future.Started())
            && (t.future.Dropped? ==> t'.future.Dropped?)
  {
  }

  lemma TurnKeepsEntryOk(tbl: Table<Entry>, t: Task, c: Client, step: Step)
    requires OnClient(step) && Due(c.phase, step) && TaskOk(t) && ClientOk(t, c)
    requires c.key in tbl.entries && EntryOk(t, tbl.entries[c.key])
    ensures EntryOk(TakenDown(t, step), ClientTable(tbl, c.key, step).entries[c.key])
    ensures var before, after := tbl.entries[c.key], ClientTable(tbl, c.key, step).entries[c.key];
            && TransitionsTo(before.state, after.state)
            && (before.state.IsTerminal() ==> after == before)
  {
  }

  /** A step that rewrites one task, its entry and one client of it, and nothing else. */
  ghost predicate Rewrites(s: Sys, s': Sys, k: Id) {
    && k in s.tasks && k in s'.tasks
    && s'.history == s.history && s'.submitted == s.submitted
    && s'.tasks == s.tasks[k := s'.tasks[k]]
    && s'.table.order == s.table.order
    && s'.table.entries.Keys == s.table.entries.Keys
    && (forall j :: j in s.table.entries && j != k ==> s'.table.entries[j] == s.table.entries[j])
    && (forall c :: c in s'.clients ==>
          (c in s.clients && s'.clients[c] == s.clients[c])
          || (s'.clients[c].key == k && ClientOk(s'.tasks[k], s'.clients[c])))
  }

  predicate Advances(t: Task, t': Task) {
    (t.future.Started() ==> t'.future.Started()) && (t.future.Dropped? ==> t'.future.Dropped?)
  }

  lemma RewriteKeepsTasks(s: Sys, s': Sys, k: Id)
    requires TasksOk(s) && Rewrites(s, s', k) && TaskOk(s'.tasks[k])
    ensures TasksOk(s')
  {
    forall j | j in s'.tasks
      ensures TaskOk(s'.tasks[j])
    {
      if j != k {
        assert s'.tasks[j] == s.tasks[j];
      }
    }
  }

  lemma RewriteKeepsEntries(s: Sys, s': Sys, k: Id)
    requires EntriesOk(s) && Rewrites(s, s', k) && TaskOk(s'.tasks[k])
    requires k in s'.table.entries ==> EntryOk(s'.tasks[k], s'.table.entries[k])
    ensures EntriesOk(s')
  {
    forall j | j in s'.table.entries && j in s'.tasks
      ensures TaskOk(s'.tasks[j]) && EntryOk(s'.tasks[j], s'.table.entries[j])
    {
      if j != k {
        assert j in s.table.entries && s'.tasks[j] == s.tasks[j];
      }
    }
  }

  lemma RewriteKeepsClients(s: Sys, s': Sys, k: Id)
    requires ClientsOk(s) && Rewrites(s, s', k) && Advances(s.tasks[k], s'.tasks[k])
    ensures ClientsOk(s')
  {
    forall c | c in s'.clients && s'.clients[c].key in s'.tasks
      ensures ClientOk(s'.tasks[s'.clients[c].key], s'.clients[c])
    {
      if c in s.clients && s'.clients[c] == s.clients[c] {
        assert ClientOk(s.tasks[s.clients[c].key], s.clients[c]);
      }
    }
  }

  /** The invariant survives a step on one task if it does so on that task. */
  lemma RewriteKeepsInv(s: Sys, s': Sys, k: Id)
    requires Inv(s) && Rewrites(s, s', k) && Advances(s.tasks[k], s'.tasks[k])
    requires TaskOk(s'.tasks[k])
    requires k in s'.table.entries ==> EntryOk(s'.tasks[k], s'.table.entries[k])
    ensures Inv(s')
  {
    assert s'.tasks.Keys == s.tasks.Keys;
    RewriteKeepsTasks(s, s', k);
    RewriteKeepsEntries(s, s', k);
    RewriteKeepsClients(s, s', k);
  }

  lemma OnTaskRewrites(s: Sys, step: Step)
    requires OnTask(step) && Enabled(s, step)
    ensures Rewrites(s, Apply(s, step), step.k)
  {
  }

  lemma OnTaskKeepsInv(s: Sys, step: Step)
    requires Inv(s) && OnTask(step) && Enabled(s, step)
    ensures Inv(Apply(s, step))
  {
    var k, t := step.k, s.tasks[step.k];
    assert TaskOk(t);
    MoveKeepsTaskOk(t, step);
    assert k in s.table.entries ==> EntryOk(Move(t, step), Written(s.table, t, step).entries[k]) by {
      if k in s.table.entries {
        MoveKeepsEntryOk(s.table, t, step);
      }
    }
    OnTaskRewrites(s, step);
    RewriteKeepsInv(s, Apply(s, step), k);
  }

  lemma OnClientRewrites(s: Sys, step: Step)
    requires OnClient(step) && Enabled(s, step)
    requires var c := s.clients[step.c];
             ClientOk(TakenDown(s.tasks[c.key], step), Client(c.key, Turn(s.table, s.tasks[c.key], c.key, step)))
    ensures Rewrites(s, Apply(s, step), s.clients[step.c].key)
  {
  }

  lemma OnClientKeepsInv(s: Sys, step: Step)
    requires Inv(s) && OnClient(step) && Enabled(s, step)
    ensures Inv(Apply(s, step))
  {
    var c, t := s.clients[step.c], s.tasks[s.clients[step.c].key];
    assert TaskOk(t) && ClientOk(t, c);
    TurnKeepsOk(s.table, t, c, step);
    assert c.key in s.table.entries ==>
        EntryOk(TakenDown(t, step), ClientTable(s.table, c.key, step).entries[c.key]) by {
      if c.key in s.table.entries {
        TurnKeepsEntryOk(s.table, t, c, step);
      }
    }
    OnClientRewrites(s, step);
    RewriteKeepsInv(s, Apply(s, step), c.key);
  }

  lemma SubmitKeepsRing(s: Sys, step: Step)
    requires IsRing(s.table, s.submitted, s.history) && step.Submit? && step.k !in s.submitted
    requires Enabled(s, step)
    ensures IsRing(Apply(s, step).table, Apply(s, step).submitted, Apply(s, step).history)
  {
    RegisterKeepsRing(s.table, s.submitted, step.k, FRESH, s.history);
  }

  lemma SubmitKeepsKnown(s: Sys, step: Step)
    requires s.tasks.Keys == Elements(s.submitted) && s.table.entries.Keys <= s.tasks.Keys
    requires step.Submit? && Enabled(s, step)
    ensures Apply(s, step).tasks.Keys == Elements(Apply(s, step).submitted)
    ensures Apply(s, step).table.entries.Keys <= Apply(s, step).tasks.Keys
  {
    ElementsAppend(s.submitted, step.k);
    RegisterAddsAtMostTheKey(s.table, step.k, FRESH, s.history);
  }

  lemma SubmitKeepsKeys(s: Sys, step: Step)
    requires KeysOk(s) && step.Submit? && Enabled(s, step)
    ensures KeysOk(Apply(s, step))
  {
    SubmitKeepsRing(s, step);
    SubmitKeepsKnown(s, step);
  }

  lemma SubmitKeepsEntries(s: Sys, step: Step)
    requires EntriesOk(s) && KeysOk(s) && step.Submit? && Enabled(s, step)
    ensures EntriesOk(Apply(s, step))
  {
    var s' := Apply(s, step);
    forall j | j in s'.table.entries && j in s'.tasks
      ensures TaskOk(s'.tasks[j]) && EntryOk(s'.tasks[j], s'.table.entries[j])
    {
      if j != step.k {
        assert j in s.table.entries && s'.tasks[j] == s.tasks[j];
      }
    }
  }

  lemma SubmitKeepsInv(s: Sys, step: Step)
    requires Inv(s) && step.Submit? && Enabled(s, step)
    ensures Inv(Apply(s, step))
  {
    SubmitKeepsKeys(s, step);
    SubmitKeepsEntries(s, step);
    var s' := Apply(s, step);
    forall c | c in s'.clients && s'.clients[c].key in s'.tasks
      ensures ClientOk(s'.tasks[s'.clients[c].key], s'.clients[c])
    {
      assert s'.clients[c].phase == Over || s'.clients[c].key in s.tasks;
    }
  }

  /** Every step keeps the invariant. */
  lemma StepKeepsInv(s: Sys, step: Step)
    requires Inv(s) && Enabled(s, step)
    ensures Inv(Apply(s, step))
  {
    if OnTask(step) {
      OnTaskKeepsInv(s, step);
    } else if OnClient(step) {
      OnClientKeepsInv(s, step);
    } else if step.Submit? {
      SubmitKeepsInv(s, step);
    }
  }

  lemma OnTaskObeysTable(s: Sys, step: Step, k: Id)
    requires EntriesOk(s) && KeysOk(s) && OnTask(step) && Enabled(s, step) && k in s.table.entries
    ensures var before, after := s.table.entries[k], Apply(s, step).table.entries[k];
            && TransitionsTo(before.state, after.state)
            && (before.state.IsTerminal() ==> after == before)
  {
    if step.k == k {
      MoveKeepsEntryOk(s.table, s.tasks[k], step);
    }
  }

  lemma OnClientObeysTable(s: Sys, step: Step, k: Id)
    requires EntriesOk(s) && KeysOk(s) && ClientsOk(s) && OnClient(step) && Enabled(s, step) && k in s.table.entries
    ensures var before, after := s.table.entries[k], Apply(s, step).table.entries[k];
            && TransitionsTo(before.state, after.state)
            && (before.state.IsTerminal() ==> after == before)
  {
    if s.clients[step.c].key == k {
      TurnKeepsEntryOk(s.table, s.tasks[k], s.clients[step.c], step);
    }
  }

  /** Every change of a retained entry is in the table of legal transitions, with no exception; and a
      terminal entry never changes again, in state or in result. */
  lemma StepObeysTable(s: Sys, step: Step, k: Id)
    requires Inv(s) && Enabled(s, step)
    requires k in s.table.entries && k in Apply(s, step).table.entries
    ensures var before, after := s.table.entries[k], Apply(s, step).table.entries[k];
            && TransitionsTo(before.state, after.state)
            && (before.state.IsTerminal() ==> after == before)
  {
    if OnTask(step) {
      OnTaskObeysTable(s, step, k);
    } else if OnClient(step) {
      OnClientObeysTable(s, step, k);
    }
  }

  lemma SettledAlone(t: Task, e: Entry)
    requires TaskOk(t) && EntryOk(t, e) && t.future.IsOver()
    ensures e.state.IsTerminal() <==> t.settled || (t.future.Dropped? && e.state == Cancelled)
    ensures e.state.IsTerminal() ==> e == match t.future
                                          case Done(o) => Entry(StateOf(o), Some(ResultOf(o)))
                                          case _ => Entry(Cancelled, None)
  {
  }

  lemma SettledInState(s: Sys, k: Id)
    requires Inv(s) && k in s.table.entries && k in s.tasks && s.tasks[k].future.IsOver()
    ensures var t, e := s.tasks[k], s.table.entries[k];
            && (e.state.IsTerminal() <==> t.settled || (t.future.Dropped? && e.state == Cancelled))
            && (e.state.IsTerminal() ==> e == match t.future
                                              case Done(o) => Entry(StateOf(o), Some(ResultOf(o)))
                                              case _ => Entry(Cancelled, None))
  {
    assert TaskOk(s.tasks[k]) && EntryOk(s.tasks[k], s.table.entries[k]);
    SettledAlone(s.tasks[k], s.table.entries[k]);
  }

  lemma OpenInState(s: Sys, k: Id)
    requires Inv(s) && k in s.table.entries && k in s.tasks && s.table.entries[k].state.IsTerminal()
    ensures s.tasks[k].future.IsOver()
  {
    assert TaskOk(s.tasks[k]) && EntryOk(s.tasks[k], s.table.entries[k]);
  }

  ghost predicate IsRun(history: nat, states: seq<Sys>, steps: seq<Step>) {
    && |states| == |steps| + 1
    && states[0] == Init(history)
    && forall i {:trigger steps[i]} :: 0 <= i < |steps| ==>
         Enabled(states[i], steps[i]) && states[i + 1] == Apply(states[i], steps[i])
  }

  lemma {:induction false} RunKeepsInv(history: nat, states: seq<Sys>, steps: seq<Step>, i: nat)
    requires IsRun(history, states, steps) && i < |states|
    ensures Inv(states[i]) && states[i].history == history
  {
    if i == 0 {
      assert Kept([], history) == [];
    } else {
      RunKeepsInv(history, states, steps, i - 1);
      StepKeepsInv(states[i - 1], steps[i - 1]);
    }
  }

  /** Over every interleaving, each change of a retained entry is in the table. */
  lemma RunObeysTable(history: nat, states: seq<Sys>, steps: seq<Step>, i: nat, k: Id)
    requires IsRun(history, states, steps) && i < |steps|
    requires k in states[i].table.entries && k in states[i + 1].table.entries
    ensures var before, after := states[i].table.entries[k], states[i + 1].table.entries[k];
            && TransitionsTo(before.state, after.state)
            && (before.state.IsTerminal() ==> after == before)
  {
    RunKeepsInv(history, states, steps, i);
    StepObeysTable(states[i], steps[i], k);
  }

  lemma {:induction false} TasksStay(history: nat, states: seq<Sys>, steps: seq<Step>, i: nat, j: nat, k: Id)
    requires IsRun(history, states, steps) && i <= j < |states| && k in states[i].tasks
    ensures k in states[j].tasks
    decreases j
  {
    if i < j {
      TasksStay(history, states, steps, i, j - 1, k);
      assert states[j] == Apply(states[j - 1], steps[j - 1]);
    }
  }

  /** A key that is kept after a step, and was submitted before it, was kept before it. */
  lemma KeptWasKept(history: nat, states: seq<Sys>, steps: seq<Step>, i: nat, k: Id)
    requires IsRun(history, states, steps) && i < |steps|
    requires k in states[i].tasks && k in states[i + 1].table.entries
    ensures k in states[i].table.entries
  {
    assert states[i + 1] == Apply(states[i], steps[i]);
  }

  lemma KeptIsKnown(history: nat, states: seq<Sys>, steps: seq<Step>, i: nat, k: Id)
    requires IsRun(history, states, steps) && i < |states| && k in states[i].table.entries
    ensures k in states[i].tasks
  {
    RunKeepsInv(history, states, steps, i);
  }

  /** A canceller that took down the future of this task records it. */
  ghost predicate RecordsCancel(s: Sys, step: Step, k: Id) {
    step.CancelCommit? && Enabled(s, step) && s.clients[step.c].key == k
  }

  ghost predicate CancelRecordedBefore(states: seq<Sys>, steps: seq<Step>, i: nat, k: Id)
    requires i <= |steps| <= |states|
  {
    exists j :: 0 <= j < i && RecordsCancel(states[j], steps[j], k)
  }

  lemma CancelRecordedStep(states: seq<Sys>, steps: seq<Step>, i: nat, k: Id)
    requires i < |steps| <= |states|
    ensures CancelRecordedBefore(states, steps, i + 1, k) <==>
            CancelRecordedBefore(states, steps, i, k) || RecordsCancel(states[i], steps[i], k)
  {
  }

  predicate CancelledEntry(s: Sys, k: Id) {
    k in s.table.entries && s.table.entries[k].state == Cancelled
  }

  /** The callback has run on a future that was taken down. */
  predicate CancelSettled(s: Sys, k: Id) {
    k in s.tasks && s.tasks[k].settled && s.tasks[k].future.Dropped?
  }

  /** The entry of a task that a run has seen is kept, or the task has not been submitted yet. */
  predicate KeptOrUnknown(s: Sys, k: Id) {
    k in s.table.entries || k !in s.tasks
  }

  lemma MoveCancels(tbl: Table<Entry>, t: Task, step: Step)
    requires OnTask(step) && CanMove(t, step) && TaskOk(t)
    requires step.k in tbl.entries && EntryOk(t, tbl.entries[step.k])
    ensures var t' := Move(t, step);
            && (t.settled && t.future.Dropped? ==> t'.settled && t'.future.Dropped?)
            && (Written(tbl, t, step).entries[step.k].state == Cancelled <==>
                  tbl.entries[step.k].state == Cancelled || (t'.settled && t'.future.Dropped?))
  {
  }

  lemma OnTaskCancels(s: Sys, step: Step, k: Id)
    requires Inv(s) && OnTask(step) && Enabled(s, step) && KeptOrUnknown(Apply(s, step), k)
    ensures CancelledEntry(Apply(s, step), k) <==> CancelledEntry(s, k) || CancelSettled(Apply(s, step), k)
    ensures CancelSettled(s, k) ==> CancelSettled(Apply(s, step), k)
  {
    if k in s.table.entries {
      assert TaskOk(s.tasks[k]) && EntryOk(s.tasks[k], s.table.entries[k]);
      if step.k == k {
        MoveCancels(s.table, s.tasks[k], step);
      }
    }
  }

  lemma TurnCancels(tbl: Table<Entry>, t: Task, k: Id, step: Step)
    requires OnClient(step) && TaskOk(t) && k in tbl.entries && EntryOk(t, tbl.entries[k])
    ensures k in ClientTable(tbl, k, step).entries
    ensures ClientTable(tbl, k, step).entries[k].state == Cancelled <==>
            tbl.entries[k].state == Cancelled || step.CancelCommit?
    ensures TakenDown(t, step).settled && TakenDown(t, step).future.Dropped? <==> t.settled && t.future.Dropped?
  {
  }

  /** What the callback leaves for a future that was taken down. */
  lemma SettledIsCancelled(s: Sys, k: Id)
    requires EntriesOk(s) && KeptOrUnknown(s, k) && CancelSettled(s, k)
    ensures CancelledEntry(s, k)
  {
    assert EntryOk(s.tasks[k], s.table.entries[k]);
  }

  lemma OnClientElsewhere(s: Sys, step: Step, k: Id)
    requires OnClient(step) && Enabled(s, step) && s.clients[step.c].key != k
    ensures CancelledEntry(Apply(s, step), k) <==> CancelledEntry(s, k)
    ensures CancelSettled(Apply(s, step), k) <==> CancelSettled(s, k)
  {
  }

  lemma OnClientCancels(s: Sys, step: Step, k: Id)
    requires KeysOk(s) && EntriesOk(s) && OnClient(step) && Enabled(s, step) && KeptOrUnknown(s, k)
    ensures CancelledEntry(Apply(s, step), k) <==> CancelledEntry(s, k) || RecordsCancel(s, step, k)
    ensures CancelSettled(Apply(s, step), k) <==> CancelSettled(s, k)
  {
    if s.clients[step.c].key == k {
      TurnCancels(s.table, s.tasks[k], k, step);
    } else {
      OnClientElsewhere(s, step, k);
    }
  }

  lemma OthersCancel(s: Sys, step: Step, k: Id)
    requires KeysOk(s) && !OnTask(step) && !OnClient(step) && Enabled(s, step) && KeptOrUnknown(Apply(s, step), k)
    ensures CancelledEntry(Apply(s, step), k) <==> CancelledEntry(s, k)
    ensures CancelSettled(Apply(s, step), k) <==> CancelSettled(s, k)
  {
  }

  lemma KeptOrUnknownEarlier(s: Sys, step: Step, k: Id)
    requires KeysOk(s) && Enabled(s, step) && KeptOrUnknown(Apply(s, step), k)
    ensures KeptOrUnknown(s, k)
  {
  }

  /** An entry turns CANCELLED exactly when a canceller that took its future down says so, or the callback
      finds that future. */
  lemma CancelStep(s: Sys, step: Step, k: Id)
    requires Inv(s) && Enabled(s, step) && KeptOrUnknown(Apply(s, step), k)
    ensures CancelledEntry(Apply(s, step), k)
       <==> CancelledEntry(s, k) || RecordsCancel(s, step, k) || CancelSettled(Apply(s, step), k)
    ensures CancelSettled(s, k) ==> CancelSettled(Apply(s, step), k)
  {
    KeptOrUnknownEarlier(s, step, k);
    if CancelSettled(s, k) {
      SettledIsCancelled(s, k);
    }
    if OnTask(step) {
      OnTaskCancels(s, step, k);
    } else if OnClient(step) {
      OnClientCancels(s, step, k);
    } else {
      OthersCancel(s, step, k);
    }
  }

  lemma KeptOrUnknownBefore(history: nat, states: seq<Sys>, steps: seq<Step>, i: nat, k: Id)
    requires IsRun(history, states, steps) && i < |steps| && KeptOrUnknown(states[i + 1], k)
    ensures KeptOrUnknown(states[i], k)
  {
    if k in states[i].tasks {
      TasksStay(history, states, steps, i, i + 1, k);
      KeptWasKept(history, states, steps, i, k);
    }
  }

  lemma CancelMeaningNext(history: nat, states: seq<Sys>, steps: seq<Step>, i: nat, k: Id)
    requires IsRun(history, states, steps) && i < |steps| && KeptOrUnknown(states[i + 1], k)
    requires CancelledEntry(states[i], k)
        <==> CancelRecordedBefore(states, steps, i, k) || CancelSettled(states[i], k)
    ensures CancelledEntry(states[i + 1], k)
       <==> CancelRecordedBefore(states, steps, i + 1, k) || CancelSettled(states[i + 1], k)
  {
    CancelRecordedStep(states, steps, i, k);
    RunKeepsInv(history, states, steps, i);
    CancelStep(states[i], steps[i], k);
  }

  /** A kept entry is CANCELLED exactly if a canceller that took its future down has recorded that, or
      the callback has. */
  lemma {:induction false} CancelMeaning(history: nat, states: seq<Sys>, steps: seq<Step>, i: nat, k: Id)
    requires IsRun(history, states, steps) && i <= |steps| && KeptOrUnknown(states[i], k)
    ensures CancelledEntry(states[i], k)
       <==> CancelRecordedBefore(states, steps, i, k) || CancelSettled(states[i], k)
  {
    if i > 0 {
      KeptOrUnknownBefore(history, states, steps, i - 1, k);
      CancelMeaning(history, states, steps, i - 1, k);
      CancelMeaningNext(history, states, steps, i - 1, k);
    }
  }

  /** Over every interleaving: a future that is over, so that a wait on it returns, leaves its entry terminal
      exactly when the callback has run, or the future was taken down and a canceller has recorded that;
      and then the entry says what the future holds. */
  lemma SettledMeansTerminal(history: nat, states: seq<Sys>, steps: seq<Step>, i: nat, k: Id)
    requires IsRun(history, states, steps) && i < |states|
    requires k in states[i].table.entries && k in states[i].tasks && states[i].tasks[k].future.IsOver()
    ensures var t, e := states[i].tasks[k], states[i].table.entries[k];
            && (e.state.IsTerminal() <==>
                  t.settled || (t.future.Dropped? && CancelRecordedBefore(states, steps, i, k)))
            && (e.state.IsTerminal() ==> e == match t.future
                                              case Done(o) => Entry(StateOf(o), Some(ResultOf(o)))
                                              case _ => Entry(Cancelled, None))
  {
    RunKeepsInv(history, states, steps, i);
    SettledInState(states[i], k);
    CancelMeaning(history, states, steps, i, k);
  }

  /** Over every interleaving: with the future over, `result` answers what the future holds, or the cancelled
      placeholder for one that was taken down, exactly if the callback has run, or the future was taken
      down, or the two happen to look the same. */
  lemma ResultIsRight(history: nat, states: seq<Sys>, steps: seq<Step>, i: nat, k: Id)
    requires IsRun(history, states, steps) && i < |states|
    requires k in states[i].table.entries && k in states[i].tasks && states[i].tasks[k].future.IsOver()
    ensures var t := states[i].tasks[k];
            var right := if t.future.Dropped? then CANCELLED_RESULT else ResultOf(t.future.outcome);
            && (ResultBlock(states[i].table, k) == Some(right) <==>
                  t.settled || t.future.Dropped? || right == CANCELLED_RESULT)
            && (!t.settled ==> ResultBlock(states[i].table, k) == Some(CANCELLED_RESULT))
  {
    RunKeepsInv(history, states, steps, i);
    assert EntryOk(states[i].tasks[k], states[i].table.entries[k]);
  }

  /** A settled entry, in plain words: SUCCEEDED with the value the child returned, FAILED with what it raised, or
      CANCELLED; and `result` answers just that. */
  lemma SettledInPlain(history: nat, states: seq<Sys>, steps: seq<Step>, i: nat, k: Id)
    requires IsRun(history, states, steps) && i < |states|
    requires k in states[i].table.entries && k in states[i].tasks && states[i].tasks[k].settled
    ensures states[i].tasks[k].future.IsOver()
    ensures var t, e, answer := states[i].tasks[k], states[i].table.entries[k], ResultBlock(states[i].table, k);
            match t.future
            case Done(Returned(v)) => e.state == Succeeded && answer == Some(ExecutionResult(Some(v), None, None))
            case Done(Raised(x)) =>
              && e.state == Failed && answer.Some? && answer.value.value == None
              && answer.value.errorType == Some(x.qualName)
              && answer.value.error == Some(if x.message == "" then x.typeName else x.message)
            case _ =>
              && e.state == Cancelled
              && answer == Some(ExecutionResult(None, Some("execution was cancelled"), Some("ExecutionCancelled")))
  {
    RunKeepsInv(history, states, steps, i);
    assert TaskOk(states[i].tasks[k]) && EntryOk(states[i].tasks[k], states[i].table.entries[k]);
    if states[i].tasks[k].future.Done? {
      ReportInPlain(states[i].tasks[k].future.outcome);
    }
  }

  /** A cancel goes on beyond its first look exactly for an entry that is not over. */
  lemma CancelGoesOnIff(s: Sys, c: nat)
    requires Enabled(s, ReadTerminal(c)) && s.clients[c].key in s.table.entries
    ensures var s', state := Apply(s, ReadTerminal(c)), s.table.entries[s.clients[c].key].state;
            && s'.table == s.table
            && (Enabled(s', CancelFuture(c)) <==> state in {Pending, Queued, Running, Unknown})
            && !Enabled(s', CancelCommit(c))
  {
    TransitionsInPlain(s.table.entries[s.clients[c].key].state, Queued);
  }

  /** No entry is terminal while its future is still open. */
  lemma TerminalMeansOver(history: nat, states: seq<Sys>, steps: seq<Step>, i: nat, k: Id)
    requires IsRun(history, states, steps) && i < |states|
    requires k in states[i].table.entries && k in states[i].tasks && states[i].table.entries[k].state.IsTerminal()
    ensures states[i].tasks[k].future.IsOver()
  {
    RunKeepsInv(history, states, steps, i);
    OpenInState(states[i], k);
  }

  /** SUCCEEDED, FAILED and CANCELLED are absorbing for as long as the entry is kept. */
  lemma {:induction false} TerminalIsFinal(history: nat, states: seq<Sys>, steps: seq<Step>, i: nat, j: nat, k: Id)
    requires IsRun(history, states, steps) && i <= j < |states|
    requires k in states[i].table.entries && states[i].table.entries[k].state.IsTerminal()
    ensures k in states[j].table.entries ==> states[j].table.entries[k] == states[i].table.entries[k]
    decreases j
  {
    if i < j && k in states[j].table.entries {
      KeptIsKnown(history, states, steps, i, k);
      TasksStay(history, states, steps, i, j - 1, k);
      KeptWasKept(history, states, steps, j - 1, k);
      TerminalIsFinal(history, states, steps, i, j - 1, k);
      RunObeysTable(history, states, steps, j - 1, k);
    }
  }

  /** After any run the table holds the last `history` submissions, or all of them at history zero. */
  lemma HistoryRing(history: nat, states: seq<Sys>, steps: seq<Step>, i: nat)
    requires IsRun(history, states, steps) && i < |states|
    ensures var s := states[i];
            && s.table.order == Kept(s.submitted, history)
            && s.table.entries.Keys == Elements(if history == 0 then s.submitted else s.table.order)
            && (|s.table.entries| <= history <==> history >= 1 || s.submitted == [])
  {
    RunKeepsInv(history, states, steps, i);
    RingSize(states[i].table, states[i].submitted, history);
  }

  ghost predicate Reachable(history: nat, s: Sys) {
    exists states: seq<Sys>, steps: seq<Step> :: IsRun(history, states, steps) && states[|steps|] == s
  }

  lemma StepIsReachable(history: nat, s: Sys, step: Step)
    requires Reachable(history, s) && Enabled(s, step)
    ensures Reachable(history, Apply(s, step))
  {
    var states: seq<Sys>, steps: seq<Step> :| IsRun(history, states, steps) && states[|steps|] == s;
    assert IsRun(history, states + [Apply(s, step)], steps + [step]);
  }

  function Alone(k: Id, state: State, t: Task, clients: map<nat, Client>): Sys {
    Sys(1, Table(map[k := Entry(state, None)], [k]), [k], map[k := t], clients)
  }

  lemma ReachSubmitted(k: Id)
    ensures Reachable(1, Alone(k, Queued, Task(Unset, false, false, false), map[]))
  {
    assert IsRun(1, [Init(1)], []);
    StepIsReachable(1, Init(1), Submit(k));
    assert Apply(Init(1), Submit(k)) == Alone(k, Queued, Task(Unset, false, false, false), map[]);
  }

  lemma TaskStepAlone(k: Id, state: State, t: Task, clients: map<nat, Client>, step: Step)
    requires Reachable(1, Alone(k, state, t, clients))
    requires OnTask(step) && !step.Settle? && step.k == k && CanMove(t, step)
    ensures Reachable(1, Alone(k, state, Move(t, step), clients))
  {
    StepIsReachable(1, Alone(k, state, t, clients), step);
    assert Apply(Alone(k, state, t, clients), step) == Alone(k, state, Move(t, step), clients);
  }

  lemma ReachBusy(k: Id)
    ensures Reachable(1, Alone(k, Queued, Task(Busy, true, true, false), map[]))
  {
    ReachSubmitted(k);
    TaskStepAlone(k, Queued, Task(Unset, false, false, false), map[], Launch(k));
    TaskStepAlone(k, Queued, Task(Waiting, false, false, false), map[], Assign(k));
    TaskStepAlone(k, Queued, Task(Waiting, true, false, false), map[], Attach(k));
    TaskStepAlone(k, Queued, Task(Waiting, true, true, false), map[], Start(k));
  }

  lemma ReachSawRunning(k: Id)
    ensures Reachable(1, Alone(k, Queued, Task(Busy, true, true, false), map[0 := Client(k, SawRunning)]))
  {
    ReachBusy(k);
    var s5 := Alone(k, Queued, Task(Busy, true, true, false), map[]);
    StepIsReachable(1, s5, LookUp(0, k));
    var s6 := s5.(clients := map[0 := Client(k, Looked)]);
    assert Apply(s5, LookUp(0, k)) == s6;
    StepIsReachable(1, s6, SeeRunning(0));
    assert Apply(s6, SeeRunning(0)) == s5.(clients := map[0 := Client(k, SawRunning)]);
  }

  lemma ReachMarkedRunning(k: Id)
    ensures Reachable(1, Alone(k, Running, Task(Busy, true, true, false), map[0 := Client(k, Over)]))
  {
    ReachSawRunning(k);
    var s7 := Alone(k, Queued, Task(Busy, true, true, false), map[0 := Client(k, SawRunning)]);
    StepIsReachable(1, s7, MarkRunning(0));
    assert Apply(s7, MarkRunning(0)) ==
           Alone(k, Running, Task(Busy, true, true, false), map[0 := Client(k, Over)]);
  }

  /** A wait can end before the callback has run: the future is done, the entry is still RUNNING. */
  lemma WaitCanSeeRunning(k: Id, outcome: Outcome)
    ensures exists s: Sys :: Reachable(1, s) && k in s.tasks && s.tasks[k].future == Done(outcome)
                             && k in s.table.entries && s.table.entries[k].state == Running
  {
    ReachMarkedRunning(k);
    var over := map[0 := Client(k, Over)];
    TaskStepAlone(k, Running, Task(Busy, true, true, false), over, Report(k, outcome));
    assert k in Alone(k, Running, Task(Done(outcome), true, true, false), over).tasks;
  }

  /** Before the callback has run, `result` answers that a task was cancelled which succeeded. */
  lemma ResultCanDenySuccess(k: Id, value: string)
    ensures exists s: Sys :: Reachable(1, s) && k in s.tasks && s.tasks[k].future == Done(Returned(value))
                             && ResultBlock(s.table, k) == Some(CANCELLED_RESULT)
    ensures ResultOf(Returned(value)) != CANCELLED_RESULT
  {
    ReachMarkedRunning(k);
    var over, o := map[0 := Client(k, Over)], Returned(value);
    TaskStepAlone(k, Running, Task(Busy, true, true, false), over, Report(k, o));
    assert k in Alone(k, Running, Task(Done(o), true, true, false), over).tasks;
  }

  /** Left alone, a task runs to its end, and the callback records what the child did. */
  lemma UndisturbedRun(k: Id, outcome: Outcome)
    ensures exists s: Sys :: Reachable(1, s) && k in s.tasks && s.tasks[k].settled && k in s.table.entries
                             && s.table.entries[k] == Entry(StateOf(outcome), Some(ResultOf(outcome)))
  {
    ReachBusy(k);
    TaskStepAlone(k, Queued, Task(Busy, true, true, false), map[], Report(k, outcome));
    var s1 := Alone(k, Queued, Task(Done(outcome), true, true, false), map[]);
    StepIsReachable(1, s1, Settle(k));
    var s2 := Apply(s1, Settle(k));
    assert k in s2.tasks && s2.tasks[k].settled;
  }

  lemma ReachLaunched(k: Id)
    ensures Reachable(1, Alone(k, Queued, Task(Waiting, true, true, false), map[]))
  {
    ReachSubmitted(k);
    TaskStepAlone(k, Queued, Task(Unset, false, false, false), map[], Launch(k));
    TaskStepAlone(k, Queued, Task(Waiting, false, false, false), map[], Assign(k));
    TaskStepAlone(k, Queued, Task(Waiting, true, false, false), map[], Attach(k));
  }

  lemma ReachReadOpen(k: Id)
    ensures Reachable(1, Alone(k, Queued, Task(Waiting, true, true, false), map[0 := Client(k, ReadOpen)]))
  {
    ReachLaunched(k);
    var s4 := Alone(k, Queued, Task(Waiting, true, true, false), map[]);
    StepIsReachable(1, s4, LookUp(0, k));
    var s5 := s4.(clients := map[0 := Client(k, Looked)]);
    assert Apply(s4, LookUp(0, k)) == s5;
    StepIsReachable(1, s5, ReadTerminal(0));
    assert Apply(s5, ReadTerminal(0)) == s4.(clients := map[0 := Client(k, ReadOpen)]);
  }

  lemma ReachTookDown(k: Id)
    ensures Reachable(1, Alone(k, Queued, Task(Dropped, true, true, false), map[0 := Client(k, TookDown)]))
  {
    ReachReadOpen(k);
    var s6 := Alone(k, Queued, Task(Waiting, true, true, false), map[0 := Client(k, ReadOpen)]);
    StepIsReachable(1, s6, CancelFuture(0));
    assert Apply(s6, CancelFuture(0)) ==
           Alone(k, Queued, Task(Dropped, true, true, false), map[0 := Client(k, TookDown)]);
  }

  /** A task that is cancelled while it waits ends as CANCELLED, before the callback has run. */
  lemma CancelledRun(k: Id)
    ensures exists s: Sys :: Reachable(1, s) && k in s.tasks && s.tasks[k].future == Dropped && !s.tasks[k].settled
                             && k in s.table.entries && s.table.entries[k] == Entry(Cancelled, None)
  {
    ReachTookDown(k);
    var s7 := Alone(k, Queued, Task(Dropped, true, true, false), map[0 := Client(k, TookDown)]);
    StepIsReachable(1, s7, CancelCommit(0));
    var s8 := Alone(k, Cancelled, Task(Dropped, true, true, false), map[0 := Client(k, Over)]);
    assert Apply(s7, CancelCommit(0)) == s8;
    assert k in s8.tasks;
  }

  /** A pool that breaks fails every task that has not reported: one that waits, whose call never comes, as well
      as one that is under way; and the callback then records that. */
  lemma BrokenPoolFails(s: Sys, k: Id, exn: Exn)
    requires Inv(s) && k in s.table.entries && k in s.tasks && s.tasks[k].attached
    requires s.tasks[k].future.Waiting? || s.tasks[k].future.Busy?
    ensures Enabled(s, PoolBreaks(k, exn))
    ensures var s' := Apply(s, PoolBreaks(k, exn));
            && s'.tasks[k].future == Done(Raised(exn)) && Enabled(s', Settle(k))
            && k in Apply(s', Settle(k)).table.entries
            && Apply(s', Settle(k)).table.entries[k] == Entry(Failed, Some(ResultOf(Raised(exn))))
  {
    assert TaskOk(s.tasks[k]);
  }
}
