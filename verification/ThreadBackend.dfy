/** The thread backend's shared table. Every `with self._lock` section is one function from table
    to table, and one method of the class that performs it on the live entries. */
module ThreadBackend {
  import opened Executions
  import opened History

  /** A snapshot of one entry: the execution's state, attempt and result. */
  datatype Entry = Entry(state: State, attempt: nat, result: Option<ExecutionResult>)

  const FRESH: Entry := Entry(Queued, 1, None)

  function TransitionBlock(t: Table<Entry>, key: Id, state: State): Table<Entry> {
    if key !in t.entries || t.entries[key].state == Cancelled then t
    else t.(entries := t.entries[key := t.entries[key].(state := state)])
  }

  predicate IsCancelledBlock(t: Table<Entry>, key: Id) {
    key !in t.entries || t.entries[key].state == Cancelled
  }

  function FinishBlock(t: Table<Entry>, key: Id, outcome: Outcome, attempt: nat): Table<Entry> {
    if key !in t.entries then t
    else t.(entries := t.entries[key := Entry(StateOf(outcome), attempt, Some(ResultOf(outcome)))])
  }

  /** First half of a cancel: whether there is anything left to stop. */
  datatype CancelVerdict = NotFound | AlreadyOver(entry: Entry) | Proceed

  function CancelEnterBlock(t: Table<Entry>, key: Id): CancelVerdict {
    if key !in t.entries then NotFound
    else if t.entries[key].state.IsTerminal() then AlreadyOver(t.entries[key])
    else Proceed
  }

  /** Second half: `stopped` is what `future.cancel()` said in between. */
  function CancelCommitBlock(t: Table<Entry>, key: Id, stopped: bool): Table<Entry> {
    if key in t.entries && (stopped || t.entries[key].state == Queued)
    then t.(entries := t.entries[key := t.entries[key].(state := Cancelled)])
    else t
  }

  /** What `result()` answers once the wait is over. */
  function ResultBlock(t: Table<Entry>, key: Id): Option<ExecutionResult> {
    if key !in t.entries then None
    else if t.entries[key].result.None? then Some(CANCELLED_RESULT)
    else t.entries[key].result
  }

  class TaskEntry {
    var state: State
    var attempt: nat
    var result: Option<ExecutionResult>

    function View(): Entry
      reads this
    {
      Entry(state, attempt, result)
    }

    constructor ()
      ensures View() == FRESH
    {
      state, attempt, result := Queued, 1, None;
    }
  }

  class ThreadTaskBackend {
    const history: nat
    var entries: map<Id, TaskEntry>
    var order: seq<Id>

    /** No two keys share an entry object. */
    ghost predicate Valid()
      reads this
    {
      forall j, k :: j in entries && k in entries && j != k ==> entries[j] != entries[k]
    }

    ghost function Objects(): set<TaskEntry>
      reads this
    {
      set k | k in entries :: entries[k]
    }

    ghost function View(): Table<Entry>
      reads this, Objects()
    {
      Table(map k | k in entries :: entries[k].View(), order)
    }

    constructor (history: nat)
      ensures Valid() && View() == Table(map[], []) && this.history == history
    {
      this.history := history;
      entries, order := map[], [];
    }

    method Evict(key: Id)
      requires Valid()
      modifies this
      ensures Valid() && Objects() <= old(Objects())
      ensures View() == Remember(old(View()), key, history)
    {
      var t := RememberLocked(Table(entries, order), key, history);
      entries, order := t.entries, t.order;
    }

    /** The locked section of a submission. Ids are freshly minted. */
    method RegisterLocked(key: Id)
      requires Valid() && key !in entries
      modifies this
      ensures Valid() && fresh(Objects() - old(Objects()))
      ensures View() == Register(old(View()), key, FRESH, history)
    {
      var entry := new TaskEntry();
      entries := entries[key := entry];
      assert View() == Table(old(View()).entries[key := FRESH], old(View()).order);
      Evict(key);
    }

    method Transition(key: Id, state: State)
      requires Valid()
      modifies Objects()
      ensures View() == TransitionBlock(old(View()), key, state)
    {
      if key !in entries || entries[key].state == Cancelled {
        return;
      }
      entries[key].state := state;
    }

    method IsCancelled(key: Id) returns (cancelled: bool)
      requires Valid()
      ensures cancelled == IsCancelledBlock(View(), key)
    {
      cancelled := key !in entries || entries[key].state == Cancelled;
    }

    method Finish(key: Id, outcome: Outcome, attempt: nat)
      requires Valid()
      modifies Objects()
      ensures View() == FinishBlock(old(View()), key, outcome, attempt)
    {
      var result := ResultOf(outcome);
      if key in entries {
        var entry := entries[key];
        entry.result := Some(result);
        entry.state := StateOf(outcome);
        entry.attempt := attempt;
      }
    }

    method CancelEnter(key: Id) returns (verdict: CancelVerdict)
      requires Valid()
      ensures verdict == CancelEnterBlock(View(), key)
    {
      if key !in entries {
        return NotFound;
      }
      if entries[key].state.IsTerminal() {
        return AlreadyOver(entries[key].View());
      }
      return Proceed;
    }

    /** An entry evicted since the first half is a lookup error. */
    method CancelCommit(key: Id, stopped: bool) returns (r: Option<Entry>)
      requires Valid()
      modifies Objects()
      ensures View() == CancelCommitBlock(old(View()), key, stopped)
      ensures r == if key in View().entries then Some(View().entries[key]) else None
    {
      if key !in entries {
        return None;
      }
      var entry := entries[key];
      if stopped || entry.state == Queued {
        entry.state := Cancelled;
      }
      return Some(entry.View());
    }

    method ResultAfterWait(key: Id) returns (r: Option<ExecutionResult>)
      requires Valid()
      ensures r == ResultBlock(View(), key)
    {
      if key !in entries {
        return None;
      }
      if entries[key].result.None? {
        return Some(CANCELLED_RESULT);
      }
      return entries[key].result;
    }
  }
}
