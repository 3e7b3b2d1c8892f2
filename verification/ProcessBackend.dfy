/** The process backend's shared table: its locked sections as functions from table to table, and
    the class whose methods perform them on the live entries. */
module ProcessBackend {
  import opened Executions
  import opened History

  datatype Entry = Entry(state: State, result: Option<ExecutionResult>)

  const FRESH: Entry := Entry(Queued, None)

  /** What a finished future holds: nothing if it was cancelled, else what the child did. */
  type Settlement = Option<Outcome>

  function SetStateBlock(t: Table<Entry>, key: Id, state: State): Table<Entry> {
    if key !in t.entries then t
    else t.(entries := t.entries[key := t.entries[key].(state := state)])
  }

  function SettleBlock(t: Table<Entry>, key: Id, settlement: Settlement): Table<Entry> {
    match settlement
    case None => SetStateBlock(t, key, Cancelled)
    case Some(outcome) =>
      if key !in t.entries then t
      else t.(entries := t.entries[key := Entry(StateOf(outcome), Some(ResultOf(outcome)))])
  }

  /** The locked half of `get`, once the future was seen running. */
  function MarkRunningBlock(t: Table<Entry>, key: Id): Table<Entry> {
    if key in t.entries && t.entries[key].state == Queued
    then t.(entries := t.entries[key := t.entries[key].(state := Running)])
    else t
  }

  /** What `result()` answers once the wait is over. */
  function ResultBlock(t: Table<Entry>, key: Id): Option<ExecutionResult> {
    if key !in t.entries then None
    else if t.entries[key].result.None? then Some(CANCELLED_RESULT)
    else t.entries[key].result
  }

  class TaskEntry {
    var state: State
    var result: Option<ExecutionResult>

    function View(): Entry
      reads this
    {
      Entry(state, result)
    }

    constructor ()
      ensures View() == FRESH
    {
      state, result := Queued, None;
    }
  }

  class ProcessTaskBackend {
    const history: nat
    var entries: map<Id, TaskEntry>
    var order: seq<Id>

    /** No two keys share an entry object. */
    ghost predicate Valid()
      reads this
    {
      forall j, k :: j in entries && k in entries && j != k ==> entries[j] != entries[k]
    }

    ghost function Objects(): set<TaskEntry>
      reads this
    {
      set k | k in entries :: entries[k]
    }

    ghost function View(): Table<Entry>
      reads this, Objects()
    {
      Table(map k | k in entries :: entries[k].View(), order)
    }

    constructor (history: nat)
      ensures Valid() && View() == Table(map[], []) && this.history == history
    {
      this.history := history;
      entries, order := map[], [];
    }

    method Evict(key: Id)
      requires Valid()
      modifies this
      ensures Valid() && Objects() <= old(Objects())
      ensures View() == Remember(old(View()), key, history)
    {
      var t := RememberLocked(Table(entries, order), key, history);
      entries, order := t.entries, t.order;
    }

    method RegisterLocked(key: Id)
      requires Valid() && key !in entries
      modifies this
      ensures Valid() && fresh(Objects() - old(Objects()))
      ensures View() == Register(old(View()), key, FRESH, history)
    {
      var entry := new TaskEntry();
      entries := entries[key := entry];
      assert View() == Table(old(View()).entries[key := FRESH], old(View()).order);
      Evict(key);
    }

    method SetState(key: Id, state: State)
      requires Valid()
      modifies Objects()
      ensures View() == SetStateBlock(old(View()), key, state)
    {
      if key in entries {
        entries[key].state := state;
      }
    }

    /** The done-callback. */
    method Settle(key: Id, settlement: Settlement)
      requires Valid()
      modifies Objects()
      ensures View() == SettleBlock(old(View()), key, settlement)
    {
      if settlement.None? {
        SetState(key, Cancelled);
        return;
      }
      var result := ResultOf(settlement.value);
      if key in entries {
        var entry := entries[key];
        entry.result := Some(result);
        entry.state := StateOf(settlement.value);
      }
    }

    /** `entry` was looked up before the lock was taken again, so it may have been evicted since;
        then only the caller's own object changes and the table does not. */
    method MarkRunning(key: Id, entry: TaskEntry) returns (snapshot: Entry)
      requires Valid()
      requires key in entries ==> entries[key] == entry
      requires key !in entries ==> entry !in Objects()
      modifies entry
      ensures View() == MarkRunningBlock(old(View()), key)
      ensures snapshot == entry.View()
      ensures snapshot == old(entry.View()).(state := if old(entry.state) == Queued then Running else old(entry.state))
    {
      if entry.state == Queued {
        entry.state := Running;
      }
      return entry.View();
    }

    method ResultAfterWait(key: Id) returns (r: Option<ExecutionResult>)
      requires Valid()
      ensures r == ResultBlock(View(), key)
    {
      if key !in entries {
        return None;
      }
      if entries[key].result.None? {
        return Some(CANCELLED_RESULT);
      }
      return entries[key].result;
    }
  }
}
