/** The portable vocabulary shared by every backend: lifecycle states, the table of
    legal transitions, exceptions, outcomes and results. */
module Executions {

  datatype Option<+T> = None | Some(value: T)

  datatype Result<+T, +E> = Ok(value: T) | Err(error: E)

  type Id = string

  datatype State = Pending | Queued | Running | Cancelled | Succeeded | Failed | TimedOut | Unknown {
    predicate IsTerminal() {
      this in TERMINAL
    }
  }

  const TERMINAL: set<State> := {Succeeded, Failed, Cancelled, TimedOut}

  /** The table of legal transitions. */
  function Allowed(s: State): set<State> {
    match s
    case Pending => {Queued, Running, Unknown} + TERMINAL
    case Queued => {Running, Unknown} + TERMINAL
    case Running => {Unknown} + TERMINAL
    case Failed => {Queued, Running}
    case TimedOut => {Queued}
    case Succeeded => {}
    case Cancelled => {}
    case Unknown => {Pending, Queued, Running, Cancelled, Succeeded, Failed, TimedOut, Unknown}
  }

  predicate TransitionsTo(before: State, after: State) {
    after == before || after in Allowed(before)
  }

  /** A raised `Exception`: its own type's name, bare and as nested in its module, every name a policy can
      match it by, and its message. */
  datatype Exn = Exn(typeName: string, qualName: string, names: set<string>, message: string)

  /** What one call of a task function does. */
  datatype Outcome = Returned(value: string) | Raised(exn: Exn)

  datatype ExecutionResult = ExecutionResult(
    value: Option<string>, error: Option<string>, errorType: Option<string>)

  function FromException(e: Exn): ExecutionResult {
    ExecutionResult(None, Some(if e.message != "" then e.message else e.typeName), Some(e.qualName))
  }

  const CANCELLED_RESULT: ExecutionResult :=
    ExecutionResult(None, Some("execution was cancelled"), Some("ExecutionCancelled"))

  function ResultOf(o: Outcome): ExecutionResult {
    match o
    case Returned(v) => ExecutionResult(Some(v), None, None)
    case Raised(e) => FromException(e)
  }

  function StateOf(o: Outcome): State {
    if o.Returned? then Succeeded else Failed
  }

  /** The lifecycle, edge by edge: what each state may change to, besides staying as it is. */
  lemma TransitionsInPlain(before: State, after: State)
    ensures TransitionsTo(before, after) <==>
            match before
            case Pending => true
            case Queued => after != Pending
            case Running => after != Pending && after != Queued
            case Cancelled => after == Cancelled
            case Succeeded => after == Succeeded
            case Failed => after == Failed || after == Queued || after == Running
            case TimedOut => after == TimedOut || after == Queued
            case Unknown => true
    ensures before.IsTerminal() <==> before != Pending && before != Queued && before != Running && before != Unknown
  {
  }

  /** What a finished call is reported as: its value, or the message of its error, or the name of the
      error's type when there is no message. */
  lemma ReportInPlain(o: Outcome)
    ensures match o
            case Returned(v) => StateOf(o) == Succeeded && ResultOf(o) == ExecutionResult(Some(v), None, None)
            case Raised(e) =>
              && StateOf(o) == Failed && ResultOf(o).value == None && ResultOf(o).errorType == Some(e.qualName)
              && ResultOf(o).error == Some(if e.message == "" then e.typeName else e.message)
  {
  }
}
