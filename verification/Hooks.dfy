/** The chain that fans one lifecycle event out to several hooks. */
module Hooks {
  import opened Executions

  datatype HookEvent =
    | BeforeSubmit
    | AfterSubmit(state: State, attempt: nat)
    | BeforeExecute
    | OnRetry(attempt: nat)
    | AfterExecute(state: State, attempt: nat)
    | OnSuccess
    | OnFailure

  /** A hook: which events it has a handler for, and for which its handler raises. */
  datatype Hook = Hook(handles: HookEvent -> bool, raises: HookEvent -> bool)

  /** The part of a trace that a hook has handlers for. */
  function Visible(h: Hook, trace: seq<HookEvent>): seq<HookEvent> {
    if trace == [] then []
    else Visible(h, trace[..|trace| - 1]) + if h.handles(trace[|trace| - 1]) then [trace[|trace| - 1]] else []
  }

  lemma {:induction false} VisibleAppend(h: Hook, a: seq<HookEvent>, b: seq<HookEvent>)
    ensures Visible(h, a + b) == Visible(h, a) + Visible(h, b)
  {
    if b == [] {
      assert a + b == a;
    } else {
      assert (a + b)[..|a + b| - 1] == a + b[..|b| - 1];
      VisibleAppend(h, a, b[..|b| - 1]);
    }
  }

  class HookChain {
    const hooks: seq<Hook>
    /** The events each hook's handlers were called with, and the failures reported. */
    var seen: seq<seq<HookEvent>>
    var reported: seq<(nat, HookEvent)>

    ghost predicate Valid()
      reads this
    {
      |seen| == |hooks|
    }

    constructor (hooks: seq<Hook>)
      ensures Valid() && this.hooks == hooks && reported == []
      ensures forall i :: 0 <= i < |hooks| ==> seen[i] == []
    {
      this.hooks := hooks;
      seen := seq(|hooks|, _ => []);
      reported := [];
    }

    /** Every hook is offered the event, whatever the hooks before it did. */
    method Dispatch(e: HookEvent)
      requires Valid()
      modifies this
      ensures Valid()
      ensures forall i :: 0 <= i < |hooks| ==>
                seen[i] == old(seen)[i] + if hooks[i].handles(e) then [e] else []
      ensures old(reported) <= reported
      ensures forall i: nat :: (i, e) in reported[|old(reported)|..] <==>
                               i < |hooks| && hooks[i].handles(e) && hooks[i].raises(e)
    {
      ghost var n := |reported|;
      for i := 0 to |hooks|
        invariant Valid()
        invariant old(reported) <= reported
        invariant forall j :: 0 <= j < i ==>
                    seen[j] == old(seen)[j] + if hooks[j].handles(e) then [e] else []
        invariant forall j :: i <= j < |hooks| ==> seen[j] == old(seen)[j]
        invariant forall j: nat :: (j, e) in reported[n..] <==> j < i && hooks[j].handles(e) && hooks[j].raises(e)
      {
        if !hooks[i].handles(e) {
          continue;
        }
        seen := seen[i := seen[i] + [e]];
        if hooks[i].raises(e) {
          reported := reported + [(i, e)];
          assert reported[n..] == reported[..|reported| - 1][n..] + [(i, e)];
        }
      }
    }
  }

  /** A hook with handlers for everything sees the whole trace; and any hook sees each event of it exactly if it
      has a handler for it, as often as it happens. */
  lemma {:induction false} VisibleInPlain(h: Hook, trace: seq<HookEvent>, e: HookEvent)
    ensures (forall i :: 0 <= i < |trace| ==> h.handles(trace[i])) ==> Visible(h, trace) == trace
    ensures multiset(Visible(h, trace))[e] == if h.handles(e) then multiset(trace)[e] else 0
  {
    if trace != [] {
      var front, last := trace[..|trace| - 1], trace[|trace| - 1];
      VisibleInPlain(h, front, e);
      assert trace == front + [last];
      if !h.handles(last) {
        assert Visible(h, trace) == Visible(h, front);
      }
    }
  }
}
