/** The bounded index that pairs Taskferry ids with engine ids, as a recency list of pairs. */
module Tracking {
  import opened Executions

  datatype Pair = Pair(key: string, value: string)

  /** Least recently touched first. */
  type Recency = seq<Pair>

  predicate Has(s: Recency, k: string) {
    exists i :: 0 <= i < |s| && s[i].key == k
  }

  predicate DistinctKeys(s: Recency) {
    forall i, j :: 0 <= i < j < |s| ==> s[i].key != s[j].key
  }

  function Keys(s: Recency): set<string> {
    set p | p in s :: p.key
  }

  function Without(s: Recency, k: string): Recency {
    if s == [] then []
    else if s[0].key == k then Without(s[1..], k)
    else [s[0]] + Without(s[1..], k)
  }

  function Lookup(s: Recency, k: string): Option<string> {
    if s == [] then None
    else if s[|s| - 1].key == k then Some(s[|s| - 1].value)
    else Lookup(s[..|s| - 1], k)
  }

  /** The newest `capacity` pairs. */
  function Newest(s: Recency, capacity: nat): Recency {
    if |s| <= capacity then s else s[|s| - capacity..]
  }

  function Remembered(s: Recency, capacity: nat, k: string, v: Option<string>): Recency {
    if v.None? || capacity == 0 then s
    else Newest(Without(s, k) + [Pair(k, v.value)], capacity)
  }

  function Touched(s: Recency, k: string): Recency {
    match Lookup(s, k)
    case Some(v) => Without(s, k) + [Pair(k, v)]
    case None => s
  }

  /** What `resolve` answers: a known pairing, the id itself if it is recognised, or nothing. */
  function Resolution(s: Recency, recognises: string -> bool, k: string): Option<string> {
    match Lookup(s, k)
    case Some(v) => Some(v)
    case None => if recognises(k) then Some(k) else None
  }

  datatype Event = Remember(k: string, v: Option<string>) | Resolve(k: string) | Forget(k: string) | Clear

  function Apply(s: Recency, capacity: nat, e: Event): Recency {
    match e
    case Remember(k, v) => Remembered(s, capacity, k, v)
    case Resolve(k) => Touched(s, k)
    case Forget(k) => Without(s, k)
    case Clear => []
  }

  function Run(capacity: nat, events: seq<Event>): Recency {
    if events == [] then [] else Apply(Run(capacity, events[..|events| - 1]), capacity, events[|events| - 1])
  }

  lemma {:induction false} WithoutMember(s: Recency, k: string, p: Pair)
    ensures p in Without(s, k) <==> p in s && p.key != k
  {
    if s != [] {
      assert s == [s[0]] + s[1..];
      WithoutMember(s[1..], k, p);
    }
  }

  lemma {:induction false} WithoutKey(s: Recency, k: string)
    requires DistinctKeys(s)
    ensures DistinctKeys(Without(s, k)) && !Has(Without(s, k), k)
    ensures |Without(s, k)| == if Has(s, k) then |s| - 1 else |s|
    ensures !Has(s, k) ==> Without(s, k) == s
    ensures DistinctKeys(Without(s, k) + [Pair(k, "")])
  {
    if s != [] {
      var t := s[1..];
      WithoutKey(t, k);
      assert Has(s, k) <==> s[0].key == k || Has(t, k);
      if s[0].key == k {
        assert !Has(t, k);
      }
      forall p | p in Without(t, k)
        ensures p.key != s[0].key || s[0].key == k
      {
        WithoutMember(t, k, p);
      }
    }
  }

  lemma {:induction false} LookupHas(s: Recency, k: string)
    ensures Lookup(s, k).Some? <==> Has(s, k)
    ensures Lookup(s, k).Some? ==> Pair(k, Lookup(s, k).value) in s
  {
    if s != [] {
      LookupHas(s[..|s| - 1], k);
      assert s == s[..|s| - 1] + [s[|s| - 1]];
    }
  }

  class ExternalIdIndex {
    const capacity: nat
    var byExecution: Recency

    ghost predicate Valid()
      reads this
    {
      DistinctKeys(byExecution) && |byExecution| <= capacity
    }

    constructor (capacity: nat)
      ensures Valid() && byExecution == [] && this.capacity == capacity
    {
      this.capacity := capacity;
      byExecution := [];
    }

    method Remember(executionId: string, externalId: Option<string>)
      requires Valid()
      modifies this
      ensures Valid() && byExecution == Remembered(old(byExecution), capacity, executionId, externalId)
    {
      if externalId.None? || capacity == 0 {
        return;
      }
      WithoutKey(byExecution, executionId);
      byExecution := Without(byExecution, executionId) + [Pair(executionId, externalId.value)];
      ghost var appended := byExecution;
      while |byExecution| > capacity
        invariant |byExecution| <= |appended| && byExecution == appended[|appended| - |byExecution|..]
        invariant |byExecution| >= capacity || byExecution == appended
      {
        byExecution := byExecution[1..];
      }
    }

    method Resolve(executionId: string, recognises: string -> bool) returns (r: Option<string>)
      requires Valid()
      modifies this
      ensures Valid() && byExecution == Touched(old(byExecution), executionId)
      ensures r == Resolution(old(byExecution), recognises, executionId)
    {
      var known := Lookup(byExecution, executionId);
      if known.Some? {
        WithoutKey(byExecution, executionId);
        LookupHas(byExecution, executionId);
        byExecution := Without(byExecution, executionId) + [Pair(executionId, known.value)];
        return known;
      }
      return if recognises(executionId) then Some(executionId) else None;
    }

    method Forget(executionId: string)
      requires Valid()
      modifies this
      ensures Valid() && byExecution == Without(old(byExecution), executionId)
    {
      WithoutKey(byExecution, executionId);
      byExecution := Without(byExecution, executionId);
    }

    method Clear()
      modifies this
      ensures Valid() && byExecution == []
    {
      byExecution := [];
    }
  }

  /** The index after any run respects its capacity and keeps one pair per key. */
  lemma {:induction false} RunIsValid(capacity: nat, events: seq<Event>)
    ensures DistinctKeys(Run(capacity, events)) && |Run(capacity, events)| <= capacity
  {
    if events != [] {
      var s, e := Run(capacity, events[..|events| - 1]), events[|events| - 1];
      RunIsValid(capacity, events[..|events| - 1]);
      if e.Resolve? {
        LookupHas(s, e.k);
      }
      if !e.Clear? {
        WithoutKey(s, e.k);
      }
    }
  }

  /** The pairs whose key is in `K`, in order. */
  function Restrict(s: Recency, K: set<string>): Recency {
    if s == [] then []
    else if s[0].key in K then [s[0]] + Restrict(s[1..], K)
    else Restrict(s[1..], K)
  }

  lemma {:induction false} RestrictAppend(a: Recency, b: Recency, K: set<string>)
    ensures Restrict(a + b, K) == Restrict(a, K) + Restrict(b, K)
  {
    if a == [] {
      assert a + b == b;
    } else {
      assert (a + b)[1..] == a[1..] + b;
      RestrictAppend(a[1..], b, K);
    }
  }

  /** Leaving a key out of the choice is the same as leaving its pair out, before or after. */
  lemma {:induction false} RestrictWithout(s: Recency, K: set<string>, k: string)
    ensures Restrict(s, K - {k}) == Without(Restrict(s, K), k) == Restrict(Without(s, k), K)
  {
    if s != [] {
      RestrictWithout(s[1..], K, k);
    }
  }

  lemma {:induction false} RestrictSame(s: Recency, K: set<string>, L: set<string>)
    requires forall p :: p in s ==> (p.key in K <==> p.key in L)
    ensures Restrict(s, K) == Restrict(s, L)
  {
    if s != [] {
      assert forall p :: p in s[1..] ==> p in s;
      assert s[0] in s;
      RestrictSame(s[1..], K, L);
    }
  }

  lemma {:induction false} RestrictMember(s: Recency, K: set<string>, p: Pair)
    ensures p in Restrict(s, K) <==> p in s && p.key in K
  {
    if s != [] {
      assert s == [s[0]] + s[1..];
      RestrictMember(s[1..], K, p);
    }
  }

  lemma {:induction false} WithoutAppend(a: Recency, b: Recency, k: string)
    ensures Without(a + b, k) == Without(a, k) + Without(b, k)
  {
    if a == [] {
      assert a + b == b;
    } else {
      assert (a + b)[1..] == a[1..] + b;
      WithoutAppend(a[1..], b, k);
    }
  }

  lemma {:induction false} LookupMember(s: Recency, k: string, v: string)
    requires DistinctKeys(s) && Pair(k, v) in s
    ensures Lookup(s, k) == Some(v)
  {
    var n := |s| - 1;
    if s[n].key != k {
      assert s == s[..n] + [s[n]];
      LookupMember(s[..n], k, v);
    } else {
      var i :| 0 <= i < |s| && s[i] == Pair(k, v);
      assert i == n;
    }
  }

  /** The smaller index is the larger one with some pairs left out, at most the difference of capacities. */
  ghost predicate Included(small: Recency, big: Recency, c: nat, C: nat) {
    && DistinctKeys(small) && DistinctKeys(big)
    && |small| <= c && |big| <= C
    && small == Restrict(big, Keys(small))
    && |big| - |small| <= C - c
  }

  lemma KeysMember(s: Recency, k: string)
    ensures k in Keys(s) <==> Has(s, k)
  {
    if k in Keys(s) {
      var p :| p in s && p.key == k;
    }
    if Has(s, k) {
      var i :| 0 <= i < |s| && s[i].key == k;
      assert s[i] in s;
    }
  }

  lemma SmallHasBigHas(small: Recency, big: Recency, k: string)
    requires DistinctKeys(small) && DistinctKeys(big) && small == Restrict(big, Keys(small))
    ensures Has(small, k) ==> Has(big, k) && Lookup(small, k) == Lookup(big, k)
  {
    if Has(small, k) {
      LookupHas(small, k);
      var v := Lookup(small, k).value;
      RestrictMember(big, Keys(small), Pair(k, v));
      LookupMember(big, k, v);
      LookupHas(big, k);
    }
  }

  lemma WithoutKeys(s: Recency, k: string)
    ensures Keys(Without(s, k)) == Keys(s) - {k}
  {
    forall j
      ensures j in Keys(Without(s, k)) <==> j in Keys(s) && j != k
    {
      if j in Keys(Without(s, k)) {
        var p :| p in Without(s, k) && p.key == j;
        WithoutMember(s, k, p);
      }
      if j in Keys(s) && j != k {
        var p :| p in s && p.key == j;
        WithoutMember(s, k, p);
      }
    }
  }

  lemma ForgetKeepsInclusion(small: Recency, big: Recency, c: nat, C: nat, k: string)
    requires c <= C && Included(small, big, c, C)
    ensures Included(Without(small, k), Without(big, k), c, C)
  {
    SmallHasBigHas(small, big, k);
    WithoutKey(small, k);
    WithoutKey(big, k);
    WithoutKeys(small, k);
    RestrictWithout(big, Keys(small), k);
    WithoutKey(Without(big, k), k);
    RestrictWithout(Without(big, k), Keys(small), k);
  }

  /** Moving or adding one pair at the recent end of both. */
  lemma AppendKeepsRestriction(small: Recency, big: Recency, k: string, v: string)
    requires DistinctKeys(small) && DistinctKeys(big) && small == Restrict(big, Keys(small))
    ensures var s1, b1 := Without(small, k) + [Pair(k, v)], Without(big, k) + [Pair(k, v)];
            DistinctKeys(s1) && DistinctKeys(b1) && s1 == Restrict(b1, Keys(s1))
  {
    var p := Pair(k, v);
    var s1, b1 := Without(small, k) + [p], Without(big, k) + [p];
    WithoutKey(small, k);
    WithoutKey(big, k);
    WithoutKeys(small, k);
    assert Keys(s1) == Keys(Without(small, k)) + {k};
    RestrictAppend(Without(big, k), [p], Keys(s1));
    RestrictWithout(big, Keys(small), k);
    assert Restrict([p], Keys(s1)) == [p];
    forall q | q in Without(big, k)
      ensures q.key in Keys(s1) <==> q.key in Keys(small)
    {
      WithoutMember(big, k, q);
    }
    RestrictSame(Without(big, k), Keys(s1), Keys(small));
  }

  lemma DropOldest(s: Recency)
    requires DistinctKeys(s) && s != []
    ensures s[1..] == Without(s, s[0].key) && DistinctKeys(s[1..])
    ensures Keys(s[1..]) == Keys(s) - {s[0].key}
  {
    WithoutKey(s[1..], s[0].key);
    WithoutKeys(s, s[0].key);
  }

  /** Dropping the oldest of the smaller one, and perhaps of the larger one too. */
  lemma DropKeepsRestriction(small: Recency, big: Recency)
    requires DistinctKeys(small) && DistinctKeys(big) && small == Restrict(big, Keys(small)) && small != []
    ensures big != []
    ensures small[1..] == Restrict(big, Keys(small[1..]))
    ensures small[1..] == Restrict(big[1..], Keys(small[1..]))
  {
    DropOldest(small);
    RestrictWithout(big, Keys(small), small[0].key);
  }

  lemma TrimKeepsInclusion(small: Recency, big: Recency, c: nat, C: nat)
    requires 0 < c <= C && DistinctKeys(small) && DistinctKeys(big) && small == Restrict(big, Keys(small))
    requires 0 < |small| <= c + 1 && |big| <= C + 1 && |big| - |small| <= C - c
    ensures Included(Newest(small, c), Newest(big, C), c, C)
  {
    DropKeepsRestriction(small, big);
    if |small| > c {
      assert Newest(small, c) == small[1..];
    }
    if |big| > C {
      assert Newest(big, C) == big[1..];
    }
  }

  lemma RememberSizes(small: Recency, big: Recency, c: nat, C: nat, k: string)
    requires c <= C && Included(small, big, c, C)
    ensures |Without(small, k)| <= c && |Without(big, k)| <= C
    ensures |Without(big, k)| - |Without(small, k)| <= C - c
  {
    WithoutKey(small, k);
    WithoutKey(big, k);
    SmallHasBigHas(small, big, k);
  }

  lemma {:induction false} NothingKept(s: Recency)
    ensures Restrict(s, {}) == []
  {
    if s != [] {
      NothingKept(s[1..]);
    }
  }

  lemma RememberKeepsInclusion(small: Recency, big: Recency, c: nat, C: nat, k: string, v: string)
    requires c <= C && Included(small, big, c, C)
    ensures Included(Remembered(small, c, k, Some(v)), Remembered(big, C, k, Some(v)), c, C)
  {
    AppendKeepsRestriction(small, big, k, v);
    RememberSizes(small, big, c, C, k);
    if c > 0 {
      TrimKeepsInclusion(Without(small, k) + [Pair(k, v)], Without(big, k) + [Pair(k, v)], c, C);
    } else if C > 0 {
      NothingKept(Remembered(big, C, k, Some(v)));
      assert Keys([]) == {};
    }
  }

  lemma ResolveKeepsInclusion(small: Recency, big: Recency, c: nat, C: nat, k: string)
    requires c <= C && Included(small, big, c, C)
    ensures Included(Touched(small, k), Touched(big, k), c, C)
  {
    LookupHas(small, k);
    LookupHas(big, k);
    SmallHasBigHas(small, big, k);
    WithoutKey(small, k);
    WithoutKey(big, k);
    if Has(big, k) {
      var v := Lookup(big, k).value;
      AppendKeepsRestriction(small, big, k, v);
      if !Has(small, k) {
        KeysMember(small, k);
        RestrictAppend(Without(big, k), [Pair(k, v)], Keys(small));
        RestrictWithout(big, Keys(small), k);
        assert Keys(small) - {k} == Keys(small);
      }
    }
  }

  /** Inclusion: for any run fed to two indexes of capacities c <= C, the smaller one holds, in the same
      order and with the same values, all but at most C - c of the pairs of the larger one. */
  lemma {:induction false} SmallerIsIncluded(c: nat, C: nat, events: seq<Event>)
    requires c <= C
    ensures Included(Run(c, events), Run(C, events), c, C)
  {
    if events != [] {
      var before, e := events[..|events| - 1], events[|events| - 1];
      SmallerIsIncluded(c, C, before);
      match e
      case Remember(k, v) =>
        if v.Some? {
          RememberKeepsInclusion(Run(c, before), Run(C, before), c, C, k, v.value);
        }
      case Resolve(k) => ResolveKeepsInclusion(Run(c, before), Run(C, before), c, C, k);
      case Forget(k) => ForgetKeepsInclusion(Run(c, before), Run(C, before), c, C, k);
      case Clear =>
    }
  }

  /** The mapping an index without any bound would hold. */
  function Plain(events: seq<Event>): map<string, string> {
    if events == [] then map[]
    else
      var m := Plain(events[..|events| - 1]);
      match events[|events| - 1]
      case Remember(k, v) => if v.Some? then m[k := v.value] else m
      case Resolve(_) => m
      case Forget(k) => m - {k}
      case Clear => map[]
  }

  /** All pairs of the unbounded mapping, ordered by when the bounded index last touched their key:
      being remembered is a touch, and so is a hit, but a miss is not. */
  function ByLastTouch(capacity: nat, events: seq<Event>): Recency {
    if events == [] then []
    else
      var before := events[..|events| - 1];
      var r := ByLastTouch(capacity, before);
      match events[|events| - 1]
      case Remember(k, v) => if v.Some? then Without(r, k) + [Pair(k, v.value)] else r
      case Resolve(k) =>
        if Has(Run(capacity, before), k) && k in Plain(before) then Without(r, k) + [Pair(k, Plain(before)[k])] else r
      case Forget(k) => Without(r, k)
      case Clear => []
  }

  ghost predicate SameMapping(s: Recency, m: map<string, string>) {
    && DistinctKeys(s)
    && forall k :: Lookup(s, k) == if k in m then Some(m[k]) else None
  }

  lemma {:induction false} LookupAppend(a: Recency, b: Recency, k: string)
    ensures Lookup(a + b, k) == if Lookup(b, k).Some? then Lookup(b, k) else Lookup(a, k)
  {
    if b == [] {
      assert a + b == a;
    } else {
      assert (a + b)[..|a + b| - 1] == a + b[..|b| - 1];
      LookupAppend(a, b[..|b| - 1], k);
    }
  }

  lemma {:induction false} LookupWithout(s: Recency, k: string, j: string)
    ensures Lookup(Without(s, k), j) == if j == k then None else Lookup(s, j)
  {
    if s != [] {
      LookupWithout(s[1..], k, j);
      assert s == [s[0]] + s[1..];
      LookupAppend([s[0]], s[1..], j);
      LookupAppend([s[0]], Without(s[1..], k), j);
    }
  }

  lemma MoveKeepsMapping(r: Recency, m: map<string, string>, k: string, v: string)
    requires SameMapping(r, m)
    ensures SameMapping(Without(r, k) + [Pair(k, v)], m[k := v])
  {
    WithoutKey(r, k);
    forall j
      ensures Lookup(Without(r, k) + [Pair(k, v)], j) == if j in m[k := v] then Some(m[k := v][j]) else None
    {
      LookupAppend(Without(r, k), [Pair(k, v)], j);
      LookupWithout(r, k, j);
    }
  }

  lemma ForgetKeepsMapping(r: Recency, m: map<string, string>, k: string)
    requires SameMapping(r, m)
    ensures SameMapping(Without(r, k), m - {k})
  {
    WithoutKey(r, k);
    forall j
      ensures Lookup(Without(r, k), j) == if j in m - {k} then Some((m - {k})[j]) else None
    {
      LookupWithout(r, k, j);
    }
  }

  /** The recency list holds exactly the unbounded mapping. */
  lemma {:induction false} ByLastTouchIsPlain(capacity: nat, events: seq<Event>)
    ensures SameMapping(ByLastTouch(capacity, events), Plain(events))
  {
    if events != [] {
      var before := events[..|events| - 1];
      ByLastTouchIsPlain(capacity, before);
      var r, m := ByLastTouch(capacity, before), Plain(before);
      match events[|events| - 1]
      case Remember(k, v) =>
        if v.Some? {
          MoveKeepsMapping(r, m, k, v.value);
        }
      case Resolve(k) =>
        if k in m {
          MoveKeepsMapping(r, m, k, m[k]);
          assert m[k := m[k]] == m;
        }
      case Forget(k) => ForgetKeepsMapping(r, m, k);
      case Clear =>
    }
  }

  predicate IsSuffix(s: Recency, r: Recency) {
    |s| <= |r| && s == r[|r| - |s|..]
  }

  lemma WithoutKeepsSuffix(s: Recency, r: Recency, k: string)
    requires IsSuffix(s, r)
    ensures IsSuffix(Without(s, k), Without(r, k))
  {
    var front := r[..|r| - |s|];
    assert r == front + s;
    WithoutAppend(front, s, k);
  }

  lemma AppendKeepsSuffix(s: Recency, r: Recency, p: Pair)
    requires IsSuffix(s, r)
    ensures IsSuffix(s + [p], r + [p])
  {
    assert r + [p] == r[..|r| - |s|] + (s + [p]);
  }

  lemma SuffixLookup(s: Recency, r: Recency, k: string)
    requires IsSuffix(s, r) && Has(s, k)
    ensures Lookup(r, k) == Lookup(s, k)
  {
    assert r == r[..|r| - |s|] + s;
    LookupAppend(r[..|r| - |s|], s, k);
    LookupHas(s, k);
  }

  /** The bounded index holds the most recently touched pairs of the unbounded mapping, and no others. */
  lemma {:induction false} SurvivorsAreMostRecent(capacity: nat, events: seq<Event>)
    ensures IsSuffix(Run(capacity, events), ByLastTouch(capacity, events))
  {
    if events != [] {
      var before, e := events[..|events| - 1], events[|events| - 1];
      SurvivorsAreMostRecent(capacity, before);
      var s, r := Run(capacity, before), ByLastTouch(capacity, before);
      match e
      case Remember(k, v) =>
        if v.Some? {
          WithoutKeepsSuffix(s, r, k);
          AppendKeepsSuffix(Without(s, k), Without(r, k), Pair(k, v.value));
          if capacity == 0 {
            RunIsValid(capacity, before);
          }
        }
      case Resolve(k) =>
        LookupHas(s, k);
        if Has(s, k) {
          ByLastTouchIsPlain(capacity, before);
          SuffixLookup(s, r, k);
          WithoutKeepsSuffix(s, r, k);
          AppendKeepsSuffix(Without(s, k), Without(r, k), Pair(k, Lookup(s, k).value));
        }
      case Forget(k) => WithoutKeepsSuffix(s, r, k);
      case Clear =>
    }
  }

  /** After any run, `resolve` answers the last engine id remembered for a surviving key, else the id
      itself when it is recognised, else nothing; never another pairing. */
  lemma ResolveNeverLies(capacity: nat, events: seq<Event>, recognises: string -> bool, k: string)
    ensures Resolution(Run(capacity, events), recognises, k) ==
            if Has(Run(capacity, events), k) then (if k in Plain(events) then Some(Plain(events)[k]) else None)
            else if recognises(k) then Some(k) else None
    ensures Has(Run(capacity, events), k) ==> k in Plain(events)
  {
    var s := Run(capacity, events);
    SurvivorsAreMostRecent(capacity, events);
    ByLastTouchIsPlain(capacity, events);
    LookupHas(s, k);
    if Has(s, k) {
      SuffixLookup(s, ByLastTouch(capacity, events), k);
    }
  }

  /** Without a forget or a clear, nothing is dropped before the index is full. */
  lemma {:induction false} FullBeforeDropping(capacity: nat, events: seq<Event>)
    requires capacity > 0
    requires forall i :: 0 <= i < |events| ==> !events[i].Forget? && !events[i].Clear?
    ensures var n := |ByLastTouch(capacity, events)|;
            |Run(capacity, events)| == if n <= capacity then n else capacity
  {
    if events != [] {
      var before, e := events[..|events| - 1], events[|events| - 1];
      FullBeforeDropping(capacity, before);
      RunIsValid(capacity, before);
      ByLastTouchIsPlain(capacity, before);
      SurvivorsAreMostRecent(capacity, before);
      var s, r := Run(capacity, before), ByLastTouch(capacity, before);
      WithoutKey(s, e.k);
      WithoutKey(r, e.k);
      LookupHas(s, e.k);
      LookupHas(r, e.k);
      if Has(s, e.k) {
        SuffixLookup(s, r, e.k);
      }
      if |r| <= capacity {
        assert s == r;
      }
    }
  }

  /** What a resolution does to the index: a hit makes the pairing, with the value last remembered, the most
      recent one and leaves the others as they are; a miss changes nothing. */
  lemma HitIsATouch(capacity: nat, events: seq<Event>, k: string)
    ensures var s, s' := Run(capacity, events), Run(capacity, events + [Resolve(k)]);
            if Has(s, k) then
              && k in Plain(events) && s' != [] && s'[|s'| - 1] == Pair(k, Plain(events)[k])
              && s'[..|s'| - 1] == Without(s, k) && |s'| == |s|
            else s' == s
  {
    assert (events + [Resolve(k)])[..|events|] == events;
    var s := Run(capacity, events);
    RunIsValid(capacity, events);
    ResolveNeverLies(capacity, events, _ => false, k);
    LookupHas(s, k);
    WithoutKey(s, k);
  }

  /** The order of the pairs that stay is the order they had. */
  lemma {:induction false} WithoutKeepsOrder(s: Recency, k: string, age: string -> int)
    requires forall i, j :: 0 <= i < j < |s| ==> age(s[i].key) < age(s[j].key)
    ensures var t := Without(s, k); forall i, j :: 0 <= i < j < |t| ==> age(t[i].key) < age(t[j].key)
  {
    if s != [] {
      var rest := s[1..];
      WithoutKeepsOrder(rest, k, age);
      var w := Without(rest, k);
      forall j | 0 <= j < |w|
        ensures age(s[0].key) < age(w[j].key)
      {
        WithoutMember(rest, k, w[j]);
        var i :| 0 <= i < |rest| && rest[i] == w[j];
        assert rest[i] == s[i + 1];
      }
    }
  }

  /** Whether an event touches a key: it is remembered, or resolved while the index holds it. */
  predicate Touches(capacity: nat, before: seq<Event>, e: Event, k: string) {
    || (e.Remember? && e.k == k && e.v.Some?)
    || (e.Resolve? && e.k == k && Has(Run(capacity, before), k))
  }

  /** The position of the last event that touched a key. */
  function LastTouch(capacity: nat, events: seq<Event>, k: string): int {
    var n := |events| - 1;
    if n < 0 || Touches(capacity, events[..n], events[n], k) then n else LastTouch(capacity, events[..n], k)
  }

  lemma {:induction false} LastTouchIsTheLast(capacity: nat, events: seq<Event>, k: string)
    ensures var t := LastTouch(capacity, events, k);
            && -1 <= t < |events|
            && (t >= 0 ==> Touches(capacity, events[..t], events[t], k))
            && forall i :: t < i < |events| ==> !Touches(capacity, events[..i], events[i], k)
  {
    var n := |events| - 1;
    if n >= 0 && !Touches(capacity, events[..n], events[n], k) {
      var front := events[..n];
      LastTouchIsTheLast(capacity, front, k);
      forall i | 0 <= i < n
        ensures front[..i] == events[..i] && front[i] == events[i]
      {
      }
    }
  }

  ghost predicate Aged(s: Recency, capacity: nat, events: seq<Event>) {
    forall i, j :: 0 <= i < j < |s| ==> LastTouch(capacity, events, s[i].key) < LastTouch(capacity, events, s[j].key)
  }

  lemma AgedWithout(s: Recency, capacity: nat, events: seq<Event>, k: string)
    requires Aged(s, capacity, events)
    ensures Aged(Without(s, k), capacity, events)
  {
    WithoutKeepsOrder(s, k, j => LastTouch(capacity, events, j));
  }

  lemma NextLastTouch(capacity: nat, before: seq<Event>, e: Event, k: string)
    ensures LastTouch(capacity, before + [e], k)
         == if Touches(capacity, before, e, k) then |before| else LastTouch(capacity, before, k)
  {
    assert (before + [e])[..|before|] == before;
  }

  /** One event later: the untouched keep their ages, and the touched one is the youngest. */
  lemma AgedMove(s: Recency, capacity: nat, before: seq<Event>, e: Event, k: string, v: string)
    requires Aged(s, capacity, before) && DistinctKeys(s)
    requires forall j :: Touches(capacity, before, e, j) <==> j == k
    ensures Aged(Without(s, k) + [Pair(k, v)], capacity, before + [e])
  {
    var events, rest := before + [e], Without(s, k);
    AgedWithout(s, capacity, before, k);
    WithoutKey(s, k);
    forall i | 0 <= i < |rest|
      ensures LastTouch(capacity, events, rest[i].key) == LastTouch(capacity, before, rest[i].key) < |before|
    {
      assert rest[i].key != k;
      LastTouchIsTheLast(capacity, before, rest[i].key);
      NextLastTouch(capacity, before, e, rest[i].key);
    }
    NextLastTouch(capacity, before, e, k);
  }

  lemma AgedStay(s: Recency, capacity: nat, before: seq<Event>, e: Event)
    requires Aged(s, capacity, before)
    requires forall j :: !Touches(capacity, before, e, j)
    ensures Aged(s, capacity, before + [e])
  {
    forall i | 0 <= i < |s|
      ensures LastTouch(capacity, before + [e], s[i].key) == LastTouch(capacity, before, s[i].key)
    {
      NextLastTouch(capacity, before, e, s[i].key);
    }
  }

  /** The recency list is in the order of the last touches. */
  lemma {:induction false} ByLastTouchIsAged(capacity: nat, events: seq<Event>)
    ensures Aged(ByLastTouch(capacity, events), capacity, events)
  {
    if events != [] {
      var before, e := events[..|events| - 1], events[|events| - 1];
      assert events == before + [e];
      ByLastTouchIsAged(capacity, before);
      ByLastTouchIsPlain(capacity, before);
      var r := ByLastTouch(capacity, before);
      match e
      case Remember(k, v) =>
        if v.Some? {
          AgedMove(r, capacity, before, e, k, v.value);
        } else {
          AgedStay(r, capacity, before, e);
        }
      case Resolve(k) =>
        ResolveNeverLies(capacity, before, _ => false, k);
        if Has(Run(capacity, before), k) {
          AgedMove(r, capacity, before, e, k, Plain(before)[k]);
        } else {
          AgedStay(r, capacity, before, e);
        }
      case Forget(k) =>
        AgedWithout(r, capacity, before, k);
        AgedStay(Without(r, k), capacity, before, e);
      case Clear =>
    }
  }

  lemma InSuffixOrBefore(s: Recency, r: Recency, k: string) returns (i: nat)
    requires IsSuffix(s, r) && Has(r, k)
    ensures i < |r| && r[i].key == k && (i >= |r| - |s| ==> Has(s, k))
  {
    i :| 0 <= i < |r| && r[i].key == k;
    if i >= |r| - |s| {
      assert s[i - (|r| - |s|)] == r[i];
    }
  }

  lemma InSuffix(s: Recency, r: Recency, k: string) returns (i: nat)
    requires IsSuffix(s, r) && Has(s, k)
    ensures |r| - |s| <= i < |r| && r[i].key == k
  {
    var j :| 0 <= j < |s| && s[j].key == k;
    i := |r| - |s| + j;
  }

  lemma KnownIsListed(capacity: nat, events: seq<Event>, k: string)
    requires k in Plain(events)
    ensures Has(ByLastTouch(capacity, events), k)
  {
    ByLastTouchIsPlain(capacity, events);
    LookupHas(ByLastTouch(capacity, events), k);
  }

  /** Least recently used goes first: whatever the bounded index has lost of the unbounded mapping was last
      touched before anything that it still holds. */
  lemma EvictedIsLeastRecent(capacity: nat, events: seq<Event>, lost: string, held: string)
    requires lost in Plain(events) && !Has(Run(capacity, events), lost) && Has(Run(capacity, events), held)
    ensures LastTouch(capacity, events, lost) < LastTouch(capacity, events, held)
  {
    SurvivorsAreMostRecent(capacity, events);
    KnownIsListed(capacity, events, lost);
    var a := InSuffixOrBefore(Run(capacity, events), ByLastTouch(capacity, events), lost);
    var b := InSuffix(Run(capacity, events), ByLastTouch(capacity, events), held);
    ByLastTouchIsAged(capacity, events);
  }
}
