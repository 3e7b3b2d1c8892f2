/** The bounded history that the thread and process backends keep: a table of entries and the
    submission order that decides which entry is dropped next. */
module History {
  import opened Executions

  datatype Table<+E> = Table(entries: map<Id, E>, order: seq<Id>)

  /** The keys pushed out of the front when at most `history` may stay. */
  function Evicted(order: seq<Id>, history: nat): seq<Id> {
    if |order| <= history then [] else order[..|order| - history]
  }

  function Kept(order: seq<Id>, history: nat): seq<Id> {
    if |order| <= history then order else order[|order| - history..]
  }

  /** Appends a key and evicts from the front; the key being added is never dropped from the entries. */
  function Remember<E>(t: Table<E>, key: Id, history: nat): Table<E> {
    var gone := Evicted(t.order + [key], history);
    Table(map k | k in t.entries && (k == key || k !in gone) :: t.entries[k],
          Kept(t.order + [key], history))
  }

  /** The eviction loop that both backends run under their lock. */
  method RememberLocked<E>(t: Table<E>, key: Id, history: nat) returns (t': Table<E>)
    ensures t' == Remember(t, key, history)
  {
    var entries, order := t.entries, t.order + [key];
    ghost var appended, n := order, 0;
    while |order| > history
      invariant n <= |appended| && (n > 0 ==> |order| >= history)
      invariant order == appended[n..]
      invariant entries == map k | k in t.entries && (k == key || k !in appended[..n]) :: t.entries[k]
      decreases |order|
    {
      var evicted := order[0];
      order := order[1..];
      assert appended[..n + 1] == appended[..n] + [evicted];
      if evicted != key {
        entries := entries - {evicted};
      }
      n := n + 1;
    }
    return Table(entries, order);
  }

  function Register<E>(t: Table<E>, key: Id, e: E, history: nat): Table<E> {
    Remember(t.(entries := t.entries[key := e]), key, history)
  }

  predicate Distinct<T(==)>(s: seq<T>) {
    forall i, j :: 0 <= i < j < |s| ==> s[i] != s[j]
  }

  function Elements<T>(s: seq<T>): set<T> {
    set x | x in s
  }

  lemma {:induction false} DistinctSize<T>(s: seq<T>)
    requires Distinct(s)
    ensures |Elements(s)| == |s|
  {
    if s != [] {
      var front, last := s[..|s| - 1], s[|s| - 1];
      DistinctSize(front);
      assert Elements(s) == Elements(front) + {last};
      assert last !in front;
    }
  }

  /** How a table and the list of all ids ever submitted hang together. */
  ghost predicate IsRing<E>(t: Table<E>, submitted: seq<Id>, history: nat) {
    && Distinct(submitted)
    && t.order == Kept(submitted, history)
    && t.entries.Keys == Elements(if history == 0 then submitted else t.order)
  }

  lemma DistinctHalves<T>(front: seq<T>, back: seq<T>)
    requires Distinct(front + back)
    ensures Elements(back) == Elements(front + back) - Elements(front)
  {
    var whole := front + back;
    forall x | x in back
      ensures x in whole && x !in front
    {
      var j :| 0 <= j < |back| && back[j] == x;
      assert whole[|front| + j] == x;
      assert forall i :: 0 <= i < |front| ==> whole[i] == front[i];
    }
  }

  lemma AppendKeepsDistinct<T>(s: seq<T>, x: T)
    requires Distinct(s) && x !in s
    ensures Distinct(s + [x]) && Elements(s + [x]) == Elements(s) + {x}
  {
    assert forall y :: y in s + [x] <==> y in s || y == x;
  }

  lemma KeptOfKept(s: seq<Id>, key: Id, history: nat)
    ensures Kept(s + [key], history) == Kept(Kept(s, history) + [key], history)
  {
  }

  lemma KeptIsDistinct(s: seq<Id>, history: nat)
    requires Distinct(s)
    ensures Distinct(Kept(s, history))
    ensures forall x :: x in Kept(s, history) ==> x in s
  {
  }

  lemma RegisteredKeys<E>(t: Table<E>, key: Id, e: E, history: nat)
    ensures Register(t, key, e, history).entries.Keys ==
            (t.entries.Keys - Elements(Evicted(t.order + [key], history))) + {key}
  {
  }

  /** With a positive history, the keys stay those of the order. */
  lemma RegisteredInOrder<E>(t: Table<E>, key: Id, e: E, history: nat)
    requires history > 0 && Distinct(t.order + [key]) && t.entries.Keys == Elements(t.order)
    ensures Register(t, key, e, history).entries.Keys == Elements(Kept(t.order + [key], history))
  {
    var appended := t.order + [key];
    var gone, kept := Evicted(appended, history), Kept(appended, history);
    RegisteredKeys(t, key, e, history);
    assert gone + kept == appended;
    DistinctHalves(gone, kept);
    assert Elements(appended) == Elements(t.order) + {key};
    assert kept[|kept| - 1] == key;
  }

  lemma RegisterKeepsRing<E>(t: Table<E>, submitted: seq<Id>, key: Id, e: E, history: nat)
    requires IsRing(t, submitted, history) && key !in submitted
    ensures IsRing(Register(t, key, e, history), submitted + [key], history)
  {
    KeptIsDistinct(submitted, history);
    AppendKeepsDistinct(submitted, key);
    KeptOfKept(submitted, key, history);
    if history > 0 {
      AppendKeepsDistinct(t.order, key);
      RegisteredInOrder(t, key, e, history);
    } else {
      RegisteredKeys(t, key, e, history);
    }
  }

  /** The table holds the last `history` submissions, unless the history is zero: then every
      submission ever made stays in it, so the bound holds exactly for a positive history. */
  lemma RingSize<E>(t: Table<E>, submitted: seq<Id>, history: nat)
    requires IsRing(t, submitted, history)
    ensures |t.entries| == if history == 0 then |submitted| else if |submitted| <= history then |submitted| else history
    ensures |t.entries| <= history <==> history >= 1 || submitted == []
  {
    DistinctSize(if history == 0 then submitted else t.order);
    assert |t.entries| == |t.entries.Keys|;
  }

  /** At history zero, concretely: an entry that is registered stays, although the order is empty again. */
  lemma ZeroHistoryKeepsTheEntry<E>(key: Id, e: E)
    ensures Register(Table(map[], []), key, e, 0) == Table(map[key := e], [])
  {
    assert [] + [key] == [key];
  }

  /** What is kept, in plain words: the last ids, as many as the history allows, in their order. */
  lemma KeptInPlain(submitted: seq<Id>, history: nat)
    ensures var kept := Kept(submitted, history);
            && |kept| == (if |submitted| <= history then |submitted| else history)
            && kept == submitted[|submitted| - |kept|..]
  {
  }

  lemma ElementsAppend<T>(s: seq<T>, x: T)
    ensures Elements(s + [x]) == Elements(s) + {x}
  {
    assert forall y :: y in s + [x] <==> y in s || y == x;
  }

  lemma RegisterAddsAtMostTheKey<E>(t: Table<E>, key: Id, e: E, history: nat)
    ensures Register(t, key, e, history).entries.Keys <= t.entries.Keys + {key}
  {
  }
}
