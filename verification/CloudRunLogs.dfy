/** Following a Cloud Run execution's log: each poll lists entries from an inclusive time watermark
    on, and a set of insert ids filters what was already yielded. */
module CloudRunLogs {
  import opened Executions

  /** `time` is in nanoseconds; a payload without text has none. */
  datatype LogEntry = LogEntry(insertId: string, time: nat, text: Option<string>)

  /** The filter's timestamp has microseconds only. */
  function RoundDown(time: nat): nat {
    time - time % 1000
  }

  datatype Reader = Reader(seen: set<string>, since: Option<nat>, lines: seq<string>)

  const NEW_READER: Reader := Reader({}, None, [])

  predicate Passes(e: LogEntry, since: Option<nat>) {
    since.None? || e.time >= since.value
  }

  /** What the server answers: the entries it holds from the watermark on, in its order. */
  function Listed(held: seq<LogEntry>, since: Option<nat>): seq<LogEntry> {
    if held == [] then []
    else Listed(held[..|held| - 1], since) + if Passes(held[|held| - 1], since) then [held[|held| - 1]] else []
  }

  /** Whether the filter takes the entry for one that was yielded already. */
  predicate Skips(r: Reader, e: LogEntry) {
    e.insertId != "" && e.insertId in r.seen
  }

  function Take(r: Reader, e: LogEntry): Reader {
    if Skips(r, e) then r
    else Reader(if e.insertId != "" then r.seen + {e.insertId} else r.seen,
                Some(RoundDown(e.time)),
                if e.text.Some? then r.lines + [e.text.value] else r.lines)
  }

  function TakeAll(r: Reader, entries: seq<LogEntry>): Reader {
    if entries == [] then r else Take(TakeAll(r, entries[..|entries| - 1]), entries[|entries| - 1])
  }

  /** One poll: what the server holds when it lists, what it holds when it is then asked whether the
      execution is over, the answer, and whether the time is up; or the server's answer that there is no
      such log; or any other failure. */
  datatype Poll = Holds(held: seq<LogEntry>, atCheck: seq<LogEntry>, terminal: bool, expired: bool) | Missing | Broken

  function AfterPoll(r: Reader, p: Poll): Reader {
    if p.Holds? then TakeAll(r, Listed(p.held, r.since)) else r
  }

  function After(polls: seq<Poll>): Reader {
    if polls == [] then NEW_READER else AfterPoll(After(polls[..|polls| - 1]), polls[|polls| - 1])
  }

  /** A poll ends the stream if it fails, or yields nothing new when there is no reason to go on. */
  predicate Ends(r: Reader, p: Poll, follow: bool) {
    match p
    case Holds(_, _, terminal, expired) =>
      |AfterPoll(r, p).lines| == |r.lines| && (!follow || terminal || expired)
    case _ => true
  }

  datatype Ending = StillOpen | Finished | Erred

  /** The inner loop: one page of entries through the seen-set. */
  method ReadPage(r: Reader, entries: seq<LogEntry>) returns (r': Reader)
    ensures r' == TakeAll(r, entries)
  {
    var seen, since, lines := r.seen, r.since, r.lines;
    for i := 0 to |entries|
      invariant Reader(seen, since, lines) == TakeAll(r, entries[..i])
    {
      assert entries[..i + 1][..i] == entries[..i];
      var entry := entries[i];
      if entry.insertId != "" && entry.insertId in seen {
        continue;
      }
      if entry.insertId != "" {
        seen := seen + {entry.insertId};
      }
      since := Some(RoundDown(entry.time));
      if entry.text.Some? {
        lines := lines + [entry.text.value];
      }
    }
    assert entries[..|entries|] == entries;
    return Reader(seen, since, lines);
  }

  lemma AfterStep(polls: seq<Poll>, i: nat)
    requires i < |polls|
    ensures After(polls[..i + 1]) == AfterPoll(After(polls[..i]), polls[i])
  {
    assert polls[..i + 1][..i] == polls[..i];
  }

  /** The entries a reader does not skip. */
  function Taken(r: Reader, entries: seq<LogEntry>): seq<LogEntry> {
    if entries == [] then []
    else
      var front, last := entries[..|entries| - 1], entries[|entries| - 1];
      Taken(r, front) + if Skips(TakeAll(r, front), last) then [] else [last]
  }

  /** The entries that a poll yields, as far as they have text. */
  function Yields(r: Reader, p: Poll): seq<LogEntry> {
    if p.Holds? then Taken(r, Listed(p.held, r.since)) else []
  }

  ghost predicate YieldsText(r: Reader, p: Poll) {
    exists e :: e in Yields(r, p) && e.text.Some?
  }

  function Texts(held: seq<LogEntry>): seq<string> {
    if held == [] then []
    else
      var last := held[|held| - 1];
      Texts(held[..|held| - 1]) + if last.text.Some? then [last.text.value] else []
  }

  lemma TextsNext(entries: seq<LogEntry>, e: LogEntry)
    ensures Texts(entries + [e]) == Texts(entries) + if e.text.Some? then [e.text.value] else []
  {
    assert (entries + [e])[..|entries|] == entries;
  }

  lemma TakeLines(r: Reader, e: LogEntry, lines: seq<string>, taken: seq<LogEntry>)
    requires r.lines == lines + Texts(taken)
    ensures Take(r, e).lines == lines + Texts(taken + if Skips(r, e) then [] else [e])
  {
    if Skips(r, e) {
      assert taken + [] == taken;
    } else {
      TextsNext(taken, e);
      if e.text.Some? {
        assert lines + Texts(taken) + [e.text.value] == lines + (Texts(taken) + [e.text.value]);
      }
    }
  }

  lemma {:induction false} TakenLines(r: Reader, entries: seq<LogEntry>)
    ensures TakeAll(r, entries).lines == r.lines + Texts(Taken(r, entries))
  {
    if entries == [] {
      assert r.lines + [] == r.lines;
    } else {
      var front := entries[..|entries| - 1];
      TakenLines(r, front);
      TakeLines(TakeAll(r, front), entries[|entries| - 1], r.lines, Taken(r, front));
    }
  }

  /** What a poll adds to the lines are the texts of what it yields. */
  lemma YieldsAreTheLines(r: Reader, p: Poll)
    ensures AfterPoll(r, p).lines == r.lines + Texts(Yields(r, p))
  {
    if p.Holds? {
      TakenLines(r, Listed(p.held, r.since));
    }
  }

  lemma {:induction false} TextedMember(entries: seq<LogEntry>, e: LogEntry)
    requires e in entries && e.text.Some?
    ensures Texts(entries) != []
  {
    if entries[|entries| - 1] != e {
      assert entries == entries[..|entries| - 1] + [entries[|entries| - 1]];
      TextedMember(entries[..|entries| - 1], e);
    }
  }

  lemma {:induction false} NoTexts(entries: seq<LogEntry>)
    ensures Texts(entries) == [] <==> forall i :: 0 <= i < |entries| ==> entries[i].text.None?
  {
    if entries != [] {
      NoTexts(entries[..|entries| - 1]);
    }
  }

  /** When a poll ends the stream: if it fails; or if it yields no text and there is no following, or the
      execution is over, or the time is up. */
  lemma EndsInPlain(r: Reader, p: Poll, follow: bool)
    ensures Ends(r, p, follow) <==>
            !p.Holds? || (!YieldsText(r, p) && (!follow || p.terminal || p.expired))
  {
    YieldsAreTheLines(r, p);
    NoTexts(Yields(r, p));
    if YieldsText(r, p) {
      var e :| e in Yields(r, p) && e.text.Some?;
      TextedMember(Yields(r, p), e);
    }
  }

  /** Each of the first `n` polls answers, and yields text, or leaves the execution running, the time not up,
      and is to be followed by another. */
  ghost predicate Unfinished(polls: seq<Poll>, n: nat, follow: bool)
    requires n <= |polls|
  {
    forall i {:trigger polls[i]} :: 0 <= i < n ==>
      && polls[i].Holds?
      && (YieldsText(After(polls[..i]), polls[i]) || (follow && !polls[i].terminal && !polls[i].expired))
  }

  lemma OneMoreUnfinished(polls: seq<Poll>, n: nat, follow: bool)
    requires n < |polls| && Unfinished(polls, n, follow) && !Ends(After(polls[..n]), polls[n], follow)
    ensures Unfinished(polls, n + 1, follow)
  {
    EndsInPlain(After(polls[..n]), polls[n], follow);
  }

  /** The loop of the stream, over what its polls meet. It stops at the first poll that fails, or yields no text
      when there is no following, the execution is over, or the time is up; and at no other. */
  method StreamLogs(polls: seq<Poll>, follow: bool) returns (lines: seq<string>, used: nat, ending: Ending)
    ensures used <= |polls| && lines == After(polls[..used]).lines
    ensures match ending
            case StillOpen => used == |polls| && Unfinished(polls, used, follow)
            case Erred => used > 0 && Unfinished(polls, used - 1, follow) && polls[used - 1].Broken?
            case Finished =>
              && used > 0 && Unfinished(polls, used - 1, follow) && !polls[used - 1].Broken?
              && (polls[used - 1].Holds? ==>
                    && !YieldsText(After(polls[..used - 1]), polls[used - 1])
                    && (!follow || polls[used - 1].terminal || polls[used - 1].expired))
  {
    used := 0;
    var reader := NEW_READER;
    while used < |polls|
      invariant 0 <= used <= |polls|
      invariant reader == After(polls[..used])
      invariant Unfinished(polls, used, follow)
    {
      AfterStep(polls, used);
      EndsInPlain(reader, polls[used], follow);
      var poll := polls[used];
      if !Ends(reader, poll, follow) {
        OneMoreUnfinished(polls, used, follow);
      }
      used := used + 1;
      match poll
      case Missing => return reader.lines, used, Finished;
      case Broken => return reader.lines, used, Erred;
      case Holds(held, _, terminal, expired) =>
        var yielded := |reader.lines|;
        reader := ReadPage(reader, Listed(held, reader.since));
        if |reader.lines| == yielded && (!follow || terminal || expired) {
          return reader.lines, used, Finished;
        }
    }
    return reader.lines, used, StillOpen;
  }

  predicate Sorted(held: seq<LogEntry>) {
    forall i, j :: 0 <= i <= j < |held| ==> held[i].time <= held[j].time
  }

  /** Distinct, nonempty insert ids. */
  predicate Identified(held: seq<LogEntry>) {
    && (forall i :: 0 <= i < |held| ==> held[i].insertId != "")
    && (forall i, j :: 0 <= i < j < |held| ==> held[i].insertId != held[j].insertId)
  }

  function Ids(held: seq<LogEntry>): set<string> {
    set e | e in held :: e.insertId
  }

  /** The reader that has taken exactly the first entries of a log. */
  function Caught(log: seq<LogEntry>): Reader {
    Reader(Ids(log), if log == [] then None else Some(RoundDown(log[|log| - 1].time)), Texts(log))
  }

  lemma {:induction false} ListedMember(held: seq<LogEntry>, since: Option<nat>, e: LogEntry)
    ensures e in Listed(held, since) <==> e in held && Passes(e, since)
  {
    if held != [] {
      ListedMember(held[..|held| - 1], since, e);
      assert held == held[..|held| - 1] + [held[|held| - 1]];
    }
  }

  /** Re-reading the old part of a log, from its own watermark, takes nothing. */
  lemma {:induction false} NothingFromOld(r: Reader, entries: seq<LogEntry>)
    requires forall e :: e in entries ==> e.insertId != "" && e.insertId in r.seen
    ensures TakeAll(r, entries) == r
  {
    if entries != [] {
      assert entries[|entries| - 1] in entries;
      NothingFromOld(r, entries[..|entries| - 1]);
    }
  }

  lemma PrefixStep(log: seq<LogEntry>, m: nat)
    requires 0 < m <= |log|
    ensures log[..m][..m - 1] == log[..m - 1] && log[..m] == log[..m - 1] + [log[m - 1]]
  {
  }

  /** The next entry of a log takes a caught-up reader one entry further. */
  lemma TakeNext(log: seq<LogEntry>, m: nat)
    requires 0 < m <= |log| && Identified(log)
    ensures Take(Caught(log[..m - 1]), log[m - 1]) == Caught(log[..m])
  {
    PrefixStep(log, m);
    assert log[m - 1].insertId !in Ids(log[..m - 1]);
    assert Ids(log[..m]) == Ids(log[..m - 1]) + {log[m - 1].insertId};
  }

  lemma RereadTakesNothing(log: seq<LogEntry>, n: nat)
    requires n <= |log| && Identified(log)
    ensures TakeAll(Caught(log[..n]), Listed(log[..n], Caught(log[..n]).since)) == Caught(log[..n])
  {
    var r := Caught(log[..n]);
    forall e | e in Listed(log[..n], r.since)
      ensures e.insertId != "" && e.insertId in r.seen
    {
      ListedMember(log[..n], r.since, e);
    }
    NothingFromOld(r, Listed(log[..n], r.since));
  }

  lemma ListedNext(log: seq<LogEntry>, m: nat, since: Option<nat>)
    requires 0 < m <= |log| && Passes(log[m - 1], since)
    ensures Listed(log[..m], since) == Listed(log[..m - 1], since) + [log[m - 1]]
  {
    PrefixStep(log, m);
  }

  /** Reading on to the entry number `m` of a log of which the first `n` were taken already. */
  lemma {:induction false} ReadOn(log: seq<LogEntry>, n: nat, m: nat)
    requires n <= m <= |log| && Sorted(log) && Identified(log)
    ensures TakeAll(Caught(log[..n]), Listed(log[..m], Caught(log[..n]).since)) == Caught(log[..m])
    decreases m
  {
    if m == n {
      RereadTakesNothing(log, n);
    } else {
      var since := Caught(log[..n]).since;
      ReadOn(log, n, m - 1);
      ListedNext(log, m, since);
      var listed := Listed(log[..m - 1], since);
      assert (listed + [log[m - 1]])[..|listed|] == listed;
      TakeNext(log, m);
    }
  }

  /** Polls that each see a growing prefix of one log. */
  ghost predicate SeesGrowing(polls: seq<Poll>, log: seq<LogEntry>, counts: seq<nat>) {
    && |counts| == |polls|
    && (forall i :: 0 <= i < |polls| ==>
          counts[i] <= |log| && polls[i].Holds? && polls[i].held == log[..counts[i]])
    && (forall i, j :: 0 <= i <= j < |counts| ==> counts[i] <= counts[j])
  }

  /** Entries that arrive in time order, with distinct insert ids, are each yielded exactly once and in
      order, however they are grouped into polls; everything up to the watermark is in the seen-set. */
  lemma {:induction false} ExactlyOnceInOrder(polls: seq<Poll>, log: seq<LogEntry>, counts: seq<nat>)
    requires Sorted(log) && Identified(log) && SeesGrowing(polls, log, counts)
    ensures After(polls) == Caught(log[..if polls == [] then 0 else counts[|counts| - 1]])
  {
    if polls != [] {
      var n := |polls| - 1;
      ExactlyOnceInOrder(polls[..n], log, counts[..n]);
      ReadOn(log, if n == 0 then 0 else counts[n - 1], counts[n]);
      if n == 0 {
        assert log[..0] == [];
      }
    }
  }

  lemma {:induction false} TakingKeepsWatermark(r: Reader, entries: seq<LogEntry>, since: Option<nat>)
    requires forall e :: e in entries ==> Passes(e, since)
    requires since.Some? ==> since.value % 1000 == 0 && r.since.Some? && since.value <= r.since.value
    requires r.since.Some? ==> r.since.value % 1000 == 0
    ensures var r' := TakeAll(r, entries);
            && (since.Some? ==> r'.since.Some? && since.value <= r'.since.value)
            && (r'.since.Some? ==> r'.since.value % 1000 == 0)
  {
    if entries != [] {
      var e := entries[|entries| - 1];
      assert e in entries;
      TakingKeepsWatermark(r, entries[..|entries| - 1], since);
    }
  }

  /** With or without insert ids, a server that answers in time order never moves the watermark back. */
  lemma WatermarkNeverGoesBack(r: Reader, p: Poll)
    requires p.Holds? ==> Sorted(p.held)
    requires r.since.Some? ==> r.since.value % 1000 == 0
    ensures r.since.Some? ==> AfterPoll(r, p).since.Some? && r.since.value <= AfterPoll(r, p).since.value
    ensures AfterPoll(r, p).since.Some? ==> AfterPoll(r, p).since.value % 1000 == 0
  {
    if p.Holds? {
      forall e | e in Listed(p.held, r.since)
        ensures Passes(e, r.since)
      {
        ListedMember(p.held, r.since, e);
      }
      TakingKeepsWatermark(r, Listed(p.held, r.since), r.since);
    }
  }

  lemma {:induction false} TakenIds(r: Reader, entries: seq<LogEntry>)
    ensures TakeAll(r, entries).seen == r.seen + (Ids(entries) - {""})
  {
    if entries != [] {
      TakenIds(r, entries[..|entries| - 1]);
      assert entries == entries[..|entries| - 1] + [entries[|entries| - 1]];
    }
  }

  /** Which entries a poll picks up: exactly those not below the watermark. One that shows up late, with a
      time below it, is passed over. */
  lemma PickedUpIffNotBelow(r: Reader, p: Poll, e: LogEntry)
    requires p.Holds? && e in p.held && Identified(p.held) && e.insertId !in r.seen
    ensures e.insertId in AfterPoll(r, p).seen <==> Passes(e, r.since)
  {
    var listed := Listed(p.held, r.since);
    TakenIds(r, listed);
    ListedMember(p.held, r.since, e);
    if e.insertId in Ids(listed) {
      var f :| f in listed && f.insertId == e.insertId;
      ListedMember(p.held, r.since, f);
    }
  }

  function Resumed(r: Reader, polls: seq<Poll>): Reader {
    if polls == [] then r else AfterPoll(Resumed(r, polls[..|polls| - 1]), polls[|polls| - 1])
  }

  /** An entry passed over once is lost for good, since the watermark never goes back. */
  lemma {:induction false} LateEntryIsLost(r: Reader, polls: seq<Poll>, e: LogEntry)
    requires r.since.Some? && r.since.value % 1000 == 0 && e.time < r.since.value && e.insertId !in r.seen
    requires forall p :: p in polls ==> p.Holds? && Sorted(p.held) && Identified(p.held) && e in p.held
    ensures e.insertId !in Resumed(r, polls).seen
    ensures Resumed(r, polls).since.Some? && r.since.value <= Resumed(r, polls).since.value
    ensures Resumed(r, polls).since.value % 1000 == 0
  {
    if polls != [] {
      var before := Resumed(r, polls[..|polls| - 1]);
      assert polls[|polls| - 1] in polls;
      LateEntryIsLost(r, polls[..|polls| - 1], e);
      WatermarkNeverGoesBack(before, polls[|polls| - 1]);
      PickedUpIffNotBelow(before, polls[|polls| - 1], e);
    }
  }

  lemma {:induction false} TakenMember(r: Reader, entries: seq<LogEntry>, e: LogEntry)
    ensures e in Taken(r, entries) ==> e in entries
    ensures e in entries && e.insertId == "" ==> e in Taken(r, entries)
  {
    if entries != [] {
      TakenMember(r, entries[..|entries| - 1], e);
      assert entries == entries[..|entries| - 1] + [entries[|entries| - 1]];
    }
  }

  /** The filter needs insert ids: an entry without one is yielded, again and again, by exactly those polls
      whose watermark it is not below; and while such a poll finds it with text, it does not end the
      stream. */
  lemma UnidentifiedKeepsStreamOpen(r: Reader, p: Poll, e: LogEntry, follow: bool)
    requires p.Holds? && e in p.held && e.insertId == ""
    ensures e in Yields(r, p) <==> Passes(e, r.since)
    ensures e.text.Some? && Passes(e, r.since) ==> !Ends(r, p, follow) && |r.lines| < |AfterPoll(r, p).lines|
  {
    var listed := Listed(p.held, r.since);
    ListedMember(p.held, r.since, e);
    TakenMember(r, listed, e);
    YieldsAreTheLines(r, p);
    if e.text.Some? && Passes(e, r.since) {
      TextedMember(Yields(r, p), e);
    }
  }

  lemma {:induction false} WatermarkStays(r: Reader, polls: seq<Poll>)
    requires r.since.Some? && r.since.value % 1000 == 0
    requires forall p :: p in polls ==> p.Holds? && Sorted(p.held)
    ensures Resumed(r, polls).since.Some? && r.since.value <= Resumed(r, polls).since.value
    ensures Resumed(r, polls).since.value % 1000 == 0
  {
    if polls != [] {
      assert polls[|polls| - 1] in polls;
      WatermarkStays(r, polls[..|polls| - 1]);
      WatermarkNeverGoesBack(Resumed(r, polls[..|polls| - 1]), polls[|polls| - 1]);
    }
  }

  /** With or without an insert id, an entry that the watermark has passed is not yielded by any later
      poll. */
  lemma PassedIsNotYielded(r: Reader, polls: seq<Poll>, p: Poll, e: LogEntry)
    requires r.since.Some? && r.since.value % 1000 == 0 && e.time < r.since.value
    requires forall q :: q in polls ==> q.Holds? && Sorted(q.held)
    ensures e !in Yields(Resumed(r, polls), p)
  {
    WatermarkStays(r, polls);
    if p.Holds? {
      var before := Resumed(r, polls);
      ListedMember(p.held, before.since, e);
      TakenMember(before, Listed(p.held, before.since), e);
    }
  }

  lemma OneEntry(r: Reader, e: LogEntry, since: Option<nat>)
    ensures Listed([e], since) == if Passes(e, since) then [e] else []
    ensures TakeAll(r, [e]) == Take(r, e)
  {
    assert [e][..0] == [];
  }

  lemma OnePollMore(polls: seq<Poll>, p: Poll)
    ensures After(polls + [p]) == AfterPoll(After(polls), p)
  {
    assert (polls + [p])[..|polls|] == polls;
  }

  lemma FirstPoll(e: LogEntry, p: Poll)
    requires p.Holds? && p.held == [e] && e.insertId != "" && e.text.Some?
    ensures After([p]) == Reader({e.insertId}, Some(RoundDown(e.time)), [e.text.value])
  {
    OnePollMore([], p);
    assert [] + [p] == [p];
    OneEntry(NEW_READER, e, None);
  }

  /** A late entry, concretely: the second poll holds an entry older than the first one's, and ends the
      stream without it. */
  lemma LateEntryExample()
    ensures var late, first := LogEntry("a", 1000, Some("late")), LogEntry("b", 2000, Some("first"));
            var p, q := Holds([first], [first], false, false), Holds([late, first], [late, first], true, false);
            && Sorted(q.held) && Identified(q.held)
            && After([p, q]).lines == ["first"] && Ends(After([p]), q, true)
  {
    var late, first := LogEntry("a", 1000, Some("late")), LogEntry("b", 2000, Some("first"));
    var p, q := Holds([first], [first], false, false), Holds([late, first], [late, first], true, false);
    assert late.insertId[0] != first.insertId[0];
    FirstPoll(first, p);
    OneEntry(After([p]), late, Some(2000));
    OneEntry(After([p]), first, Some(2000));
    assert [late, first][..1] == [late];
    assert Listed(q.held, Some(2000)) == [first];
    OnePollMore([p], q);
    assert [p] + [q] == [p, q];
  }

  /** The same poll, over and over. */
  function Again(p: Poll, n: nat): seq<Poll> {
    if n == 0 then [] else Again(p, n - 1) + [p]
  }

  /** An entry without an insert id, concretely: after the execution is over, every poll yields it once
      more, and none ever ends the stream. */
  lemma {:induction false} UnidentifiedExample(n: nat)
    ensures var e := LogEntry("", 1000, Some("again"));
            var p := Holds([e], [e], true, false);
            var r := After(Again(p, n));
            r.since == (if n == 0 then None else Some(1000)) && |r.lines| == n && !Ends(r, p, true)
  {
    var e := LogEntry("", 1000, Some("again"));
    var p := Holds([e], [e], true, false);
    if n > 0 {
      UnidentifiedExample(n - 1);
      OnePollMore(Again(p, n - 1), p);
      var before := After(Again(p, n - 1));
      OneEntry(before, e, before.since);
    }
    UnidentifiedKeepsStreamOpen(After(Again(p, n)), p, e, true);
  }

  lemma {:induction false} TextsAppend(a: seq<LogEntry>, b: seq<LogEntry>)
    ensures Texts(a + b) == Texts(a) + Texts(b)
  {
    if b == [] {
      assert a + b == a;
    } else {
      assert (a + b)[..|a + b| - 1] == a + b[..|b| - 1];
      TextsAppend(a, b[..|b| - 1]);
    }
  }

  lemma TextsBetween(log: seq<LogEntry>, n: nat, m: nat)
    requires n <= m <= |log|
    ensures Texts(log[..m]) == Texts(log[..n]) + Texts(log[n..m])
    ensures Texts(log[n..m]) == [] <==> forall i :: n <= i < m ==> log[i].text.None?
  {
    assert log[..m] == log[..n] + log[n..m];
    TextsAppend(log[..n], log[n..m]);
    NoTexts(log[n..m]);
    assert forall i :: n <= i < m ==> log[i] == log[n..m][i - n];
  }

  /** The look at the execution comes after the listing. Of the entries that are there when the execution
      is seen to be over, the stream has yielded those listed, and so all of them exactly if what arrived
      in between has no text. */
  lemma MissedAtTheEnd(polls: seq<Poll>, log: seq<LogEntry>, counts: seq<nat>, m: nat)
    requires Sorted(log) && Identified(log) && SeesGrowing(polls, log, counts) && polls != []
    requires counts[|counts| - 1] <= m <= |log| && polls[|polls| - 1].atCheck == log[..m]
    ensures var n, atCheck := counts[|counts| - 1], polls[|polls| - 1].atCheck;
            && Texts(atCheck) == After(polls).lines + Texts(log[n..m])
            && (After(polls).lines == Texts(atCheck) <==> forall i :: n <= i < m ==> log[i].text.None?)
  {
    var n := counts[|counts| - 1];
    ExactlyOnceInOrder(polls, log, counts);
    assert After(polls).lines == Texts(log[..n]);
    TextsBetween(log, n, m);
  }

  /** What is missed, concretely: the last line of an execution that ends right after it was listed. */
  lemma MissedExample()
    ensures var e := LogEntry("a", 1000, Some("last words")); var p := Holds([], [e], true, false);
            After([p]).lines == [] && Ends(After([]), p, true)
  {
    var p := Holds([], [LogEntry("a", 1000, Some("last words"))], true, false);
    OnePollMore([], p);
    assert [] + [p] == [p];
  }

  /** The watermark is the microsecond that the last entry taken falls into. */
  lemma WatermarkIsTheMicrosecond(r: Reader, e: LogEntry)
    requires e.insertId !in r.seen || e.insertId == ""
    ensures var since := Take(r, e).since;
            since.Some? && since.value <= e.time < since.value + 1000 && since.value % 1000 == 0
  {
  }
}
