/** Assembling lines from a text that arrives in pieces: the pod-log reader and the follower of a
    growing log file. */
module Lines {

  /** The split of a text on newlines; there is always at least one piece. */
  function Split(t: string): (pieces: seq<string>)
    ensures |pieces| >= 1
  {
    if t == "" then [""]
    else
      var rest := Split(t[1..]);
      if t[0] == '\n' then [""] + rest else [[t[0]] + rest[0]] + rest[1..]
  }

  function Last<T>(s: seq<T>): T
    requires s != []
  {
    s[|s| - 1]
  }

  function ButLast<T>(s: seq<T>): seq<T>
    requires s != []
  {
    s[..|s| - 1]
  }

  /** The lines of a whole text: its split, without one trailing empty piece. */
  function LinesOf(t: string): seq<string> {
    if Last(Split(t)) == "" then ButLast(Split(t)) else Split(t)
  }

  function Join(pieces: seq<string>): string {
    if pieces == [] then ""
    else if |pieces| == 1 then pieces[0]
    else pieces[0] + "\n" + Join(pieces[1..])
  }

  function Concat(chunks: seq<string>): string {
    if chunks == [] then "" else Concat(ButLast(chunks)) + Last(chunks)
  }

  predicate NewlineFree(pieces: seq<string>) {
    forall i :: 0 <= i < |pieces| ==> '\n' !in pieces[i]
  }

  /** One more character at the front of the first piece. */
  function Grow(c: char, pieces: seq<string>): seq<string>
    requires pieces != []
  {
    [[c] + pieces[0]] + pieces[1..]
  }

  lemma GrowAppend(c: char, front: seq<string>, back: seq<string>)
    requires front != []
    ensures Grow(c, front + back) == Grow(c, front) + back
  {
  }

  lemma SplitOfCons(c: char, t: string)
    ensures Split([c] + t) == if c == '\n' then [""] + Split(t) else Grow(c, Split(t))
  {
    assert ([c] + t)[1..] == t;
  }

  lemma SplitAppendStep(c: char, pieces: seq<string>, b: string)
    requires pieces != []
    ensures var tail := ButLast(pieces) + Split(Last(pieces) + b);
            var whole := if c == '\n' then [""] + pieces else Grow(c, pieces);
            (if c == '\n' then [""] + tail else Grow(c, tail)) == ButLast(whole) + Split(Last(whole) + b)
  {
    if c == '\n' {
      assert ButLast([""] + pieces) == [""] + ButLast(pieces);
    } else if |pieces| == 1 {
      SplitOfCons(c, pieces[0] + b);
      assert [c] + pieces[0] + b == [c] + (pieces[0] + b);
    } else {
      GrowAppend(c, ButLast(pieces), Split(Last(pieces) + b));
      assert ButLast(Grow(c, pieces)) == Grow(c, ButLast(pieces));
    }
  }

  /** Everything before the last piece is settled; only the last piece meets what follows. */
  lemma {:induction false} SplitAppend(a: string, b: string)
    ensures Split(a + b) == ButLast(Split(a)) + Split(Last(Split(a)) + b)
  {
    if a == "" {
      assert a + b == b && "" + b == b;
    } else {
      var c, t := a[0], a[1..];
      assert a == [c] + t && a + b == [c] + (t + b);
      SplitAppend(t, b);
      SplitOfCons(c, t);
      SplitOfCons(c, t + b);
      SplitAppendStep(c, Split(t), b);
    }
  }

  /** The split loses nothing and leaves no newline inside a piece. */
  lemma {:induction false} JoinOfSplit(t: string)
    ensures Join(Split(t)) == t && NewlineFree(Split(t))
  {
    if t != "" {
      JoinOfSplit(t[1..]);
      var rest := Split(t[1..]);
      assert t == [t[0]] + t[1..];
      if t[0] == '\n' {
        assert ([""] + rest)[1..] == rest;
      } else if |rest| > 1 {
        var pieces := [[t[0]] + rest[0]] + rest[1..];
        assert pieces[1..] == rest[1..];
        assert Join(pieces) == [t[0]] + rest[0] + "\n" + Join(rest[1..]);
        assert Join(pieces) == [t[0]] + (rest[0] + "\n" + Join(rest[1..]));
      }
    }
  }

  lemma {:induction false} SplitNewlineFree(s: string)
    requires '\n' !in s
    ensures Split(s) == [s]
  {
    if s != "" {
      SplitNewlineFree(s[1..]);
      assert s == [s[0]] + s[1..];
    }
  }

  lemma {:induction false} SplitAfterNewline(s: string, rest: string)
    requires '\n' !in s
    ensures Split(s + ("\n" + rest)) == [s] + Split(rest)
  {
    if s == "" {
      assert "" + ("\n" + rest) == "\n" + rest;
      assert ("\n" + rest)[1..] == rest;
    } else {
      SplitAfterNewline(s[1..], rest);
      assert (s + ("\n" + rest))[1..] == s[1..] + ("\n" + rest);
      assert s == [s[0]] + s[1..];
    }
  }

  /** Conversely, pieces without newlines are what their join splits into. */
  lemma {:induction false} SplitOfJoin(pieces: seq<string>)
    requires pieces != [] && NewlineFree(pieces)
    ensures Split(Join(pieces)) == pieces
  {
    SplitNewlineFree(pieces[0]);
    if |pieces| > 1 {
      var rest := Join(pieces[1..]);
      SplitOfJoin(pieces[1..]);
      SplitAppend(pieces[0], "\n" + rest);
      assert Join(pieces) == pieces[0] + ("\n" + rest);
      SplitAfterNewline(pieces[0], rest);
      assert pieces == [pieces[0]] + pieces[1..];
    }
  }

  lemma {:induction false} LastPiece(t: string)
    ensures Last(Split(t)) == "" <==> t == "" || Last(t) == '\n'
    ensures t != "" && Last(t) == '\n' ==> |Split(t)| >= 2
  {
    if t != "" {
      LastPiece(t[1..]);
    }
  }

  lemma {:induction false} JoinTrailing(pieces: seq<string>)
    ensures Join(pieces + [""]) == if pieces == [] then "" else Join(pieces) + "\n"
  {
    if pieces != [] {
      JoinTrailing(pieces[1..]);
      assert (pieces + [""])[1..] == pieces[1..] + [""];
      if |pieces| > 1 {
        assert pieces[0] + "\n" + (Join(pieces[1..]) + "\n") == pieces[0] + "\n" + Join(pieces[1..]) + "\n";
      }
    }
  }

  lemma TrailingPiece(t: string, front: seq<string>)
    requires front == ButLast(Split(t)) && Last(Split(t)) == ""
    ensures Join(Split(t)) == if front == [] then "" else Join(front) + "\n"
    ensures front == [] <==> t == ""
  {
    assert Split(t) == front + [""];
    JoinTrailing(front);
    LastPiece(t);
    JoinOfSplit(t);
  }

  /** Joining the lines gives the text back, up to one final newline. */
  lemma LinesGiveTextBack(t: string)
    ensures NewlineFree(LinesOf(t))
    ensures t == if t != "" && Last(t) == '\n' then Join(LinesOf(t)) + "\n" else Join(LinesOf(t))
  {
    JoinOfSplit(t);
    LastPiece(t);
    if Last(Split(t)) == "" {
      TrailingPiece(t, ButLast(Split(t)));
    }
  }

  /** Lines written one by one, each with its newline, are read back as the same lines. */
  lemma WrittenLinesAreReadBack(lines: seq<string>)
    requires NewlineFree(lines)
    ensures LinesOf(Join(lines + [""])) == lines
  {
    SplitOfJoin(lines + [""]);
    assert ButLast(lines + [""]) == lines;
  }

  lemma LastOfAppend(front: seq<string>, last: string)
    ensures ButLast(front + [last]) == front && Last(front + [last]) == last
  {
  }

  lemma Regroup(front: seq<string>, pieces: seq<string>)
    requires pieces != []
    ensures front + pieces == front + ButLast(pieces) + [Last(pieces)]
  {
  }

  /** One more piece of text: the complete lines it yields and what stays pending. */
  lemma FeedChunk(read: string, yielded: seq<string>, pending: string, chunk: string)
    requires Split(read) == yielded + [pending]
    ensures var parts := Split(pending + chunk);
            Split(read + chunk) == yielded + ButLast(parts) + [Last(parts)]
  {
    SplitAppend(read, chunk);
    LastOfAppend(yielded, pending);
    Regroup(yielded, Split(pending + chunk));
  }

  lemma LinesSoFar(read: string, yielded: seq<string>, pending: string)
    requires Split(read) == yielded + [pending]
    ensures ButLast(Split(read)) == yielded
    ensures LinesOf(read) == if pending == "" then yielded else yielded + [pending]
  {
    LastOfAppend(yielded, pending);
  }

  /** The pod-log reader: for every chunking, the lines of the whole text. */
  method IterLines(chunks: seq<string>) returns (lines: seq<string>)
    ensures lines == LinesOf(Concat(chunks))
  {
    lines := [];
    var pending := "";
    for i := 0 to |chunks|
      invariant Split(Concat(chunks[..i])) == lines + [pending]
    {
      assert ButLast(chunks[..i + 1]) == chunks[..i];
      FeedChunk(Concat(chunks[..i]), lines, pending, chunks[i]);
      var parts := Split(pending + chunks[i]);
      pending := Last(parts);
      lines := lines + ButLast(parts);
    }
    assert chunks[..|chunks|] == chunks;
    LinesSoFar(Concat(chunks), lines, pending);
    if pending != "" {
      lines := lines + [pending];
    }
  }

  /** What the follower of a log file meets each time round: more text, or nothing yet, together
      with whether the job is then over (and what was written last) or the deadline has passed. */
  datatype Poll = Chunk(text: string) | AtEnd(terminal: bool, rest: string, expired: bool)

  predicate Stops(p: Poll) {
    p.AtEnd? && (p.terminal || p.expired)
  }

  /** The text read from a log file over some polls. */
  function TextRead(polls: seq<Poll>): string {
    if polls == [] then ""
    else
      var before := TextRead(ButLast(polls));
      match Last(polls)
      case Chunk(text) => before + text
      case AtEnd(terminal, rest, _) => if terminal then before + rest else before
  }

  lemma TextReadStep(polls: seq<Poll>, i: nat)
    requires i < |polls|
    ensures TextRead(polls[..i + 1]) ==
            match polls[i]
            case Chunk(text) => TextRead(polls[..i]) + text
            case AtEnd(terminal, rest, _) => if terminal then TextRead(polls[..i]) + rest else TextRead(polls[..i])
  {
    assert ButLast(polls[..i + 1]) == polls[..i];
  }

  /** The last piece of work once the job is over: what was written since, and nothing left pending. */
  method Drain(ghost read: string, yielded: seq<string>, pending: string, rest: string) returns (lines: seq<string>)
    requires Split(read) == yielded + [pending]
    ensures lines == LinesOf(read + rest)
  {
    FeedChunk(read, yielded, pending, rest);
    var remaining := Split(pending + rest);
    LinesSoFar(read + rest, yielded + ButLast(remaining), Last(remaining));
    Regroup(yielded, remaining);
    if Last(remaining) == "" {
      remaining := ButLast(remaining);
    }
    lines := yielded + remaining;
  }

  /** The follower, over what its polls meet; it uses the first `used` of them. It stops at the first
      poll that says so, and has then yielded exactly the lines of the text read so far, whether the job
      is over or time is up. If no poll stops it, it has yielded exactly the complete lines. */
  method StreamLogs(polls: seq<Poll>) returns (lines: seq<string>, used: nat, stopped: bool)
    ensures used <= |polls| && if stopped then used > 0 else used == |polls|
    ensures forall i :: 0 <= i < (if stopped then used - 1 else used) ==>
              polls[i].Chunk? || (!polls[i].terminal && !polls[i].expired)
    ensures stopped ==> polls[used - 1].AtEnd? && (polls[used - 1].terminal || polls[used - 1].expired)
    ensures var read := TextRead(polls[..used]);
            lines == if stopped then LinesOf(read) else ButLast(Split(read))
  {
    lines, used := [], 0;
    var pending := "";
    while used < |polls|
      invariant 0 <= used <= |polls|
      invariant Split(TextRead(polls[..used])) == lines + [pending]
      invariant forall i :: 0 <= i < used ==> !Stops(polls[i])
    {
      ghost var read := TextRead(polls[..used]);
      TextReadStep(polls, used);
      used := used + 1;
      var poll := polls[used - 1];
      if poll.Chunk? {
        FeedChunk(read, lines, pending, poll.text);
        var parts := Split(pending + poll.text);
        pending := Last(parts);
        lines := lines + ButLast(parts);
        continue;
      }
      if poll.terminal {
        lines := Drain(read, lines, pending, poll.rest);
        return lines, used, true;
      }
      if poll.expired {
        LinesSoFar(read, lines, pending);
        if pending != "" {
          lines := lines + [pending];
        }
        return lines, used, true;
      }
    }
    LinesSoFar(TextRead(polls[..used]), lines, pending);
    stopped := false;
  }

  /** What one poll meets, as text. */
  function Met(p: Poll): string {
    match p
    case Chunk(text) => text
    case AtEnd(true, rest, _) => rest
    case AtEnd(false, _, _) => ""
  }

  /** The text read is everything the polls met, in order: every chunk, and what was written last before the
      job was seen to be over. */
  lemma {:induction false} TextReadInPlain(polls: seq<Poll>)
    ensures TextRead(polls) == Concat(seq(|polls|, i requires 0 <= i < |polls| => Met(polls[i])))
  {
    if polls != [] {
      var met := seq(|polls|, i requires 0 <= i < |polls| => Met(polls[i]));
      TextReadInPlain(ButLast(polls));
      assert ButLast(met) == seq(|polls| - 1, i requires 0 <= i < |polls| - 1 => Met(ButLast(polls)[i]));
      assert TextRead(ButLast(polls)) + "" == TextRead(ButLast(polls));
    }
  }
}
