/** Newline framing of a text stream that arrives in chunks of any size: the reading loop of a pa2 peer
    connection and the command loop of a pa1 connection. Both append what they read to a pending line
    and dispatch as soon as a newline shows up; what they dispatch depends on the concatenated text
    alone. */
module LineFraming {
  import opened Prelude

  predicate NewlineFree(s: string)
  {
    '\n' !in s
  }

  /** Everything before and after the first occurrence of `c`, if there is one. */
  function SplitOnce(s: string, c: char): (r: Option<(string, string)>)
    ensures r.Some? ==> |r.value.1| < |s|
  {
    if s == [] then None
    else if s[0] == c then Some(("", s[1..]))
    else match SplitOnce(s[1..], c)
      case None => None
      case Some(parts) => Some(([s[0]] + parts.0, parts.1))
  }

  function Concat(chunks: seq<string>): string
  {
    if chunks == [] then "" else chunks[0] + Concat(chunks[1..])
  }

  /** What the writer puts on the wire: each message followed by a newline. */
  function Encode(messages: seq<string>): string
  {
    if messages == [] then "" else messages[0] + "\n" + Encode(messages[1..])
  }

  /** The terminated lines of a text, in order. */
  function Lines(s: string): seq<string>
    decreases |s|
  {
    match SplitOnce(s, '\n')
    case None => []
    case Some(parts) => [parts.0] + Lines(parts.1)
  }

  /** The unterminated rest of a text. */
  function Tail(s: string): string
    decreases |s|
  {
    match SplitOnce(s, '\n')
    case None => s
    case Some(parts) => Tail(parts.1)
  }

  // ----- Framing is the inverse of writing -----

  lemma {:induction false} SplitMeans(s: string, c: char)
    ensures SplitOnce(s, c).None? <==> c !in s
    ensures SplitOnce(s, c).Some? ==>
      var (before, after) := SplitOnce(s, c).value; s == before + [c] + after && c !in before
  {
    if s != [] && s[0] != c {
      SplitMeans(s[1..], c);
    }
  }

  lemma {:induction false} FirstSplit(before: string, after: string, c: char)
    requires c !in before
    ensures SplitOnce(before + [c] + after, c) == Some((before, after))
  {
    var s := before + [c] + after;
    if before == [] {
      assert s == [c] + after;
    } else {
      FirstSplit(before[1..], after, c);
      assert s[0] == before[0] && s[1..] == before[1..] + [c] + after;
      assert before == [before[0]] + before[1..];
    }
  }

  lemma {:induction false} LinesOfEncoding(messages: seq<string>, tail: string)
    requires forall i :: 0 <= i < |messages| ==> NewlineFree(messages[i])
    requires NewlineFree(tail)
    ensures Lines(Encode(messages) + tail) == messages
    ensures Tail(Encode(messages) + tail) == tail
  {
    if messages == [] {
      assert Encode(messages) + tail == tail;
      SplitMeans(tail, '\n');
    } else {
      var rest := Encode(messages[1..]) + tail;
      assert Encode(messages) + tail == messages[0] + ['\n'] + rest;
      FirstSplit(messages[0], rest, '\n');
      LinesOfEncoding(messages[1..], tail);
    }
  }

  lemma {:induction false} EncodingOfLines(s: string)
    ensures s == Encode(Lines(s)) + Tail(s)
    ensures NewlineFree(Tail(s))
    ensures forall i :: 0 <= i < |Lines(s)| ==> NewlineFree(Lines(s)[i])
    decreases |s|
  {
    SplitMeans(s, '\n');
    if SplitOnce(s, '\n').Some? {
      EncodingOfLines(SplitOnce(s, '\n').value.1);
    }
  }

  /**
   * A text frames as `messages` with `tail` left over exactly when it is what a writer
   * of those messages, then of the beginning `tail` of the next, puts on the wire.
   */
  lemma FramingUndoesWriting(s: string, messages: seq<string>, tail: string)
    ensures Lines(s) == messages && Tail(s) == tail
       <==> && s == Encode(messages) + tail
            && NewlineFree(tail)
            && forall i :: 0 <= i < |messages| ==> NewlineFree(messages[i])
  {
    EncodingOfLines(s);
    if && s == Encode(messages) + tail && NewlineFree(tail)
       && forall i :: 0 <= i < |messages| ==> NewlineFree(messages[i]) {
      LinesOfEncoding(messages, tail);
    }
  }

  // ----- Framing does not depend on the chunks -----

  /** Framing the first part, then its rest together with the second part, frames the whole. */
  lemma {:induction false} FramingIsIncremental(first: string, second: string)
    ensures Lines(first + second) == Lines(first) + Lines(Tail(first) + second)
    ensures Tail(first + second) == Tail(Tail(first) + second)
    decreases |first|
  {
    SplitMeans(first, '\n');
    match SplitOnce(first, '\n')
    case None =>
    case Some(parts) =>
      assert first + second == parts.0 + ['\n'] + (parts.1 + second);
      FirstSplit(parts.0, parts.1 + second, '\n');
      FramingIsIncremental(parts.1, second);
  }

  lemma {:induction false} ConcatSnoc(chunks: seq<string>, chunk: string)
    ensures Concat(chunks + [chunk]) == Concat(chunks) + chunk
  {
    if chunks == [] {
      assert chunks + [chunk] == [chunk];
      assert Concat([chunk]) == chunk + Concat([]);
    } else {
      ConcatSnoc(chunks[1..], chunk);
      assert (chunks + [chunk])[1..] == chunks[1..] + [chunk];
    }
  }

  lemma ConcatUpTo(chunks: seq<string>, i: nat)
    requires i < |chunks|
    ensures Concat(chunks[..i + 1]) == Concat(chunks[..i]) + chunks[i]
  {
    assert chunks[..i + 1] == chunks[..i] + [chunks[i]];
    ConcatSnoc(chunks[..i], chunks[i]);
  }

  /** The reads before the one that returns nothing, which is how a closed connection shows. */
  function Received(chunks: seq<string>): seq<string>
  {
    if chunks == [] || chunks[0] == "" then [] else [chunks[0]] + Received(chunks[1..])
  }

  lemma {:induction false} ReceivedUpTo(chunks: seq<string>, i: nat)
    requires i <= |chunks|
    requires forall j :: 0 <= j < i ==> chunks[j] != ""
    requires i == |chunks| || chunks[i] == ""
    ensures Received(chunks) == chunks[..i]
  {
    if i > 0 {
      ReceivedUpTo(chunks[1..], i - 1);
      assert chunks[..i] == [chunks[0]] + chunks[1..][..i - 1];
    }
  }

  // ----- A pa2 peer connection -----

  /**
   * The loop that follows the introduction of a peer: it reads until the pending text
   * holds a newline, then dispatches one line; a read of nothing ends it.  `chunks` are
   * the results of the chunks, `pending` the text read past the introduction.
   */
  method ReadMessages(pending: string, chunks: seq<string>)
      returns (dispatched: seq<string>, curLine: string, disconnected: bool)
    ensures dispatched == Lines(pending + Concat(Received(chunks)))
    ensures curLine == Tail(pending + Concat(Received(chunks)))
    ensures disconnected <==> "" in chunks
  {
    curLine, dispatched, disconnected := pending, [], false;
    var i := 0;
    ghost var text := pending;
    assert pending + Concat(chunks[..0]) == pending;
    while true
      invariant 0 <= i <= |chunks|
      invariant forall j :: 0 <= j < i ==> chunks[j] != ""
      invariant text == pending + Concat(chunks[..i])
      invariant Lines(text) == dispatched + Lines(curLine) && Tail(text) == Tail(curLine)
      invariant !disconnected
      decreases |chunks| - i, |curLine|
    {
      ghost var i0, line0 := i, curLine;
      while SplitOnce(curLine, '\n').None?
        invariant 0 <= i <= |chunks|
        invariant forall j :: 0 <= j < i ==> chunks[j] != ""
        invariant text == pending + Concat(chunks[..i])
        invariant Lines(text) == dispatched + Lines(curLine) && Tail(text) == Tail(curLine)
        invariant i0 <= i && (i == i0 ==> curLine == line0)
        decreases |chunks| - i
      {
        if i == |chunks| || chunks[i] == "" {
          ReceivedUpTo(chunks, i);
          disconnected := i < |chunks|;
          return;
        }
        ConcatUpTo(chunks, i);
        Extend(text, chunks[i], dispatched, curLine);
        assert pending + (Concat(chunks[..i]) + chunks[i]) == text + chunks[i];
        text := text + chunks[i];
        curLine := curLine + chunks[i];
        i := i + 1;
      }
      var parts := SplitOnce(curLine, '\n').value;
      Regroup(dispatched, [parts.0], Lines(parts.1));
      dispatched := dispatched + [parts.0];
      curLine := parts.1;
    }
  }

  /** Reading one more chunk keeps the pending line in step with the text so far. */
  lemma Extend(text: string, chunk: string, dispatched: seq<string>, curLine: string)
    requires Lines(text) == dispatched + Lines(curLine) && Tail(text) == Tail(curLine)
    ensures Lines(text + chunk) == dispatched + Lines(curLine + chunk)
    ensures Tail(text + chunk) == Tail(curLine + chunk)
  {
    FramingIsIncremental(text, chunk);
    FramingIsIncremental(curLine, chunk);
    Regroup(dispatched, Lines(curLine), Lines(Tail(text) + chunk));
  }

  // ----- A pa1 connection -----

  predicate IsWhitespace(c: char)
  {
    || '\t' <= c <= '\r' || c == ' ' || c == '\U{0085}' || c == '\U{00A0}' || c == '\U{1680}'
    || '\U{2000}' <= c <= '\U{200A}' || c == '\U{2028}' || c == '\U{2029}' || c == '\U{202F}'
    || c == '\U{205F}' || c == '\U{3000}'
  }

  function TrimStart(s: string): string
  {
    if s != "" && IsWhitespace(s[0]) then TrimStart(s[1..]) else s
  }

  function TrimEnd(s: string): string
  {
    if s != "" && IsWhitespace(s[|s| - 1]) then TrimEnd(s[..|s| - 1]) else s
  }

  function Trim(s: string): string
  {
    TrimEnd(TrimStart(s))
  }

  datatype Command =
    | Register | Login | Logout | Join | Leave | ListChannels | ListUsers | Send | History
    | Quit | Unknown

  predicate StartsWith(s: string, prefix: string)
  {
    prefix <= s
  }

  /** The command a trimmed line asks for; the prefixes are tried in this order. */
  function Classify(line: string): Command
  {
    if StartsWith(line, "REGISTER") then Register
    else if StartsWith(line, "LOGIN") then Login
    else if StartsWith(line, "LOGOUT") then Logout
    else if StartsWith(line, "JOIN") then Join
    else if StartsWith(line, "LEAVE") then Leave
    else if StartsWith(line, "LIST CHANNELS") then ListChannels
    else if StartsWith(line, "LIST USERS") then ListUsers
    else if StartsWith(line, "SEND") then Send
    else if StartsWith(line, "HISTORY") then History
    else if StartsWith(line, "QUIT") then Quit
    else Unknown
  }

  datatype Outcome = Answered | Closes | Panics

  /** `SEND` and `HISTORY` unwrap the split at the first space before they check anything. */
  function Handle(line: string): Outcome
  {
    var command := Classify(Trim(line));
    if command == Quit then Closes
    else if (command == Send || command == History) && SplitOnce(Trim(line), ' ').None? then Panics
    else Answered
  }

  predicate Blank(s: string)
  {
    forall i :: 0 <= i < |s| ==> IsWhitespace(s[i])
  }

  lemma {:induction false} TrimmedStart(s: string) returns (front: string)
    ensures s == front + TrimStart(s) && Blank(front)
    ensures TrimStart(s) != "" ==> !IsWhitespace(TrimStart(s)[0])
  {
    front := "";
    if s != "" && IsWhitespace(s[0]) {
      front := TrimmedStart(s[1..]);
      front := [s[0]] + front;
    }
  }

  lemma {:induction false} TrimmedEnd(s: string) returns (back: string)
    ensures s == TrimEnd(s) + back && Blank(back)
    ensures TrimEnd(s) != "" ==> !IsWhitespace(TrimEnd(s)[|TrimEnd(s)| - 1])
  {
    back := "";
    if s != "" && IsWhitespace(s[|s| - 1]) {
      back := TrimmedEnd(s[..|s| - 1]);
      back := back + [s[|s| - 1]];
    }
  }

  /** t is s without the whitespace around it. */
  ghost predicate IsTrimmed(s: string, t: string)
  {
    && (exists front, back :: s == front + t + back && Blank(front) && Blank(back))
    && (t != "" ==> !IsWhitespace(t[0]) && !IsWhitespace(t[|t| - 1]))
  }

  lemma TrimTrims(s: string)
    ensures IsTrimmed(s, Trim(s))
  {
    var front := TrimmedStart(s);
    var back := TrimmedEnd(TrimStart(s));
    assert s == front + Trim(s) + back;
  }

  /** No two of the prefixes that matter fit the same line. */
  lemma ClassifyMeans(t: string)
    ensures Classify(t) == Quit <==> "QUIT" <= t
    ensures Classify(t) == Send <==> "SEND" <= t
    ensures Classify(t) == History <==> "HISTORY" <= t
  {
    if "QUIT" <= t { assert t[0] == 'Q'; }
    if "SEND" <= t { assert t[0] == 'S'; }
    if "HISTORY" <= t { assert t[0] == 'H'; }
  }

  /** What ends a connection: a line that begins with QUIT, and, by a panic, one that begins with SEND or HISTORY and
      has no space; whitespace around the line does not count. All other lines are answered. */
  lemma WhatEndsIt(line: string)
    ensures
      var t := Trim(line);
      && IsTrimmed(line, t)
      && (Handle(line) == Closes <==> "QUIT" <= t)
      && (Handle(line) == Panics <==> ("SEND" <= t || "HISTORY" <= t) && ' ' !in t)
      && (Handle(line) == Answered <==> !("QUIT" <= t) && ("SEND" <= t || "HISTORY" <= t ==> ' ' in t))
  {
    var t := Trim(line);
    TrimTrims(line);
    SplitMeans(t, ' ');
    ClassifyMeans(t);
  }

  /** The lines a connection answers: those before the first that ends it. */
  function AnsweredLines(lines: seq<string>, handle: string -> Outcome): seq<string>
  {
    if lines == [] || !handle(lines[0]).Answered? then [] else [lines[0]] + AnsweredLines(lines[1..], handle)
  }

  datatype Ending = ByQuit | ByPanic | ByPeer | StillOpen

  /** How a connection that received `lines`, and possibly the end of the stream, stands. */
  function EndingOf(lines: seq<string>, handle: string -> Outcome, closed: bool): Ending
  {
    if lines == [] then if closed then ByPeer else StillOpen
    else match handle(lines[0])
      case Closes => ByQuit
      case Panics => ByPanic
      case Answered => EndingOf(lines[1..], handle, closed)
  }

  predicate AllAnswered(lines: seq<string>, handle: string -> Outcome)
  {
    forall i :: 0 <= i < |lines| ==> handle(lines[i]).Answered?
  }

  lemma {:induction false} AnswersAppend(first: seq<string>, second: seq<string>, handle: string -> Outcome,
      closed: bool)
    requires AllAnswered(first, handle)
    ensures AnsweredLines(first + second, handle) == first + AnsweredLines(second, handle)
    ensures EndingOf(first + second, handle, closed) == EndingOf(second, handle, closed)
  {
    if first == [] {
      assert first + second == second;
    } else {
      assert (first + second)[1..] == first[1..] + second;
      assert AllAnswered(first[1..], handle);
      AnswersAppend(first[1..], second, handle, closed);
    }
  }

  /** The lines answered are the longest prefix of answerable ones. */
  lemma {:induction false} AnsweredIsLongestPrefix(lines: seq<string>, handle: string -> Outcome, closed: bool)
    ensures AnsweredLines(lines, handle) <= lines && AllAnswered(AnsweredLines(lines, handle), handle)
    ensures AnsweredLines(lines, handle) == lines <==> EndingOf(lines, handle, closed) in {ByPeer, StillOpen}
    ensures AnsweredLines(lines, handle) != lines ==>
      var stop := handle(lines[|AnsweredLines(lines, handle)|]);
      stop != Answered && EndingOf(lines, handle, closed) == if stop == Closes then ByQuit else ByPanic
  {
    if lines != [] {
      AnsweredIsLongestPrefix(lines[1..], handle, closed);
    }
  }

  /**
   * The command loop.  Each read is appended and every complete line in it handled at
   * once; `QUIT` closes, a read of nothing is an unexpected close (`leftAll`: the
   * session's user leaves all channels), a panic ends the task with neither.
   */
  method ProcessSocket(chunks: seq<string>) returns (answered: seq<string>, ending: Ending, leftAll: bool)
    ensures answered == AnsweredLines(Lines(Concat(Received(chunks))), Handle)
    ensures ending == EndingOf(Lines(Concat(Received(chunks))), Handle, "" in chunks)
    ensures leftAll <==> ending == ByPeer
  {
    var curLine := "";
    answered, leftAll := [], false;
    var i := 0;
    assert chunks[..0] == [];
    while i < |chunks|
      invariant 0 <= i <= |chunks|
      invariant forall j :: 0 <= j < i ==> chunks[j] != ""
      invariant Lines(Concat(chunks[..i])) == answered && Tail(Concat(chunks[..i])) == curLine
      invariant AllAnswered(answered, Handle) && !leftAll
    {
      if chunks[i] == "" {
        ReceivedUpTo(chunks, i);
        AnswersAppend(answered, [], Handle, true);
        assert answered + [] == answered;
        return answered, ByPeer, true;
      }
      var text := curLine + chunks[i];
      ghost var sofar := Concat(chunks[..i + 1]);
      ConcatUpTo(chunks, i);
      FramingIsIncremental(Concat(chunks[..i]), chunks[i]);
      curLine := text;
      while SplitOnce(curLine, '\n').Some?
        invariant Lines(sofar) == answered + Lines(curLine) && Tail(sofar) == Tail(curLine)
        invariant AllAnswered(answered, Handle)
        decreases |curLine|
      {
        var parts := SplitOnce(curLine, '\n').value;
        if !Handle(parts.0).Answered? {
          ghost var later := Lines(parts.1);
          ghost var more := LaterLines(chunks, i + 1);
          Regroup(answered, [parts.0] + later, more);
          Regroup([parts.0], later, more);
          StopIsFinal(answered, parts.0, later + more, Handle, "" in chunks);
          return answered, if Handle(parts.0).Closes? then ByQuit else ByPanic, false;
        }
        answered := answered + [parts.0];
        curLine := parts.1;
      }
      i := i + 1;
    }
    ReceivedUpTo(chunks, i);
    AnswersAppend(answered, [], Handle, false);
    assert answered + [] == answered;
    ending := StillOpen;
  }

  lemma {:induction false} ReceivedExtends(chunks: seq<string>, n: nat)
    requires n <= |chunks|
    requires forall j :: 0 <= j < n ==> chunks[j] != ""
    ensures exists rest :: Concat(Received(chunks)) == Concat(chunks[..n]) + rest
  {
    if n == 0 {
      assert Concat(Received(chunks)) == Concat(chunks[..0]) + Concat(Received(chunks));
    } else {
      ReceivedExtends(chunks[1..], n - 1);
      var rest :| Concat(Received(chunks[1..])) == Concat(chunks[1..][..n - 1]) + rest;
      assert chunks[..n][1..] == chunks[1..][..n - 1];
      assert Received(chunks)[1..] == Received(chunks[1..]);
      assert Concat(Received(chunks)) == Concat(chunks[..n]) + rest;
    }
  }

  /** Once a line ends the connection, nothing after it matters. */
  lemma StopIsFinal(answered: seq<string>, stop: string, later: seq<string>, handle: string -> Outcome, closed: bool)
    requires AllAnswered(answered, handle) && !handle(stop).Answered?
    ensures AnsweredLines(answered + ([stop] + later), handle) == answered
    ensures EndingOf(answered + ([stop] + later), handle, closed) == if handle(stop).Closes? then ByQuit else ByPanic
  {
    AnswersAppend(answered, [stop] + later, handle, closed);
    assert answered + [] == answered;
  }

  /** What is read later only adds lines. */
  lemma LaterLines(chunks: seq<string>, n: nat) returns (more: seq<string>)
    requires n <= |chunks| && forall j :: 0 <= j < n ==> chunks[j] != ""
    ensures Lines(Concat(Received(chunks))) == Lines(Concat(chunks[..n])) + more
  {
    ReceivedExtends(chunks, n);
    var rest :| Concat(Received(chunks)) == Concat(chunks[..n]) + rest;
    FramingIsIncremental(Concat(chunks[..n]), rest);
    more := Lines(Tail(Concat(chunks[..n])) + rest);
  }

  lemma Regroup<T>(front: seq<T>, back: seq<T>, more: seq<T>)
    ensures (front + back) + more == front + (back + more)
  {
  }

  /** Messages without newlines, however the writer's text is cut up, arrive as sent. */
  lemma DeliveryIsExact(messages: seq<string>, chunks: seq<string>)
    requires forall i :: 0 <= i < |messages| ==> NewlineFree(messages[i])
    requires Concat(chunks) == Encode(messages) && "" !in chunks
    ensures Lines(Concat(Received(chunks))) == messages && Tail(Concat(Received(chunks))) == ""
  {
    ReceivedUpTo(chunks, |chunks|);
    assert chunks[..|chunks|] == chunks;
    assert Encode(messages) + "" == Encode(messages);
    LinesOfEncoding(messages, "");
  }
}
