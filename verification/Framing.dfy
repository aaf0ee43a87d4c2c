/** Newline framing of a byte stream, and the read loop that recovers the lines from chunks. */
module Framing {
  const NEWLINE := '\n'

  datatype Split = Split(lines: seq<string>, rest: string)

  /** The complete lines of `s`, and what follows the last newline. */
  function SplitLines(s: string): Split {
    if |s| == 0 then Split([], "")
    else
      var before := SplitLines(s[..|s| - 1]);
      if s[|s| - 1] == NEWLINE then Split(before.lines + [before.rest], "")
      else before.(rest := before.rest + [s[|s| - 1]])
  }

  function NonEmpty(lines: seq<string>): seq<string> {
    if |lines| == 0 then []
    else NonEmpty(lines[..|lines| - 1]) + if lines[|lines| - 1] != "" then [lines[|lines| - 1]] else []
  }

  lemma {:induction false} NonEmptyConcat(a: seq<string>, b: seq<string>)
    ensures NonEmpty(a + b) == NonEmpty(a) + NonEmpty(b)
  {
    if |b| == 0 {
      assert a + b == a;
    } else {
      var n := |b| - 1;
      NonEmptyConcat(a, b[..n]);
      assert (a + b)[..|a + b| - 1] == a + b[..n];
    }
  }

  /** Empty lines are never handled, and where there is none, every line is. */
  lemma {:induction false} EmptyLinesSkipped(lines: seq<string>)
    ensures "" !in NonEmpty(lines)
    ensures "" !in lines ==> NonEmpty(lines) == lines
  {
    if |lines| > 0 {
      var n := |lines| - 1;
      EmptyLinesSkipped(lines[..n]);
      assert lines == lines[..n] + [lines[n]];
    }
  }

  /** Splitting can stop anywhere and resume from the incomplete line. */
  lemma {:induction false} SplitResumes(a: string, b: string)
    ensures var first := SplitLines(a); var more := SplitLines(first.rest + b);
      SplitLines(a + b) == Split(first.lines + more.lines, more.rest)
  {
    var first := SplitLines(a);
    if |b| == 0 {
      assert a + b == a && first.rest + b == first.rest;
      RestHasNoNewline(a);
      OneLine(first.rest);
    } else {
      var n := |b| - 1;
      SplitResumes(a, b[..n]);
      assert (a + b)[..|a + b| - 1] == a + b[..n];
      assert (first.rest + b)[..|first.rest + b| - 1] == first.rest + b[..n];
    }
  }

  lemma {:induction false} RestHasNoNewline(s: string)
    ensures NEWLINE !in SplitLines(s).rest
  {
    if |s| > 0 {
      RestHasNoNewline(s[..|s| - 1]);
    }
  }

  lemma {:induction false} OneLine(s: string)
    requires NEWLINE !in s
    ensures SplitLines(s) == Split([], s)
  {
    if |s| > 0 {
      OneLine(s[..|s| - 1]);
      assert s == s[..|s| - 1] + [s[|s| - 1]];
    }
  }

  /** A first line split off the front. */
  lemma SplitFirst(line: string, rest: string)
    requires NEWLINE !in line
    ensures SplitLines(line + [NEWLINE] + rest) == Split([line] + SplitLines(rest).lines, SplitLines(rest).rest)
  {
    OneLine(line);
    assert (line + [NEWLINE])[..|line|] == line;
    SplitResumes(line + [NEWLINE], rest);
    assert "" + rest == rest;
  }

  function Find(s: string, c: char): (pos: nat)
    ensures pos <= |s| && c !in s[..pos] && (pos < |s| ==> s[pos] == c)
  {
    if |s| == 0 || s[0] == c then 0 else 1 + Find(s[1..], c)
  }

  /** The receiving end of a link: what it has not been able to complete yet, and the lines it
      has handled. */
  class LineReader {
    var readMessage: string
    var handled: seq<string>

    constructor ()
      ensures readMessage == "" && handled == []
    {
      readMessage, handled := "", [];
    }

    /** Every complete line in the buffer is taken off its front; empty ones are skipped. */
    method OnRead(chunk: string)
      modifies this
      ensures var s := SplitLines(old(readMessage) + chunk);
        readMessage == s.rest && handled == old(handled) + NonEmpty(s.lines)
    {
      hide SplitLines, NonEmpty, Find;
      ghost var all := readMessage + chunk;
      ghost var taken: seq<string> := [];
      NothingTaken(all, handled);
      readMessage := readMessage + chunk;
      var pos := Find(readMessage, NEWLINE);
      while pos < |readMessage|
        invariant pos == Find(readMessage, NEWLINE)
        invariant SplitLines(all) == Split(taken + SplitLines(readMessage).lines, SplitLines(readMessage).rest)
        invariant handled == old(handled) + NonEmpty(taken)
        decreases |readMessage|
      {
        var line := readMessage[..pos];
        LineTaken(readMessage, pos, taken);
        readMessage := readMessage[pos + 1..];
        taken := taken + [line];
        if line != "" { handled := handled + [line]; }
        pos := Find(readMessage, NEWLINE);
      }
      OneLine(readMessage);
      assert taken + [] == taken;
    }
  }

  lemma NothingTaken(all: string, handled: seq<string>)
    ensures Split([] + SplitLines(all).lines, SplitLines(all).rest) == SplitLines(all)
    ensures handled + NonEmpty([]) == handled
  {
  }

  lemma LineTaken(read: string, pos: nat, taken: seq<string>)
    requires pos < |read| && read[pos] == NEWLINE && NEWLINE !in read[..pos]
    ensures var line, rest := read[..pos], SplitLines(read[pos + 1..]);
      && Split(taken + SplitLines(read).lines, SplitLines(read).rest) == Split(taken + [line] + rest.lines, rest.rest)
      && NonEmpty(taken + [line]) == NonEmpty(taken) + if line != "" then [line] else []
  {
    var line := read[..pos];
    SplitFirst(line, read[pos + 1..]);
    assert read == line + [NEWLINE] + read[pos + 1..];
    assert (taken + [line])[..|taken|] == taken;
    assert taken + ([line] + SplitLines(read[pos + 1..]).lines) == taken + [line] + SplitLines(read[pos + 1..]).lines;
  }

  // ---- chunking does not matter ----

  datatype Reader = Reader(readMessage: string, handled: seq<string>)

  /** What OnRead does to the reader. */
  function Fed(r: Reader, chunk: string): Reader {
    var s := SplitLines(r.readMessage + chunk);
    Reader(s.rest, r.handled + NonEmpty(s.lines))
  }

  /** The reader's state is a function of the bytes received. */
  function Received(bytes: string): Reader {
    Reader(SplitLines(bytes).rest, NonEmpty(SplitLines(bytes).lines))
  }

  lemma FedExtends(bytes: string, chunk: string)
    ensures Fed(Received(bytes), chunk) == Received(bytes + chunk)
  {
    SplitResumes(bytes, chunk);
    NonEmptyConcat(SplitLines(bytes).lines, SplitLines(SplitLines(bytes).rest + chunk).lines);
  }

  function FedAll(r: Reader, chunks: seq<string>): Reader {
    if |chunks| == 0 then r else Fed(FedAll(r, chunks[..|chunks| - 1]), chunks[|chunks| - 1])
  }

  function Concat(chunks: seq<string>): string {
    if |chunks| == 0 then "" else Concat(chunks[..|chunks| - 1]) + chunks[|chunks| - 1]
  }

  /** However the bytes are cut into chunks, the same lines are handled. */
  lemma {:induction false} ChunkingDoesNotMatter(chunks: seq<string>)
    ensures FedAll(Reader("", []), chunks) == Received(Concat(chunks))
  {
    if |chunks| > 0 {
      ChunkingDoesNotMatter(chunks[..|chunks| - 1]);
      FedExtends(Concat(chunks[..|chunks| - 1]), chunks[|chunks| - 1]);
    }
  }

  // ---- messages survive framing ----

  predicate IsMessage(m: string) { m != "" && NEWLINE !in m }

  ghost predicate AreMessages(messages: seq<string>) {
    forall i :: 0 <= i < |messages| ==> IsMessage(messages[i])
  }

  /** The bytes of messages sent one after another. */
  function Framed(messages: seq<string>): string {
    if |messages| == 0 then "" else Framed(messages[..|messages| - 1]) + messages[|messages| - 1] + [NEWLINE]
  }

  lemma {:induction false} FramedSplits(messages: seq<string>)
    requires AreMessages(messages)
    ensures SplitLines(Framed(messages)) == Split(messages, "")
  {
    if |messages| > 0 {
      var n := |messages| - 1;
      FramedSplits(messages[..n]);
      OneMoreFrame(Framed(messages[..n]), messages[..n], messages[n]);
      assert messages == messages[..n] + [messages[n]];
    }
  }

  lemma OneMoreFrame(bytes: string, lines: seq<string>, m: string)
    requires SplitLines(bytes) == Split(lines, "") && IsMessage(m)
    ensures SplitLines(bytes + m + [NEWLINE]) == Split(lines + [m], "")
  {
    SplitResumes(bytes, m + [NEWLINE]);
    SplitFirst(m, "");
    assert bytes + (m + [NEWLINE]) == bytes + m + [NEWLINE];
    assert "" + (m + [NEWLINE]) == m + [NEWLINE] + "";
  }

  lemma {:induction false} NoneEmpty(lines: seq<string>)
    requires AreMessages(lines)
    ensures NonEmpty(lines) == lines
  {
    if |lines| > 0 {
      NoneEmpty(lines[..|lines| - 1]);
      assert lines == lines[..|lines| - 1] + [lines[|lines| - 1]];
    }
  }

  /** Whatever part of the bytes has arrived, the lines handled are the first messages sent, and
      all of them once all bytes have arrived. */
  lemma PrefixHandled(messages: seq<string>, received: string, missing: string)
    requires AreMessages(messages) && received + missing == Framed(messages)
    ensures Received(received).handled <= messages
    ensures missing == "" ==> Received(received) == Reader("", messages)
  {
    FramedSplits(messages);
    SplitResumes(received, missing);
    var first := SplitLines(received);
    LinesArePrefix(first.lines, SplitLines(first.rest + missing).lines, messages);
    if missing == "" {
      assert received + missing == received;
    }
  }

  lemma LinesArePrefix(first: seq<string>, more: seq<string>, messages: seq<string>)
    requires AreMessages(messages) && messages == first + more
    ensures first <= messages && NonEmpty(first) == first
  {
    assert forall i :: 0 <= i < |first| ==> first[i] == messages[i];
    NoneEmpty(first);
  }
}
