/** Streams of frames, fed to the reader of McpFraming in chunks: server/src/utils/mcp-client.ts. */
module McpStreams {
  import opened Options
  import opened McpFraming

  /** A frame as it is sent, and the message in it. */
  datatype Framed = Framed(bytes: Bytes, message: Bytes)

  function Sent(frames: seq<Framed>): Bytes {
    if frames == [] then [] else frames[0].bytes + Sent(frames[1..])
  }

  function Messages(frames: seq<Framed>): (messages: seq<Bytes>)
    ensures |messages| == |frames|
  {
    seq(|frames|, i requires 0 <= i < |frames| => frames[i].message)
  }

  /** Whatever follows it, the frame gives its message and no more is taken; no part of it gives or takes anything. */
  ghost predicate IsFrame(mode: Mode, f: Framed) {
    && f.bytes != []
    && (forall tail :: ParseNext(mode, f.bytes + tail) == Parsed(Some(f.message), tail))
    && (forall part :: part < f.bytes ==> ParseNext(mode, part) == Parsed(None, part))
  }

  ghost predicate AllFrames(mode: Mode, frames: seq<Framed>) {
    mode != Undetected && forall i :: 0 <= i < |frames| ==> IsFrame(mode, frames[i])
  }

  // ---------------------------------------------------------------- pumping a prefix of a stream

  /** The unread bytes are a proper prefix of the next frame; there are none after the last one. */
  predicate AwaitsNext(frames: seq<Framed>, n: nat, rest: Bytes) {
    n <= |frames| && if n == |frames| then rest == [] else rest < frames[n].bytes
  }

  /** Pumping a prefix of a stream yields the messages it holds whole, and keeps the rest. */
  lemma {:induction false} PumpPrefix(mode: Mode, known: Mode, frames: seq<Framed>, buffer: Bytes) returns (n: nat)
    requires AllFrames(mode, frames) && (buffer != [] ==> DetectFraming(known, buffer) == mode)
    requires buffer <= Sent(frames)
    ensures n <= |frames|
    ensures var p := Pump(known, buffer);
            && p.messages == Messages(frames[..n])
            && buffer == Sent(frames[..n]) + p.rest
            && AwaitsNext(frames, n, p.rest)
            && p.mode == if buffer == [] then known else mode
    decreases |frames|
  {
    hide ParseNext, DetectFraming, AwaitsNext;
    if buffer == [] {
      n := 0;
      PumpNothing(known);
      NothingAwaits(frames);
    } else {
      var f := frames[0];
      assert IsFrame(mode, f);
      if |buffer| < |f.bytes| {
        n := 0;
        assert buffer == Sent(frames)[..|buffer|] == f.bytes[..|buffer|];
        assert ParseNext(mode, buffer) == Parsed(None, buffer);
        PartAwaits(frames, buffer);
      } else {
        var tail := buffer[|f.bytes|..];
        assert buffer == f.bytes + tail by {
          assert buffer[..|f.bytes|] == Sent(frames)[..|f.bytes|] == f.bytes;
        }
        CancelPrefix(f.bytes, tail, Sent(frames[1..]));
        KnownOnce(mode, tail);
        var k := PumpPrefix(mode, mode, frames[1..], tail);
        n := k + 1;
        FirstAndRest(frames, k, Pump(mode, tail).rest);
      }
    }
  }

  lemma KnownOnce(mode: Mode, buffer: Bytes)
    requires mode != Undetected
    ensures DetectFraming(mode, buffer) == mode
  {
  }

  lemma NothingAwaits(frames: seq<Framed>)
    requires forall i :: 0 <= i < |frames| ==> frames[i].bytes != []
    ensures AwaitsNext(frames, 0, [])
  {
  }

  lemma PartAwaits(frames: seq<Framed>, buffer: Bytes)
    requires frames != [] && buffer < frames[0].bytes
    ensures AwaitsNext(frames, 0, buffer)
  {
  }

  lemma FirstAndRest(frames: seq<Framed>, k: nat, rest: Bytes)
    requires frames != [] && k < |frames|
    ensures frames[..k + 1] == [frames[0]] + frames[1..][..k]
    ensures Messages(frames[..k + 1]) == [frames[0].message] + Messages(frames[1..][..k])
    ensures Sent(frames[..k + 1]) + rest == frames[0].bytes + (Sent(frames[1..][..k]) + rest)
    ensures AwaitsNext(frames[1..], k, rest) ==> AwaitsNext(frames, k + 1, rest)
  {
    assert frames[..k + 1] == [frames[0]] + frames[1..][..k];
  }

  lemma CancelPrefix(a: Bytes, b: Bytes, c: Bytes)
    requires a + b <= a + c
    ensures b <= c
  {
    assert b == (a + b)[|a|..] && c == (a + c)[|a|..];
    assert (a + b)[|a|..] == (a + c)[..|a + b|][|a|..];
  }

  lemma {:induction false} SentConcat(first: seq<Framed>, second: seq<Framed>)
    ensures Sent(first + second) == Sent(first) + Sent(second)
  {
    if first == [] {
      assert first + second == second;
    } else {
      assert (first + second)[0] == first[0] && (first + second)[1..] == first[1..] + second;
      SentConcat(first[1..], second);
    }
  }

  // ---------------------------------------------------------------- chunk by chunk

  /** The reader has delivered exactly the messages whose frames are complete in what it was fed. */
  ghost predicate InStep(mode: Mode, frames: seq<Framed>, fed: Bytes, r: Reader) {
    exists n: nat :: Reads(mode, frames, fed, r, n)
  }

  predicate Reads(mode: Mode, frames: seq<Framed>, fed: Bytes, r: Reader, n: nat) {
    && n <= |frames|
    && r.received == Messages(frames[..n])
    && fed == Sent(frames[..n]) + r.buffer
    && AwaitsNext(frames, n, r.buffer)
    && r.mode == if fed == [] then Undetected else mode
  }

  lemma ReadsMore(frames: seq<Framed>, n: nat, k: nat, before: Bytes, buffer: Bytes, rest: Bytes)
    requires n <= |frames| && k <= |frames[n..]|
    requires before == Sent(frames[..n]) && buffer == Sent(frames[n..][..k]) + rest
    requires AwaitsNext(frames[n..], k, rest)
    ensures Messages(frames[..n]) + Messages(frames[n..][..k]) == Messages(frames[..n + k])
    ensures before + buffer == Sent(frames[..n + k]) + rest
    ensures AwaitsNext(frames, n + k, rest)
  {
    hide Sent;
    assert frames[..n] + frames[n..][..k] == frames[..n + k];
    SentConcat(frames[..n], frames[n..][..k]);
    var more := Sent(frames[n..][..k]);
    assert before + (more + rest) == (before + more) + rest;
    if n + k < |frames| { assert frames[n..][k] == frames[n + k]; }
  }

  /** The framing the first bytes show. */
  predicate Shows(mode: Mode, chunks: seq<Bytes>) {
    FirstChunk(chunks) != [] ==> DetectFraming(Undetected, FirstChunk(chunks)) == mode
  }

  lemma OneChunkFrom(mode: Mode, frames: seq<Framed>, fed: Bytes, r: Reader, chunk: Bytes, n: nat)
    requires AllFrames(mode, frames) && Reads(mode, frames, fed, r, n)
    requires fed + chunk <= Sent(frames)
    requires fed == [] && chunk != [] ==> DetectFraming(Undetected, chunk) == mode
    ensures InStep(mode, frames, fed + chunk, OnData(r, chunk))
  {
    hide Pump, IsFrame, Sent, AwaitsNext, DetectFraming, Messages;
    var buffer := r.buffer + chunk;
    var before := Sent(frames[..n]);
    assert frames == frames[..n] + frames[n..];
    SentConcat(frames[..n], frames[n..]);
    assert fed + chunk == before + buffer;
    CancelPrefix(before, buffer, Sent(frames[n..]));
    KnownOnce(mode, buffer);
    if fed == [] { assert buffer == chunk; }
    var k := PumpPrefix(mode, r.mode, frames[n..], buffer);
    var p := Pump(r.mode, buffer);
    ReadsMore(frames, n, k, before, buffer, p.rest);
    assert Reads(mode, frames, fed + chunk, OnData(r, chunk), n + k);
  }

  lemma OneChunk(mode: Mode, frames: seq<Framed>, fed: Bytes, r: Reader, chunk: Bytes)
    requires AllFrames(mode, frames) && InStep(mode, frames, fed, r)
    requires fed + chunk <= Sent(frames)
    requires fed == [] && chunk != [] ==> DetectFraming(Undetected, chunk) == mode
    ensures InStep(mode, frames, fed + chunk, OnData(r, chunk))
  {
    hide AllFrames, Sent, Reads, OnData, DetectFraming;
    var n: nat :| Reads(mode, frames, fed, r, n);
    OneChunkFrom(mode, frames, fed, r, chunk, n);
  }

  lemma {:induction false} FeedInStep(mode: Mode, frames: seq<Framed>, fed: Bytes, r: Reader, chunks: seq<Bytes>)
    requires AllFrames(mode, frames) && InStep(mode, frames, fed, r)
    requires fed + Joined(chunks) <= Sent(frames) && (fed == [] ==> Shows(mode, chunks))
    ensures InStep(mode, frames, fed + Joined(chunks), Feed(r, chunks))
    decreases |chunks|
  {
    hide InStep, OnData, AllFrames, Sent, DetectFraming;
    if chunks == [] {
      assert fed + [] == fed;
    } else {
      assert fed + Joined(chunks) == (fed + chunks[0]) + Joined(chunks[1..]);
      OneChunk(mode, frames, fed, r, chunks[0]);
      FeedInStep(mode, frames, fed + chunks[0], OnData(r, chunks[0]), chunks[1..]);
    }
  }

  /**
   * Frames, at every moment: however they are cut into chunks, the reader has delivered the messages of the complete ones in
   * order, and its buffer is a proper prefix of the next.
   */
  lemma FramesInStep(mode: Mode, frames: seq<Framed>, chunks: seq<Bytes>)
    requires AllFrames(mode, frames) && Joined(chunks) <= Sent(frames) && Shows(mode, chunks)
    ensures InStep(mode, frames, Joined(chunks), Feed(NEW_READER, chunks))
  {
    assert Sent(frames[..0]) + [] == [];
    NothingAwaits(frames);
    assert Reads(mode, frames, [], NEW_READER, 0);
    assert [] + Joined(chunks) == Joined(chunks);
    FeedInStep(mode, frames, [], NEW_READER, chunks);
  }

  lemma NextIsSent(frames: seq<Framed>, n: nat)
    requires n <= |frames|
    ensures n < |frames| ==> |frames[n].bytes| <= |Sent(frames[n..])|
  {
  }

  /** At the end of the stream every message has been delivered and nothing is left. */
  lemma FramesRead(mode: Mode, frames: seq<Framed>, chunks: seq<Bytes>)
    requires AllFrames(mode, frames) && Joined(chunks) == Sent(frames) && Shows(mode, chunks)
    ensures Feed(NEW_READER, chunks).received == Messages(frames) && Feed(NEW_READER, chunks).buffer == []
  {
    hide Feed, AllFrames, Shows;
    FramesInStep(mode, frames, chunks);
    var r := Feed(NEW_READER, chunks);
    var n: nat :| Reads(mode, frames, Joined(chunks), r, n);
    assert frames == frames[..n] + frames[n..];
    SentConcat(frames[..n], frames[n..]);
    CancelPrefix(Sent(frames[..n]), Sent(frames[n..]), r.buffer);
    NextIsSent(frames, n);
    assert frames[..n] == frames;
  }

  // ---------------------------------------------------------------- the client's own frames

  function Printed(mode: Mode, messages: seq<Bytes>): (frames: seq<Framed>)
    ensures |frames| == |messages|
  {
    seq(|messages|, i requires 0 <= i < |messages| => Framed(Frame(mode, messages[i]), messages[i]))
  }

  lemma {:induction false} PrintedSent(mode: Mode, messages: seq<Bytes>)
    ensures Sent(Printed(mode, messages)) == Stream(mode, messages)
    ensures Messages(Printed(mode, messages)) == messages
  {
    hide Frame;
    if messages != [] {
      PrintedSent(mode, messages[1..]);
      assert Printed(mode, messages)[1..] == Printed(mode, messages[1..]);
    }
  }

  lemma PrintedFrame(mode: Mode, m: Bytes)
    requires mode != Undetected && Printable(mode, m)
    ensures IsFrame(mode, Framed(Frame(mode, m), m))
  {
    hide Printable, ParseNext;
    assert Frame(mode, m) != [];
    hide Frame;
    forall tail ensures ParseNext(mode, Frame(mode, m) + tail) == Parsed(Some(m), tail) { ParseFrame(mode, m, tail); }
    forall part | part < Frame(mode, m) ensures ParseNext(mode, part) == Parsed(None, part) { ParsePartial(mode, m, part); }
  }

  lemma AllPrinted(mode: Mode, messages: seq<Bytes>)
    requires AllPrintable(mode, messages)
    ensures AllFrames(mode, Printed(mode, messages))
  {
    hide Frame, Printable, IsFrame;
    forall i | 0 <= i < |messages| ensures IsFrame(mode, Printed(mode, messages)[i]) { PrintedFrame(mode, messages[i]); }
  }

  lemma PrintedShows(mode: Mode, messages: seq<Bytes>, chunks: seq<Bytes>)
    requires AllPrintable(mode, messages) && Joined(chunks) <= Stream(mode, messages)
    ensures Shows(mode, chunks)
  {
    FirstChunkLeads(chunks);
    var c := FirstChunk(chunks);
    if c != [] {
      assert c[0] == Joined(chunks)[0] == Stream(mode, messages)[0] == Frame(mode, messages[0])[0];
      Detected(mode, messages[0], c);
    }
  }

  /**
   * MCP framing round trip, at every moment: whatever the framing and however the stream is cut into chunks,
   * the reader has delivered the complete messages in order and its buffer is a proper prefix of the next frame.
   */
  lemma FramingInStep(mode: Mode, messages: seq<Bytes>, chunks: seq<Bytes>)
    requires AllPrintable(mode, messages) && Joined(chunks) <= Stream(mode, messages)
    ensures InStep(mode, Printed(mode, messages), Joined(chunks), Feed(NEW_READER, chunks))
  {
    hide AllFrames, AllPrintable, Feed, Shows, Sent, Stream, InStep;
    AllPrinted(mode, messages);
    PrintedSent(mode, messages);
    PrintedShows(mode, messages, chunks);
    FramesInStep(mode, Printed(mode, messages), chunks);
  }

  /** At the end of the stream every message has been delivered and nothing is left. */
  lemma FramingRoundTrip(mode: Mode, messages: seq<Bytes>, chunks: seq<Bytes>)
    requires AllPrintable(mode, messages) && Joined(chunks) == Stream(mode, messages)
    ensures Feed(NEW_READER, chunks).received == messages && Feed(NEW_READER, chunks).buffer == []
  {
    hide AllFrames, AllPrintable, Feed, Shows, Sent, Stream;
    AllPrinted(mode, messages);
    PrintedSent(mode, messages);
    PrintedShows(mode, messages, chunks);
    FramesRead(mode, Printed(mode, messages), chunks);
  }

  // ---------------------------------------------------------------- lines with white space around them

  datatype Padded = Padded(before: Bytes, message: Bytes, after: Bytes)

  predicate IsPadded(l: Padded) {
    && AllBlank(l.before) && AllBlank(l.after) && LF !in l.before + l.message + l.after
    && l.message != [] && !IsSpace(l.message[0]) && !IsSpace(l.message[|l.message| - 1])
  }

  function Lined(l: Padded): Framed {
    Framed(l.before + l.message + l.after + [LF], l.message)
  }

  lemma {:induction false} TrimBlankEnd(m: Bytes, blanks: Bytes)
    requires AllBlank(blanks) && m != [] && !IsSpace(m[|m| - 1])
    ensures TrimEnd(m + blanks) == m
    decreases |blanks|
  {
    if blanks == [] {
      assert m + blanks == m;
    } else {
      var n := |blanks| - 1;
      assert (m + blanks)[..|m + blanks| - 1] == m + blanks[..n];
      TrimBlankEnd(m, blanks[..n]);
    }
  }

  lemma LineEndFound(line: Bytes, tail: Bytes)
    requires LF !in line
    ensures IndexOf(line + [LF] + tail, [LF]) == Some(|line|)
  {
    var s := line + [LF] + tail;
    assert s[|line|..|line| + 1] == [LF];
    NoOccurrence(s, [LF], |line|);
    IndexIs(s, [LF], |line|);
  }

  lemma LinedFrame(l: Padded)
    requires IsPadded(l)
    ensures IsFrame(Newline, Lined(l))
  {
    hide IndexOf, Trim;
    var line := l.before + l.message + l.after;
    assert line == l.before + (l.message + l.after);
    TrimBlankStart(l.before, l.message + l.after);
    TrimBlankEnd(l.message, l.after);
    assert Trim(line) == l.message by { Trimmed(line); }
    forall tail ensures ParseNext(Newline, Lined(l).bytes + tail) == Parsed(Some(l.message), tail) {
      var s := line + [LF] + tail;
      LineEndFound(line, tail);
      assert s[..|line|] == line && s[|line| + 1..] == tail;
    }
    forall part | part < line + [LF] ensures ParseNext(Newline, part) == Parsed(None, part) {
      assert forall i :: 0 <= i < |part| ==> part[i] == line[i] != LF;
      NoOccurrence(part, [LF], |part|);
      assert IndexOf(part, [LF]).None? by { NowhereFound(part); }
    }
  }

  lemma Trimmed(s: Bytes)
    ensures Trim(s) == TrimEnd(TrimStart(s))
  {
  }

  lemma NowhereFound(s: Bytes)
    requires LF !in s
    ensures IndexOf(s, [LF]).None?
  {
    NoOccurrence(s, [LF], |s|);
  }

  predicate AllPadded(lines: seq<Padded>) {
    forall i :: 0 <= i < |lines| ==> IsPadded(lines[i])
  }

  function AllLined(lines: seq<Padded>): (frames: seq<Framed>)
    ensures |frames| == |lines|
  {
    seq(|lines|, i requires 0 <= i < |lines| => Lined(lines[i]))
  }

  /** Lines with white space around their messages, and so with either line end, give the messages without it. */
  lemma PaddedLinesRead(lines: seq<Padded>, chunks: seq<Bytes>)
    requires AllPadded(lines) && Joined(chunks) == Sent(AllLined(lines)) && Shows(Newline, chunks)
    ensures |Feed(NEW_READER, chunks).received| == |lines| && Feed(NEW_READER, chunks).buffer == []
    ensures forall i :: 0 <= i < |lines| ==> Feed(NEW_READER, chunks).received[i] == lines[i].message
  {
    hide Feed, IsFrame, IsPadded, Shows, Sent;
    forall i | 0 <= i < |lines| ensures IsFrame(Newline, AllLined(lines)[i]) { LinedFrame(lines[i]); }
    FramesRead(Newline, AllLined(lines), chunks);
  }
}
