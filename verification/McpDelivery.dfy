/**
 * What the reader of McpFraming delivers of any bytes whatever, cut into chunks in any way, and what it holds back:
 * server/src/utils/mcp-client.ts.
 */
module McpDelivery {
  import opened Options
  import opened McpFraming

  // ---------------------------------------------------------------- what a buffer holds

  /** The messages of parsing on for as long as a message comes or the buffer shrinks. */
  function Readable(mode: Mode, buffer: Bytes): seq<Bytes>
    decreases |buffer|
  {
    var p := ParseNext(mode, buffer);
    match p.message
    case Some(m) => [m] + Readable(mode, p.rest)
    case None => if |p.rest| < |buffer| then Readable(mode, p.rest) else []
  }

  /** Behind any header blocks without a usable length comes one with a length, and its whole body. */
  predicate FrameAhead(buffer: Bytes)
    decreases |buffer|
  {
    match IndexOf(buffer, SEPARATOR)
    case None => false
    case Some(headerEnd) =>
      var start := headerEnd + |SEPARATOR|;
      match AnnouncedLength(buffer[..headerEnd])
      case None => FrameAhead(buffer[start..])
      case Some(length) => if length < 0 then FrameAhead(buffer[start..]) else start + length <= |buffer|
  }

  /** Behind the complete frames at its start comes a header block without a usable length, and a frame somewhere behind it. */
  predicate HidesFrame(buffer: Bytes)
    decreases |buffer|
  {
    match IndexOf(buffer, SEPARATOR)
    case None => false
    case Some(headerEnd) =>
      var start := headerEnd + |SEPARATOR|;
      match AnnouncedLength(buffer[..headerEnd])
      case None => FrameAhead(buffer[start..])
      case Some(length) =>
        if length < 0 then FrameAhead(buffer[start..])
        else start + length <= |buffer| && HidesFrame(buffer[start + length..])
  }

  lemma {:induction false} ReadableIff(buffer: Bytes)
    ensures Readable(ContentLength, buffer) != [] <==> FrameAhead(buffer)
    decreases |buffer|
  {
    hide AnnouncedLength, IndexOf;
    var p := ParseContentLength(buffer);
    if p.message.None? && |p.rest| < |buffer| { ReadableIff(p.rest); }
  }

  lemma {:induction false} NewlineRunsDry(buffer: Bytes)
    requires ParseNewline(buffer).message.None?
    ensures ParseNewline(ParseNewline(buffer).rest) == ParseNewline(buffer)
    decreases |buffer|
  {
    var i := IndexOf(buffer, [LF]);
    if i.Some? { NewlineRunsDry(buffer[i.value + 1..]); }
  }

  /** A buffer without a message left, in newline framing, has none behind its blank lines either. */
  lemma NothingReadable(buffer: Bytes)
    requires ParseNewline(buffer).message.None?
    ensures Readable(Newline, ParseNewline(buffer).rest) == []
  {
    hide ParseNewline;
    NewlineRunsDry(buffer);
  }

  lemma DetectedOnce(mode: Mode, buffer: Bytes)
    ensures Pump(mode, buffer) == Pump(DetectFraming(mode, buffer), buffer)
    ensures DetectFraming(mode, buffer) == Undetected ==> buffer == []
  {
  }

  lemma KnownStays(mode: Mode, buffer: Bytes)
    requires mode != Undetected
    ensures DetectFraming(mode, buffer) == mode
  {
  }

  lemma {:induction false} ModeStays(mode: Mode, buffer: Bytes)
    requires mode != Undetected
    ensures Pump(mode, buffer).mode == mode
    decreases |buffer|
  {
    hide DetectFraming, ParseNext;
    KnownStays(mode, buffer);
    var p := ParseNext(mode, buffer);
    if p.message.Some? { ModeStays(mode, p.rest); }
  }

  // ---------------------------------------------------------------- when the pump stops too early

  lemma {:induction false} HeadersHideIff(buffer: Bytes)
    ensures Readable(ContentLength, Pump(ContentLength, buffer).rest) != [] <==> HidesFrame(buffer)
    decreases |buffer|
  {
    hide AnnouncedLength, IndexOf, Readable, FrameAhead;
    var p := ParseContentLength(buffer);
    if p.message.Some? {
      HeadersHideIff(p.rest);
    } else {
      ReadableIff(p.rest);
      if p.rest == buffer { StuckNowhere(buffer); }
    }
  }

  /** A buffer whose first header block is not there, or whose body is not, holds no message. */
  lemma StuckNowhere(buffer: Bytes)
    requires ParseContentLength(buffer) == Parsed(None, buffer)
    ensures !FrameAhead(buffer)
  {
    hide AnnouncedLength;
  }

  lemma {:induction false} LinesNeverHide(buffer: Bytes)
    ensures Readable(Newline, Pump(Newline, buffer).rest) == []
    decreases |buffer|
  {
    hide ParseNewline, Readable;
    var p := ParseNewline(buffer);
    if p.message.Some? { LinesNeverHide(p.rest); } else { NothingReadable(buffer); }
  }

  /** The pump leaves readable messages in the buffer exactly when, in header framing, a frame is hidden. */
  lemma PumpLeavesIff(mode: Mode, buffer: Bytes)
    ensures var p := Pump(mode, buffer);
            && p.mode == DetectFraming(mode, buffer)
            && (Readable(p.mode, p.rest) != [] <==> p.mode == ContentLength && HidesFrame(buffer))
  {
    hide ParseContentLength, ParseNewline, HidesFrame, Pump;
    var mode' := DetectFraming(mode, buffer);
    DetectedOnce(mode, buffer);
    match mode'
    case Undetected => PumpNothing(Undetected); NothingAtAll(Undetected);
    case Newline => ModeStays(Newline, buffer); LinesNeverHide(buffer);
    case ContentLength => ModeStays(ContentLength, buffer); HeadersHideIff(buffer);
  }

  lemma NothingAtAll(mode: Mode)
    ensures Readable(mode, []) == []
  {
  }

  // ---------------------------------------------------------------- more bytes

  lemma {:induction false} LineStays(buffer: Bytes, more: Bytes)
    requires ParseNewline(buffer).message.Some?
    ensures ParseNewline(buffer + more) == Parsed(ParseNewline(buffer).message, ParseNewline(buffer).rest + more)
    decreases |buffer|
  {
    hide Trim, IndexOf;
    IndexStays(buffer, more, [LF]);
    var i := IndexOf(buffer, [LF]).value;
    assert (buffer + more)[..i] == buffer[..i] && (buffer + more)[i + 1..] == buffer[i + 1..] + more;
    if Trim(buffer[..i]) == [] { LineStays(buffer[i + 1..], more); }
  }

  lemma BlockStays(buffer: Bytes, more: Bytes)
    requires ParseContentLength(buffer) != Parsed(None, buffer)
    ensures ParseContentLength(buffer + more) == Parsed(ParseContentLength(buffer).message, ParseContentLength(buffer).rest + more)
  {
    hide AnnouncedLength, IndexOf;
    IndexStays(buffer, more, SEPARATOR);
    var i := IndexOf(buffer, SEPARATOR).value;
    var start := i + |SEPARATOR|;
    assert (buffer + more)[..i] == buffer[..i] && (buffer + more)[start..] == buffer[start..] + more;
    var length := AnnouncedLength(buffer[..i]);
    if length.Some? && 0 <= length.value {
      var end := start + length.value;
      assert (buffer + more)[start..end] == buffer[start..end] && (buffer + more)[end..] == buffer[end..] + more;
    }
  }

  /** Blank lines at its start make no difference to what a buffer holds. */
  lemma BlankLineSkipped(buffer: Bytes, i: nat)
    requires IndexOf(buffer, [LF]) == Some(i) && Trim(buffer[..i]) == []
    ensures Readable(Newline, buffer) == Readable(Newline, buffer[i + 1..])
  {
    hide Trim, IndexOf;
    var rest := buffer[i + 1..];
    var p := ParseNewline(rest);
    assert ParseNewline(buffer) == p;
    if p.message.None? {
      NewlineShrinks(rest);
      NothingReadable(rest);
    }
  }

  lemma {:induction false} NewlineShrinks(buffer: Bytes)
    ensures |ParseNewline(buffer).rest| <= |buffer|
    decreases |buffer|
  {
    var i := IndexOf(buffer, [LF]);
    if i.Some? { NewlineShrinks(buffer[i.value + 1..]); }
  }

  lemma {:induction false} DryLinesSkipped(buffer: Bytes, more: Bytes)
    requires ParseNewline(buffer).message.None?
    ensures Readable(Newline, ParseNewline(buffer).rest + more) == Readable(Newline, buffer + more)
    decreases |buffer|
  {
    hide Trim, IndexOf, Readable;
    var found := IndexOf(buffer, [LF]);
    if found.Some? {
      var i := found.value;
      IndexStays(buffer, more, [LF]);
      assert (buffer + more)[..i] == buffer[..i] && (buffer + more)[i + 1..] == buffer[i + 1..] + more;
      BlankLineSkipped(buffer + more, i);
      DryLinesSkipped(buffer[i + 1..], more);
    }
  }

  /** What a parse step takes from a buffer it takes from any longer one. */
  lemma StepStays(mode: Mode, buffer: Bytes, more: Bytes)
    requires mode != Undetected
    ensures var p := ParseNext(mode, buffer);
            Readable(mode, buffer + more) == (if p.message.Some? then [p.message.value] else []) + Readable(mode, p.rest + more)
  {
    hide ParseNewline, ParseContentLength;
    var p := ParseNext(mode, buffer);
    var none: seq<Bytes> := [];
    if mode == Newline {
      if p.message.Some? { LineStays(buffer, more); } else {
        DryLinesSkipped(buffer, more);
        assert none + Readable(mode, p.rest + more) == Readable(mode, p.rest + more);
      }
    } else if p != Parsed(None, buffer) {
      BlockStays(buffer, more);
      BlockShrinks(buffer);
      assert none + Readable(mode, p.rest + more) == Readable(mode, p.rest + more);
    } else {
      assert none + Readable(mode, p.rest + more) == Readable(mode, p.rest + more);
    }
  }

  lemma BlockShrinks(buffer: Bytes)
    requires ParseContentLength(buffer) != Parsed(None, buffer)
    ensures |ParseContentLength(buffer).rest| < |buffer|
  {
    hide AnnouncedLength, IndexOf;
  }

  /** What the pump delivers of a buffer, followed by what it leaves and any more bytes, is what they hold together. */
  lemma {:induction false} PumpConserves(mode: Mode, buffer: Bytes, more: Bytes)
    requires mode != Undetected
    ensures var p := Pump(mode, buffer); p.messages + Readable(mode, p.rest + more) == Readable(mode, buffer + more)
    decreases |buffer|
  {
    hide ParseNext, DetectFraming, Readable;
    KnownStays(mode, buffer);
    StepStays(mode, buffer, more);
    var p := ParseNext(mode, buffer);
    if p.message.Some? {
      PumpConserves(mode, p.rest, more);
      var later := Pump(mode, p.rest);
      assert ([p.message.value] + later.messages) + Readable(mode, later.rest + more) ==
             [p.message.value] + (later.messages + Readable(mode, later.rest + more));
    }
  }

  /**
   * For every buffer, the pump fails to deliver what the buffer holds exactly when, in header framing, the complete frames
   * at its start are followed by a header block without a usable length, and that, after any number of further such blocks,
   * by a complete frame.
   */
  lemma PumpLeavesMessageIff(mode: Mode, buffer: Bytes)
    ensures var mode' := DetectFraming(mode, buffer);
            Pump(mode, buffer).messages != Readable(mode', buffer) <==> mode' == ContentLength && HidesFrame(buffer)
  {
    hide DetectFraming, Pump, Readable, HidesFrame;
    var mode' := DetectFraming(mode, buffer);
    var p := Pump(mode, buffer);
    PumpLeavesIff(mode, buffer);
    DetectedOnce(mode, buffer);
    if mode' == Undetected {
      PumpNothing(Undetected);
      NothingAtAll(Undetected);
    } else {
      PumpConserves(mode', buffer, []);
      assert p.rest + [] == p.rest && buffer + [] == buffer;
    }
  }

  // ---------------------------------------------------------------- stray header blocks

  /** n header blocks of one stray byte each. */
  function Stray(noise: Byte, n: nat): Bytes {
    if n == 0 then [] else [noise] + SEPARATOR + Stray(noise, n - 1)
  }

  lemma BadHeaderStops(header: Bytes, tail: Bytes)
    requires IndexOf(header + SEPARATOR + tail, SEPARATOR) == Some(|header|)
    requires AnnouncedLength(header).None? || AnnouncedLength(header).value < 0
    ensures ParseContentLength(header + SEPARATOR + tail) == Parsed(None, tail)
  {
    hide IndexOf, AnnouncedLength;
    var s := header + SEPARATOR + tail;
    assert s[..|header|] == header && s[|header| + 4..] == tail;
  }

  lemma NoiseAnnouncesNothing(noise: Byte)
    requires noise != CR
    ensures AnnouncedLength([noise]) == None
  {
    NotSplit([noise], CRLF);
    assert |Lower([noise])| == 1;
    assert !(LOWER_HEADER <= Lower([noise]));
    assert [[noise]][1..] == [];
    assert FirstWithPrefix([[noise]], LOWER_HEADER) == FirstWithPrefix([], LOWER_HEADER) == None;
  }

  lemma NoiseEndsAt(noise: Byte, tail: Bytes)
    requires noise != CR
    ensures IndexOf([noise] + SEPARATOR + tail, SEPARATOR) == Some(1)
  {
    var s := [noise] + SEPARATOR + tail;
    NoOccurrence(s, SEPARATOR, 1);
    assert s[1..5] == SEPARATOR;
    IndexIs(s, SEPARATOR, 1);
  }

  lemma OneStray(noise: Byte, n: nat, tail: Bytes)
    requires noise != CR && n > 0
    ensures ParseContentLength(Stray(noise, n) + tail) == Parsed(None, Stray(noise, n - 1) + tail)
  {
    hide AnnouncedLength, IndexOf, ParseContentLength;
    var rest := Stray(noise, n - 1) + tail;
    assert Stray(noise, n) + tail == [noise] + SEPARATOR + rest;
    NoiseEndsAt(noise, rest);
    NoiseAnnouncesNothing(noise);
    BadHeaderStops([noise], rest);
  }

  lemma FrameDelivered(m: Bytes)
    ensures Pump(ContentLength, Frame(ContentLength, m)).messages == [m]
    ensures Readable(ContentLength, Frame(ContentLength, m)) == [m]
  {
    hide Frame, ParseNext;
    var frame := Frame(ContentLength, m);
    assert frame + [] == frame;
    ParseFrame(ContentLength, m, []);
    PumpNothing(ContentLength);
    NothingAtAll(ContentLength);
  }

  lemma {:induction false} StraysHold(m: Bytes, noise: Byte, n: nat)
    requires noise != CR
    ensures Readable(ContentLength, Stray(noise, n) + Frame(ContentLength, m)) == [m]
  {
    hide Frame, ParseContentLength;
    var frame := Frame(ContentLength, m);
    if n == 0 {
      assert Stray(noise, 0) + frame == frame;
      FrameDelivered(m);
    } else {
      OneStray(noise, n, frame);
      StraysHold(m, noise, n - 1);
    }
  }

  /**
   * Before a frame that is delivered on its own, any number of stray header blocks keep it back, although it can be read:
   * each time the pump runs it takes one of them away and delivers nothing.
   */
  lemma NoiseHidesFrame(m: Bytes, noise: Byte, n: nat)
    requires noise != CR && n > 0
    ensures Pump(ContentLength, Frame(ContentLength, m)).messages == [m]
    ensures Readable(ContentLength, Stray(noise, n) + Frame(ContentLength, m)) == [m]
    ensures Pump(ContentLength, Stray(noise, n) + Frame(ContentLength, m)) ==
            Pumped([], ContentLength, Stray(noise, n - 1) + Frame(ContentLength, m))
  {
    hide Frame, ParseContentLength, Readable, Stray;
    FrameDelivered(m);
    StraysHold(m, noise, n);
    OneStray(noise, n, Frame(ContentLength, m));
  }

  // ---------------------------------------------------------------- any bytes, in any chunks

  lemma {:induction false} FeedConserves(r: Reader, chunks: seq<Bytes>)
    requires r.mode != Undetected
    ensures var r' := Feed(r, chunks);
            && r'.mode == r.mode
            && r'.received + Readable(r.mode, r'.buffer) == r.received + Readable(r.mode, r.buffer + Joined(chunks))
    decreases |chunks|
  {
    hide Pump, Readable;
    if chunks == [] {
      assert r.buffer + [] == r.buffer;
    } else {
      var more := Joined(chunks[1..]);
      var buffer := r.buffer + chunks[0];
      var p := Pump(r.mode, buffer);
      ModeStays(r.mode, buffer);
      PumpConserves(r.mode, buffer, more);
      FeedConserves(OnData(r, chunks[0]), chunks[1..]);
      assert r.buffer + Joined(chunks) == buffer + more;
      assert (r.received + p.messages) + Readable(r.mode, p.rest + more) ==
             r.received + (p.messages + Readable(r.mode, p.rest + more));
    }
  }

  /**
   * Conservation: of any bytes, cut into chunks in any way, nothing is lost, repeated or reordered: what has been delivered
   * and what the buffer still holds are together what the bytes hold in the framing of the first chunk.
   */
  lemma {:induction false} NothingLost(chunks: seq<Bytes>)
    ensures var r := Feed(NEW_READER, chunks);
            && r.mode == DetectFraming(Undetected, FirstChunk(chunks))
            && r.received + Readable(r.mode, r.buffer) == Readable(r.mode, Joined(chunks))
    decreases |chunks|
  {
    hide Pump, Readable, DetectFraming;
    if chunks == [] {
      NothingAtAll(Undetected);
      NoneDetected();
    } else {
      var c := chunks[0];
      assert [] + c == c;
      if c == [] {
        PumpNothing(Undetected);
        assert OnData(NEW_READER, c) == NEW_READER;
        assert c + Joined(chunks[1..]) == Joined(chunks[1..]);
        NothingLost(chunks[1..]);
      } else {
        FirstDetected(c);
        var mode := DetectFraming(Undetected, c);
        PumpConserves(mode, c, Joined(chunks[1..]));
        FeedConserves(OnData(NEW_READER, c), chunks[1..]);
      }
    }
  }

  lemma NoneDetected()
    ensures DetectFraming(Undetected, []) == Undetected
  {
  }

  lemma FirstDetected(c: Bytes)
    requires c != []
    ensures var mode := DetectFraming(Undetected, c);
            mode != Undetected && Pump(Undetected, c) == Pump(mode, c) && Pump(mode, c).mode == mode
            && OnData(NEW_READER, c) == Reader(Pump(mode, c).messages, mode, Pump(mode, c).rest)
  {
    hide Pump;
    DetectedOnce(Undetected, c);
    ModeStays(DetectFraming(Undetected, c), c);
    assert [] + c == c;
    var none: seq<Bytes> := [];
    assert none + Pump(Undetected, c).messages == Pump(Undetected, c).messages;
  }

  lemma {:induction false} OnlyHeadersHold(r: Reader, chunks: seq<Bytes>)
    requires r.mode != ContentLength ==> Readable(r.mode, r.buffer) == []
    ensures var r' := Feed(r, chunks); r'.mode != ContentLength ==> Readable(r'.mode, r'.buffer) == []
    decreases |chunks|
  {
    hide Pump, Readable, DetectFraming, HidesFrame;
    if chunks != [] {
      PumpLeavesIff(r.mode, r.buffer + chunks[0]);
      OnlyHeadersHold(OnData(r, chunks[0]), chunks[1..]);
    }
  }

  /** The reader holds messages back exactly when, in header framing, a frame is ahead in its buffer. */
  lemma HeldBackIff(chunks: seq<Bytes>)
    ensures var r := Feed(NEW_READER, chunks);
            r.received != Readable(r.mode, Joined(chunks)) <==> r.mode == ContentLength && FrameAhead(r.buffer)
  {
    hide Feed, Readable, FrameAhead, DetectFraming;
    var r := Feed(NEW_READER, chunks);
    NothingLost(chunks);
    NothingAtAll(Undetected);
    OnlyHeadersHold(NEW_READER, chunks);
    if r.mode == ContentLength { ReadableIff(r.buffer); }
  }

  // ---------------------------------------------------------------- lines after leading white space

  /** A prefix of lines after white space shows its framing exactly when it reaches beyond the white space. */
  lemma DetectedIff(blanks: Bytes, messages: seq<Bytes>, c: Bytes)
    requires AllBlank(blanks) && AllPrintable(Newline, messages) && c <= blanks + Stream(Newline, messages) && c != []
    ensures DetectFraming(Undetected, c) == if AllBlank(c) then ContentLength else Newline
  {
    hide Stream;
    TrimStartFirst(c);
    if !AllBlank(c) {
      var k :| 0 <= k < |c| && AllBlank(c[..k]) && c[k] == TrimStart(c)[0] && !IsSpace(c[k]);
      var x := blanks + Stream(Newline, messages);
      assert forall j :: 0 <= j < |c| ==> c[j] == x[j];
      assert k >= |blanks|;
      LinesStart(messages);
      BlankBefore(c, k);
      assert c[|blanks|] == Stream(Newline, messages)[0];
    }
  }

  lemma BlankBefore(s: Bytes, k: nat)
    requires k <= |s| && AllBlank(s[..k])
    ensures forall j :: 0 <= j < k ==> IsSpace(s[j])
  {
    assert forall j :: 0 <= j < k ==> s[..k][j] == s[j];
  }

  lemma LinesStart(messages: seq<Bytes>)
    requires AllPrintable(Newline, messages)
    ensures Stream(Newline, messages) == [] <==> messages == []
    ensures messages != [] ==> Stream(Newline, messages)[0] == OPEN_BRACE
  {
  }

  /** The first line of white space and a stream, when the white space holds no line end of its own. */
  lemma FirstLine(blanks: Bytes, m: Bytes, tail: Bytes)
    requires AllBlank(blanks) && LF !in blanks && Printable(Newline, m)
    ensures ParseNewline(blanks + (m + [LF] + tail)) == Parsed(Some(m), tail)
  {
    var line := blanks + m;
    var s := blanks + (m + [LF] + tail);
    assert s == line + [LF] + tail;
    assert s[|line|..|line| + 1] == [LF];
    forall j | 0 <= j < |line| ensures s[j] != LF {
      assert s[j] == line[j];
      assert j >= |blanks| ==> line[j] == m[j - |blanks|];
    }
    NoOccurrence(s, [LF], |line|);
    IndexIs(s, [LF], |line|);
    assert s[..|line|] == line && s[|line| + 1..] == tail;
    TrimBlankStart(blanks, m);
    TrimNothing(m);
    assert Trim(line) == TrimEnd(TrimStart(line)) == TrimEnd(m) == m;
  }

  lemma {:induction false} BlanksThenLines(blanks: Bytes, messages: seq<Bytes>)
    requires AllBlank(blanks) && AllPrintable(Newline, messages)
    ensures Readable(Newline, blanks + Stream(Newline, messages)) == messages
    decreases |messages|, |blanks|
  {
    hide Trim, IndexOf;
    var x := blanks + Stream(Newline, messages);
    var found := IndexOf(blanks, [LF]);
    if found.Some? {
      var i := found.value;
      IndexStays(blanks, Stream(Newline, messages), [LF]);
      assert x[..i] == blanks[..i] && x[i + 1..] == blanks[i + 1..] + Stream(Newline, messages);
      BlankTrims(blanks[..i]);
      BlankLineSkipped(x, i);
      BlanksThenLines(blanks[i + 1..], messages);
    } else {
      NoLineEnd(blanks);
      if messages == [] {
        assert x == blanks;
      } else {
        var rest := Stream(Newline, messages[1..]);
        assert x == blanks + (messages[0] + [LF] + rest);
        FirstLine(blanks, messages[0], rest);
        BlanksThenLines([], messages[1..]);
        assert [] + rest == rest;
      }
    }
  }

  lemma NoLineEnd(s: Bytes)
    requires IndexOf(s, [LF]).None?
    ensures LF !in s
  {
    forall j | 0 <= j < |s| ensures s[j] != LF {
      assert !OccursAt(s, [LF], j);
      assert s[j..j + 1] == [s[j]];
    }
  }

  // ---------------------------------------------------------------- the same bytes, taken for header blocks

  /** Every header end comes after white space alone. */
  ghost predicate Headless(s: Bytes) {
    forall i :: 0 <= i && OccursAt(s, SEPARATOR, i) ==> AllBlank(s[..i])
  }

  lemma {:induction false} BlankParts(s: Bytes)
    requires AllBlank(s)
    ensures FirstWithPrefix(Split(s, CRLF), LOWER_HEADER) == None
    decreases |s|
  {
    hide IndexOf;
    match IndexOf(s, CRLF)
    case None =>
      BlankLine(s);
      assert [s][1..] == [];
    case Some(i) =>
      BlankLine(s[..i]);
      BlankParts(s[i + |CRLF|..]);
      var rest := Split(s[i + |CRLF|..], CRLF);
      assert ([s[..i]] + rest)[1..] == rest;
  }

  lemma BlankLine(s: Bytes)
    requires AllBlank(s)
    ensures !(LOWER_HEADER <= Lower(s))
  {
    if s != [] { assert Lower(s)[0] == LowerByte(s[0]) != LOWER_HEADER[0]; }
  }

  lemma HeadlessRest(s: Bytes, start: nat)
    requires Headless(s) && start <= |s|
    ensures Headless(s[start..])
  {
    forall i | 0 <= i && OccursAt(s[start..], SEPARATOR, i) ensures AllBlank(s[start..][..i]) {
      assert s[start..][i..i + 4] == s[start + i..start + i + 4];
      assert OccursAt(s, SEPARATOR, start + i);
      assert AllBlank(s[..start + i]);
      assert s[start..][..i] == s[..start + i][start..];
    }
  }

  lemma {:induction false} HeadlessHoldsNothing(s: Bytes)
    requires Headless(s)
    ensures Readable(ContentLength, s) == []
    decreases |s|
  {
    hide IndexOf, Headless, Split;
    match IndexOf(s, SEPARATOR)
    case None =>
    case Some(i) =>
      HeadlessAt(s, i);
      BlankParts(s[..i]);
      HeadlessRest(s, i + |SEPARATOR|);
      HeadlessHoldsNothing(s[i + |SEPARATOR|..]);
  }

  lemma HeadlessAt(s: Bytes, i: nat)
    requires Headless(s) && IndexOf(s, SEPARATOR) == Some(i)
    ensures AllBlank(s[..i]) && i + |SEPARATOR| <= |s|
  {
  }

  /** In a stream of lines each line end follows a closing brace. */
  lemma {:induction false} LinesEnd(messages: seq<Bytes>, k: nat)
    requires AllPrintable(Newline, messages) && k + 1 < |Stream(Newline, messages)|
    requires Stream(Newline, messages)[k + 1] == LF
    ensures Stream(Newline, messages)[k] == CLOSE_BRACE
    decreases |messages|
  {
    var m, rest := messages[0], Stream(Newline, messages[1..]);
    var x := m + [LF] + rest;
    assert Stream(Newline, messages) == x;
    assert forall j :: 0 <= j < |m| ==> x[j] == m[j] && m[j] != LF;
    if k + 1 > |m| {
      LinesStart(messages[1..]);
      var j := k + 1 - |m| - 1;
      assert x[k + 1] == rest[j];
      if j > 0 {
        LinesEnd(messages[1..], j - 1);
        assert x[k] == rest[j - 1];
      }
    }
  }

  lemma LinesHeadless(blanks: Bytes, messages: seq<Bytes>)
    requires AllBlank(blanks) && AllPrintable(Newline, messages)
    ensures Headless(blanks + Stream(Newline, messages))
  {
    hide Stream, AllPrintable;
    var lines := Stream(Newline, messages);
    var x := blanks + lines;
    forall i | 0 <= i && OccursAt(x, SEPARATOR, i) ensures AllBlank(x[..i]) {
      assert x[i..i + 4][0] == x[i] && x[i..i + 4][1] == x[i + 1];
      if i >= |blanks| {
        assert lines[i - |blanks|] == CR && lines[i - |blanks| + 1] == LF;
        LinesEnd(messages, i - |blanks|);
      }
      assert x[..i] == blanks[..i];
    }
  }

  // ---------------------------------------------------------------- the framing found

  /**
   * Lines after white space, at every moment and however they are cut into chunks, are taken for lines exactly when the
   * first chunk that is not empty reaches beyond the white space.
   */
  lemma LinesDetectedIff(blanks: Bytes, messages: seq<Bytes>, chunks: seq<Bytes>)
    requires AllBlank(blanks) && AllPrintable(Newline, messages)
    requires Joined(chunks) <= blanks + Stream(Newline, messages)
    ensures Feed(NEW_READER, chunks).mode == Newline <==> !AllBlank(FirstChunk(chunks))
  {
    hide Feed, DetectFraming, Readable, Stream, AllPrintable, AllBlank;
    NothingLost(chunks);
    FirstChunkLeads(chunks);
    var c := FirstChunk(chunks);
    if c == [] {
      NoneDetected();
      assert AllBlank(c) by { NoneBlank(); }
    } else {
      DetectedIff(blanks, messages, c);
    }
  }

  lemma NoneBlank()
    ensures AllBlank([])
  {
  }

  /**
   * The round trip of lines after white space: every message is delivered, and nothing stays in the buffer that will be,
   * when the first chunk that is not empty reaches beyond the white space; no message ever is when it does not.
   */
  lemma LinesRoundTripIff(blanks: Bytes, messages: seq<Bytes>, chunks: seq<Bytes>)
    requires AllBlank(blanks) && AllPrintable(Newline, messages)
    requires Joined(chunks) == blanks + Stream(Newline, messages)
    ensures Feed(NEW_READER, chunks).received == if AllBlank(FirstChunk(chunks)) then [] else messages
    ensures Feed(NEW_READER, chunks).received == messages <==> !AllBlank(FirstChunk(chunks)) || messages == []
  {
    hide Feed, DetectFraming, Readable, Stream, AllPrintable, AllBlank, FrameAhead;
    var r := Feed(NEW_READER, chunks);
    LinesDetectedIff(blanks, messages, chunks);
    HeldBackIff(chunks);
    NothingLost(chunks);
    if r.mode == Newline {
      BlanksThenLines(blanks, messages);
    } else {
      LinesHeadless(blanks, messages);
      HeadlessHoldsNothing(Joined(chunks));
      NothingBefore(chunks);
    }
  }

  /** With nothing to read in what has come, nothing has been delivered. */
  lemma NothingBefore(chunks: seq<Bytes>)
    requires Readable(ContentLength, Joined(chunks)) == []
    ensures Feed(NEW_READER, chunks).mode != Newline ==> Feed(NEW_READER, chunks).received == []
  {
    hide Feed, DetectFraming, Readable, FrameAhead;
    var r := Feed(NEW_READER, chunks);
    NothingLost(chunks);
    if r.mode == Undetected { UndetectedHolds(chunks); }
  }

  lemma UndetectedHolds(chunks: seq<Bytes>)
    requires DetectFraming(Undetected, FirstChunk(chunks)) == Undetected
    ensures Readable(Undetected, Joined(chunks)) == []
  {
    hide Readable;
    FirstChunkLeads(chunks);
    DetectedOnce(Undetected, FirstChunk(chunks));
    NothingAtAll(Undetected);
  }

  /** One blank line that comes in a chunk of its own loses a message that is delivered when they come together. */
  lemma BlankLineFirst(m: Bytes)
    requires Printable(Newline, m)
    ensures Feed(NEW_READER, [[LF] + Frame(Newline, m)]).received == [m]
    ensures Feed(NEW_READER, [[LF], Frame(Newline, m)]).received == []
  {
    hide Feed;
    var frame := Frame(Newline, m);
    assert Stream(Newline, [m]) == frame + Stream(Newline, [m][1..]) == frame + [] == frame;
    assert Joined([[LF] + frame]) == [LF] + frame by { assert [[LF] + frame][1..] == []; }
    assert Joined([[LF], frame]) == [LF] + frame by {
      assert [[LF], frame][1..] == [frame] && [frame][1..] == [];
      assert Joined([frame]) == frame + [] == frame;
    }
    assert AllBlank([LF]);
    assert ([LF] + frame)[1] == OPEN_BRACE;
    LinesRoundTripIff([LF], [m], [[LF] + frame]);
    LinesRoundTripIff([LF], [m], [[LF], frame]);
  }
}
