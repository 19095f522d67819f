/** Framing of JSON-RPC messages over a child process's pipes: server/src/utils/mcp-client.ts. */
module McpFraming {
  import opened Options

  newtype Byte = x: int | 0 <= x < 256
  type Bytes = seq<Byte>

  const TAB: Byte := 9
  const LF: Byte := 10
  const CR: Byte := 13
  const SPACE: Byte := 32
  const PLUS: Byte := 43
  const MINUS: Byte := 45
  const ZERO: Byte := 48
  const NINE: Byte := 57
  const COLON: Byte := 58
  const OPEN_BRACE: Byte := 123
  const CLOSE_BRACE: Byte := 125

  const CRLF: Bytes := [CR, LF]
  const SEPARATOR: Bytes := [CR, LF, CR, LF]

  /** "Content-Length:" and its lower-case form. */
  const HEADER: Bytes := [67, 111, 110, 116, 101, 110, 116, 45, 76, 101, 110, 103, 116, 104, 58]
  const LOWER_HEADER: Bytes := [99, 111, 110, 116, 101, 110, 116, 45, 108, 101, 110, 103, 116, 104, 58]

  datatype Mode = Undetected | Newline | ContentLength

  // ---------------------------------------------------------------- text

  predicate IsSpace(b: Byte) {
    TAB <= b <= CR || b == SPACE
  }

  function TrimStart(s: Bytes): Bytes {
    if s != [] && IsSpace(s[0]) then TrimStart(s[1..]) else s
  }

  function TrimEnd(s: Bytes): Bytes {
    if s != [] && IsSpace(s[|s| - 1]) then TrimEnd(s[..|s| - 1]) else s
  }

  function Trim(s: Bytes): Bytes {
    TrimEnd(TrimStart(s))
  }

  predicate AllBlank(s: Bytes) {
    forall i :: 0 <= i < |s| ==> IsSpace(s[i])
  }

  lemma {:induction false} TrimStartFirst(s: Bytes)
    ensures AllBlank(s) <==> TrimStart(s) == []
    ensures TrimStart(s) != [] ==>
              exists k :: 0 <= k < |s| && AllBlank(s[..k]) && s[k] == TrimStart(s)[0] && !IsSpace(s[k])
  {
    if s != [] && IsSpace(s[0]) {
      TrimStartFirst(s[1..]);
      assert s == [s[0]] + s[1..];
      if TrimStart(s[1..]) != [] {
        var k :| 0 <= k < |s[1..]| && AllBlank(s[1..][..k]) && s[1..][k] == TrimStart(s[1..])[0] && !IsSpace(s[1..][k]);
        assert s[..k + 1] == [s[0]] + s[1..][..k] && s[k + 1] == s[1..][k];
      }
    } else if s != [] {
      assert AllBlank(s[..0]);
    }
  }

  lemma {:induction false} TrimBlankStart(blanks: Bytes, m: Bytes)
    requires AllBlank(blanks) && m != [] && !IsSpace(m[0])
    ensures TrimStart(blanks + m) == m
  {
    if blanks == [] {
      assert blanks + m == m;
    } else {
      assert (blanks + m)[1..] == blanks[1..] + m;
      TrimBlankStart(blanks[1..], m);
    }
  }

  lemma BlankTrims(s: Bytes)
    requires AllBlank(s)
    ensures Trim(s) == []
  {
    TrimStartFirst(s);
  }

  predicate OccursAt(s: Bytes, pat: Bytes, i: nat) {
    i + |pat| <= |s| && s[i..i + |pat|] == pat
  }

  /** Buffer.indexOf: the first occurrence. */
  function IndexFrom(s: Bytes, pat: Bytes, from: nat): (r: Option<nat>)
    requires from <= |s|
    ensures r.Some? ==> from <= r.value && OccursAt(s, pat, r.value) && forall j :: from <= j < r.value ==> !OccursAt(s, pat, j)
    ensures r.None? ==> forall j :: from <= j ==> !OccursAt(s, pat, j)
    decreases |s| - from
  {
    if OccursAt(s, pat, from) then Some(from)
    else if from == |s| then None
    else IndexFrom(s, pat, from + 1)
  }

  function IndexOf(s: Bytes, pat: Bytes): (r: Option<nat>)
    ensures r.Some? ==> r.value + |pat| <= |s|
  {
    IndexFrom(s, pat, 0)
  }

  function Split(s: Bytes, sep: Bytes): (parts: seq<Bytes>)
    requires sep != []
    ensures parts != []
    decreases |s|
  {
    match IndexOf(s, sep)
    case None => [s]
    case Some(i) => [s[..i]] + Split(s[i + |sep|..], sep)
  }

  function LowerByte(b: Byte): Byte {
    if 65 <= b <= 90 then b + 32 else b
  }

  function Lower(s: Bytes): Bytes {
    seq(|s|, i requires 0 <= i < |s| => LowerByte(s[i]))
  }

  function FirstWithPrefix(lines: seq<Bytes>, prefix: Bytes): Option<Bytes> {
    if lines == [] then None
    else if prefix <= Lower(lines[0]) then Some(lines[0])
    else FirstWithPrefix(lines[1..], prefix)
  }

  // ---------------------------------------------------------------- decimal numbers

  predicate IsDigit(b: Byte) {
    ZERO <= b <= NINE
  }

  /** A number as the template string prints it. */
  function Decimal(n: nat): (s: Bytes)
    ensures s != [] && forall i :: 0 <= i < |s| ==> IsDigit(s[i])
  {
    (if n < 10 then [] else Decimal(n / 10)) + [ZERO + (n % 10) as Byte]
  }

  /** The value of the leading digits, after `acc`. */
  function Digits(s: Bytes, acc: nat): nat {
    if s != [] && IsDigit(s[0]) then Digits(s[1..], 10 * acc + (s[0] - ZERO) as nat) else acc
  }

  /** Number.parseInt with radix 10; NaN is None. */
  function ParseInt(s: Bytes): Option<int> {
    var t := TrimStart(s);
    var negative := t != [] && t[0] == MINUS;
    var digits := if t != [] && (t[0] == MINUS || t[0] == PLUS) then t[1..] else t;
    if digits == [] || !IsDigit(digits[0]) then None
    else Some(if negative then -(Digits(digits, 0) as int) else Digits(digits, 0))
  }

  lemma {:induction false} DigitsConcat(s: Bytes, d: Byte, acc: nat)
    requires forall i :: 0 <= i < |s| ==> IsDigit(s[i])
    requires IsDigit(d)
    ensures Digits(s + [d], acc) == 10 * Digits(s, acc) + (d - ZERO) as nat
  {
    if s == [] {
      assert s + [d] == [d] && [d][1..] == [];
    } else {
      assert (s + [d])[0] == s[0] && (s + [d])[1..] == s[1..] + [d];
      DigitsConcat(s[1..], d, 10 * acc + (s[0] - ZERO) as nat);
    }
  }

  /** Reading back a printed number. */
  lemma {:induction false} DecimalRead(n: nat)
    ensures Digits(Decimal(n), 0) == n
  {
    if n < 10 {
      assert Decimal(n) == [ZERO + n as Byte] && Decimal(n)[1..] == [];
    } else {
      DecimalRead(n / 10);
      DigitsConcat(Decimal(n / 10), ZERO + (n % 10) as Byte, 0);
    }
  }

  /** There is no other way to print a number without a leading zero. */
  lemma {:induction false} DecimalOnly(s: Bytes)
    requires s != [] && (forall i :: 0 <= i < |s| ==> IsDigit(s[i])) && (|s| == 1 || s[0] != ZERO)
    ensures Decimal(Digits(s, 0)) == s
    ensures s[0] != ZERO ==> Digits(s, 0) > 0
    decreases |s|
  {
    var n := |s| - 1;
    assert s == s[..n] + [s[n]];
    DigitsConcat(s[..n], s[n], 0);
    if n > 0 { DecimalOnly(s[..n]); }
  }

  // ---------------------------------------------------------------- reading

  function DetectFraming(mode: Mode, buffer: Bytes): Mode {
    if mode != Undetected || buffer == [] then mode
    else if TrimStart(buffer) != [] && TrimStart(buffer)[0] == OPEN_BRACE then Newline
    else ContentLength
  }

  /** The message read, if any, and what stays in the buffer. */
  datatype Parsed = Parsed(message: Option<Bytes>, rest: Bytes)

  function ParseNewline(buffer: Bytes): (p: Parsed)
    ensures p.message.Some? ==> |p.rest| < |buffer|
    decreases |buffer|
  {
    match IndexOf(buffer, [LF])
    case None => Parsed(None, buffer)
    case Some(i) =>
      var line := Trim(buffer[..i]);
      var rest := buffer[i + 1..];
      if line == [] then ParseNewline(rest) else Parsed(Some(line), rest)
  }

  /** The length a header block announces. */
  function AnnouncedLength(header: Bytes): Option<int> {
    match FirstWithPrefix(Split(header, CRLF), LOWER_HEADER)
    case None => None
    case Some(line) =>
      var fields := Split(line, [COLON]);
      ParseInt(if |fields| > 1 then Trim(fields[1]) else [])
  }

  function ParseContentLength(buffer: Bytes): (p: Parsed)
    ensures p.message.Some? ==> |p.rest| < |buffer|
  {
    match IndexOf(buffer, SEPARATOR)
    case None => Parsed(None, buffer)
    case Some(headerEnd) =>
      var start := headerEnd + |SEPARATOR|;
      match AnnouncedLength(buffer[..headerEnd])
      case None => Parsed(None, buffer[start..])
      case Some(length) =>
        if length < 0 then Parsed(None, buffer[start..])
        else if |buffer| < start + length then Parsed(None, buffer)
        else Parsed(Some(buffer[start..start + length]), buffer[start + length..])
  }

  function ParseNext(mode: Mode, buffer: Bytes): (p: Parsed)
    ensures p.message.Some? ==> |p.rest| < |buffer|
  {
    if mode == Newline then ParseNewline(buffer) else ParseContentLength(buffer)
  }

  datatype Pumped = Pumped(messages: seq<Bytes>, mode: Mode, rest: Bytes)

  /** pumpResponses: every message the buffer yields. */
  function Pump(mode: Mode, buffer: Bytes): Pumped
    decreases |buffer|
  {
    var mode' := DetectFraming(mode, buffer);
    var p := ParseNext(mode', buffer);
    match p.message
    case None => Pumped([], mode', p.rest)
    case Some(m) =>
      var more := Pump(mode', p.rest);
      Pumped([m] + more.messages, more.mode, more.rest)
  }

  // ---------------------------------------------------------------- writing

  function Header(length: nat): Bytes {
    HEADER + [SPACE] + Decimal(length)
  }

  /** writeMessage. */
  function Frame(mode: Mode, m: Bytes): Bytes {
    if mode == ContentLength then Header(|m|) + SEPARATOR + m else m + [LF]
  }

  function Stream(mode: Mode, messages: seq<Bytes>): Bytes {
    if messages == [] then [] else Frame(mode, messages[0]) + Stream(mode, messages[1..])
  }

  /** A printed JSON object: newline framing needs it on one line, header framing takes any body. */
  predicate Printable(mode: Mode, m: Bytes) {
    mode == ContentLength || (mode == Newline && m != [] && m[0] == OPEN_BRACE && m[|m| - 1] == CLOSE_BRACE && LF !in m)
  }

  predicate AllPrintable(mode: Mode, messages: seq<Bytes>) {
    mode != Undetected && forall i :: 0 <= i < |messages| ==> Printable(mode, messages[i])
  }

  // ---------------------------------------------------------------- one frame

  lemma IndexIs(s: Bytes, pat: Bytes, i: nat)
    requires OccursAt(s, pat, i) && forall j :: 0 <= j < i ==> !OccursAt(s, pat, j)
    ensures IndexOf(s, pat) == Some(i)
  {
  }

  /** A first occurrence stays the first one when bytes are appended. */
  lemma IndexStays(s: Bytes, more: Bytes, pat: Bytes)
    requires IndexOf(s, pat).Some? && pat != []
    ensures IndexOf(s + more, pat) == IndexOf(s, pat)
  {
    var i := IndexOf(s, pat).value;
    assert (s + more)[i..i + |pat|] == s[i..i + |pat|];
    forall j | 0 <= j < i ensures !OccursAt(s + more, pat, j) {
      assert !OccursAt(s, pat, j);
      assert (s + more)[j..j + |pat|] == s[j..j + |pat|];
    }
    IndexIs(s + more, pat, i);
  }

  lemma TrimNothing(s: Bytes)
    requires s != [] && !IsSpace(s[0]) && !IsSpace(s[|s| - 1])
    ensures Trim(s) == s
  {
  }

  lemma ParseLine(m: Bytes, tail: Bytes)
    requires Printable(Newline, m)
    ensures ParseNewline(m + [LF] + tail) == Parsed(Some(m), tail)
  {
    var s := m + [LF] + tail;
    assert s[|m|..|m| + 1] == [LF];
    forall j: nat | j < |m| ensures !OccursAt(s, [LF], j) {
      assert s[j] == m[j];
      assert s[j..j + 1][0] == s[j];
    }
    IndexIs(s, [LF], |m|);
    assert s[..|m|] == m && s[|m| + 1..] == tail;
    TrimNothing(m);
  }

  lemma ParsePartialLine(m: Bytes, buffer: Bytes)
    requires Printable(Newline, m) && buffer < m + [LF]
    ensures ParseNewline(buffer) == Parsed(None, buffer)
  {
    forall j: nat ensures !OccursAt(buffer, [LF], j) {
      if j < |buffer| {
        assert buffer[j] == (m + [LF])[j] == m[j];
        assert buffer[j..j + 1][0] == buffer[j];
      }
    }
  }

  /** A text without the first byte of a pattern has no occurrence of it. */
  lemma NoOccurrence(s: Bytes, pat: Bytes, n: nat)
    requires pat != [] && n <= |s| && forall i :: 0 <= i < n ==> s[i] != pat[0]
    ensures forall j: nat :: j < n ==> !OccursAt(s, pat, j)
  {
    forall j: nat | j < n ensures !OccursAt(s, pat, j) {
      if j + |pat| <= |s| { assert s[j..j + |pat|][0] == s[j]; }
    }
  }

  lemma NotSplit(s: Bytes, sep: Bytes)
    requires sep != [] && forall i :: 0 <= i < |s| ==> s[i] != sep[0]
    ensures Split(s, sep) == [s]
  {
    NoOccurrence(s, sep, |s|);
    assert forall j: nat :: !OccursAt(s, sep, j);
  }

  lemma HeaderBytes(length: nat)
    ensures forall i :: 0 <= i < |Header(length)| ==> Header(length)[i] != CR
    ensures LOWER_HEADER <= Lower(Header(length))
  {
  }

  lemma HeaderFields(length: nat)
    ensures Split(Header(length), [COLON]) == [HEADER[..|HEADER| - 1], [SPACE] + Decimal(length)]
  {
    var h := Header(length);
    var n := |HEADER| - 1;
    assert h[n] == COLON && h[n..n + 1] == [COLON];
    forall i | 0 <= i < n ensures h[i] != COLON { assert h[i] == HEADER[i]; }
    NoOccurrence(h, [COLON], n);
    IndexIs(h, [COLON], n);
    var value := [SPACE] + Decimal(length);
    assert h[n + 1..] == value && h[..n] == HEADER[..n];
    NotSplit(value, [COLON]);
  }

  lemma LengthAnnounced(length: nat)
    ensures AnnouncedLength(Header(length)) == Some(length)
  {
    var h := Header(length);
    HeaderBytes(length);
    NotSplit(h, CRLF);
    HeaderFields(length);
    var d := Decimal(length);
    var value := [SPACE] + d;
    assert value[1..] == d;
    assert TrimStart(value) == TrimStart(d) == d;
    assert Trim(value) == d;
    DecimalRead(length);
  }

  /** The header end that follows h is the first one. */
  predicate Heads(h: Bytes) {
    IndexOf(h + SEPARATOR, SEPARATOR) == Some(|h|)
  }

  lemma HeaderHeads(length: nat)
    ensures Heads(Header(length))
  {
    hide Header;
    var h := Header(length);
    var s := h + SEPARATOR;
    HeaderBytes(length);
    assert s[|h|..|h| + 4] == SEPARATOR;
    assert forall i :: 0 <= i < |h| ==> s[i] == h[i];
    NoOccurrence(s, SEPARATOR, |h|);
    IndexIs(s, SEPARATOR, |h|);
  }

  /** A message behind a header block that announces its length. */
  lemma ParseBody(h: Bytes, m: Bytes, tail: Bytes)
    requires Heads(h) && AnnouncedLength(h) == Some(|m|)
    ensures ParseContentLength(h + SEPARATOR + m + tail) == Parsed(Some(m), tail)
  {
    hide IndexOf, AnnouncedLength;
    var s := h + SEPARATOR + m + tail;
    assert s == (h + SEPARATOR) + (m + tail);
    IndexStays(h + SEPARATOR, m + tail, SEPARATOR);
    assert s[..|h|] == h;
    assert s[|h| + 4..|h| + 4 + |m|] == m && s[|h| + 4 + |m|..] == tail;
  }

  lemma ParsePartialBody(h: Bytes, m: Bytes, buffer: Bytes)
    requires Heads(h) && AnnouncedLength(h) == Some(|m|)
    requires buffer < h + SEPARATOR + m
    ensures ParseContentLength(buffer) == Parsed(None, buffer)
  {
    hide AnnouncedLength;
    var s := h + SEPARATOR + m;
    if |buffer| < |h| + 4 {
      forall j: nat ensures !OccursAt(buffer, SEPARATOR, j) {
        if j + 4 <= |buffer| {
          assert !OccursAt(h + SEPARATOR, SEPARATOR, j);
          assert buffer[j..j + 4] == s[j..j + 4] == (h + SEPARATOR)[j..j + 4];
        }
      }
    } else {
      var read := buffer[|h| + 4..];
      assert buffer == (h + SEPARATOR) + read by {
        assert buffer == s[..|buffer|];
        assert s[..|h| + 4] == h + SEPARATOR;
        assert buffer[..|h| + 4] == s[..|h| + 4];
      }
      IndexStays(h + SEPARATOR, read, SEPARATOR);
      assert buffer[..|h|] == h;
    }
  }

  lemma Detected(mode: Mode, m: Bytes, buffer: Bytes)
    requires mode != Undetected && Printable(mode, m) && buffer != []
    requires buffer[0] == Frame(mode, m)[0]
    ensures DetectFraming(mode, buffer) == mode && DetectFraming(Undetected, buffer) == mode
  {
  }

  lemma ParseFrame(mode: Mode, m: Bytes, tail: Bytes)
    requires mode != Undetected && Printable(mode, m)
    ensures ParseNext(mode, Frame(mode, m) + tail) == Parsed(Some(m), tail)
  {
    if mode == Newline {
      ParseLine(m, tail);
    } else {
      HeaderHeads(|m|);
      LengthAnnounced(|m|);
      ParseBody(Header(|m|), m, tail);
      assert Frame(mode, m) + tail == Header(|m|) + SEPARATOR + m + tail;
    }
  }

  lemma ParsePartial(mode: Mode, m: Bytes, buffer: Bytes)
    requires mode != Undetected && Printable(mode, m) && buffer < Frame(mode, m)
    ensures ParseNext(mode, buffer) == Parsed(None, buffer)
  {
    if mode == Newline {
      ParsePartialLine(m, buffer);
    } else {
      HeaderHeads(|m|);
      LengthAnnounced(|m|);
      ParsePartialBody(Header(|m|), m, buffer);
    }
  }

  // ---------------------------------------------------------------- chunk by chunk

  lemma PumpNothing(mode: Mode)
    ensures Pump(mode, []) == Pumped([], mode, [])
  {
  }

  /** The reader after some chunks: what it has delivered, and its framing mode and buffer. */
  datatype Reader = Reader(received: seq<Bytes>, mode: Mode, buffer: Bytes)

  const NEW_READER := Reader([], Undetected, [])

  function OnData(r: Reader, chunk: Bytes): Reader {
    var p := Pump(r.mode, r.buffer + chunk);
    Reader(r.received + p.messages, p.mode, p.rest)
  }

  function Feed(r: Reader, chunks: seq<Bytes>): Reader
    decreases |chunks|
  {
    if chunks == [] then r else Feed(OnData(r, chunks[0]), chunks[1..])
  }

  function Joined(chunks: seq<Bytes>): Bytes {
    if chunks == [] then [] else chunks[0] + Joined(chunks[1..])
  }

  /** The first chunk that is not empty. */
  function FirstChunk(chunks: seq<Bytes>): Bytes {
    if chunks == [] then [] else if chunks[0] != [] then chunks[0] else FirstChunk(chunks[1..])
  }

  lemma {:induction false} FirstChunkLeads(chunks: seq<Bytes>)
    ensures FirstChunk(chunks) <= Joined(chunks)
    ensures FirstChunk(chunks) == [] <==> Joined(chunks) == []
  {
    if chunks != [] { FirstChunkLeads(chunks[1..]); }
  }

  // ---------------------------------------------------------------- the client

  /** `received` lists the texts handed to the JSON parser. */
  class McpStdioClient {
    var readBuffer: Bytes
    var framingMode: Mode
    var received: seq<Bytes>

    function View(): Reader
      reads this
    {
      Reader(received, framingMode, readBuffer)
    }

    constructor ()
      ensures View() == NEW_READER
    {
      readBuffer, framingMode, received := [], Undetected, [];
    }

    /** What goes to the child's stdin; an undetected framing writes lines. */
    method WriteMessage(json: Bytes) returns (written: Bytes)
      ensures written == Frame(framingMode, json)
    {
      if framingMode == ContentLength {
        written := HEADER + [SPACE] + Decimal(|json|) + SEPARATOR + json;
      } else {
        written := json + [LF];
      }
    }

    method HandleData(chunk: Bytes)
      modifies this
      ensures View() == OnData(old(View()), chunk)
    {
      readBuffer := readBuffer + chunk;
      PumpResponses();
    }

    method PumpResponses()
      modifies this
      ensures View() == Reader(old(received) + Pump(old(framingMode), old(readBuffer)).messages,
                               Pump(old(framingMode), old(readBuffer)).mode,
                               Pump(old(framingMode), old(readBuffer)).rest)
    {
      hide ParseNext, DetectFraming;
      ghost var p := Pump(framingMode, readBuffer);
      while true
        invariant received + Pump(framingMode, readBuffer).messages == old(received) + p.messages
        invariant Pump(framingMode, readBuffer).mode == p.mode && Pump(framingMode, readBuffer).rest == p.rest
        decreases |readBuffer|
      {
        ghost var before := Pump(framingMode, readBuffer);
        var msg := ParseNextMessage();
        if msg.None? {
          assert before.messages == [];
          return;
        }
        assert before.messages == [msg.value] + Pump(framingMode, readBuffer).messages;
        received := received + [msg.value];
      }
    }

    method ParseNextMessage() returns (msg: Option<Bytes>)
      modifies this`readBuffer, this`framingMode
      ensures framingMode == DetectFraming(old(framingMode), old(readBuffer))
      ensures Parsed(msg, readBuffer) == ParseNext(framingMode, old(readBuffer))
    {
      if framingMode == Undetected && readBuffer != [] {
        var text := TrimStart(readBuffer);
        framingMode := if text != [] && text[0] == OPEN_BRACE then Newline else ContentLength;
      }
      if framingMode == Newline {
        msg := ParseNewlineMessage();
      } else {
        msg := ParseContentLengthMessage();
      }
    }

    /** Empty lines are skipped by calling itself again. */
    method ParseNewlineMessage() returns (msg: Option<Bytes>)
      modifies this`readBuffer
      ensures Parsed(msg, readBuffer) == ParseNewline(old(readBuffer))
      decreases |readBuffer|
    {
      var newlineIdx := IndexOf(readBuffer, [LF]);
      if newlineIdx.None? { return None; }
      var line := Trim(readBuffer[..newlineIdx.value]);
      readBuffer := readBuffer[newlineIdx.value + 1..];
      if line == [] {
        msg := ParseNewlineMessage();
      } else {
        msg := Some(line);
      }
    }

    method ParseContentLengthMessage() returns (msg: Option<Bytes>)
      modifies this`readBuffer
      ensures Parsed(msg, readBuffer) == ParseContentLength(old(readBuffer))
    {
      var headerEnd := IndexOf(readBuffer, SEPARATOR);
      if headerEnd.None? { return None; }
      var messageStart := headerEnd.value + |SEPARATOR|;
      var contentLengthLine := FirstWithPrefix(Split(readBuffer[..headerEnd.value], CRLF), LOWER_HEADER);
      if contentLengthLine.None? {
        readBuffer := readBuffer[messageStart..];
        return None;
      }
      var fields := Split(contentLengthLine.value, [COLON]);
      var contentLength := ParseInt(if |fields| > 1 then Trim(fields[1]) else []);
      if contentLength.None? || contentLength.value < 0 {
        readBuffer := readBuffer[messageStart..];
        return None;
      }
      var messageEnd := messageStart + contentLength.value;
      if |readBuffer| < messageEnd { return None; }
      msg := Some(readBuffer[messageStart..messageEnd]);
      readBuffer := readBuffer[messageEnd..];
    }
  }
}
