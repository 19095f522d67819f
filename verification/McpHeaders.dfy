/** Header blocks of any fields: which length they announce, and the frames they head: server/src/utils/mcp-client.ts. */
module McpHeaders {
  import opened Options
  import opened McpFraming
  import opened McpDelivery
  import opened McpStreams

  // ---------------------------------------------------------------- header blocks

  predicate IsLine(s: Bytes) {
    s != [] && CR !in s
  }

  predicate AreLines(lines: seq<Bytes>) {
    lines != [] && forall i :: 0 <= i < |lines| ==> IsLine(lines[i])
  }

  /** The lines of a header block, with a line end between each two. */
  function Block(lines: seq<Bytes>): Bytes
    requires lines != []
  {
    if |lines| == 1 then lines[0] else lines[0] + CRLF + Block(lines[1..])
  }

  lemma FirstLineEnd(line: Bytes, rest: Bytes)
    requires CR !in line
    ensures IndexOf(line + CRLF + rest, CRLF) == Some(|line|)
  {
    var s := line + CRLF + rest;
    NoOccurrence(s, CRLF, |line|);
    assert s[|line|..|line| + 2] == CRLF;
    IndexIs(s, CRLF, |line|);
  }

  lemma {:induction false} BlockSplits(lines: seq<Bytes>)
    requires AreLines(lines)
    ensures Split(Block(lines), CRLF) == lines
    decreases |lines|
  {
    hide IndexOf;
    var line := lines[0];
    assert IsLine(line);
    if |lines| == 1 {
      NotSplit(line, CRLF);
    } else {
      BlockSplits(lines[1..]);
      var rest := Block(lines[1..]);
      var s := line + CRLF + rest;
      FirstLineEnd(line, rest);
      assert s[..|line|] == line && s[|line| + 2..] == rest;
    }
  }

  lemma BlockStarts(lines: seq<Bytes>)
    requires AreLines(lines)
    ensures Block(lines) != [] && Block(lines)[0] == lines[0][0] != CR
  {
    assert IsLine(lines[0]);
  }

  /** The header end that follows a block is the first one. */
  lemma {:induction false} BlockHeads(lines: seq<Bytes>)
    requires AreLines(lines)
    ensures Heads(Block(lines))
    decreases |lines|
  {
    hide IndexOf;
    var line := lines[0];
    assert IsLine(line);
    var s := Block(lines) + SEPARATOR;
    assert s[|Block(lines)|..|Block(lines)| + 4] == SEPARATOR;
    if |lines| == 1 {
      NoOccurrence(s, SEPARATOR, |line|);
    } else {
      BlockHeads(lines[1..]);
      BlockStarts(lines[1..]);
      var rest := Block(lines[1..]) + SEPARATOR;
      var n := |line| + 2;
      assert s == line + CRLF + rest;
      NoOccurrence(s, SEPARATOR, |line|);
      forall j: nat | j < |Block(lines)| ensures !OccursAt(s, SEPARATOR, j) {
        if n <= j {
          LaterOccurrence(s, n, rest, j);
        } else if j == |line| {
          assert s[j + 2] == rest[0];
          Mismatch(s, SEPARATOR, j, 2);
        } else if j == |line| + 1 {
          Mismatch(s, SEPARATOR, j, 0);
        }
      }
    }
    IndexIs(s, SEPARATOR, |Block(lines)|);
  }

  lemma Mismatch(s: Bytes, pat: Bytes, j: nat, k: nat)
    requires k < |pat| && j + k < |s| && s[j + k] != pat[k]
    ensures !OccursAt(s, pat, j)
  {
    if j + |pat| <= |s| { assert s[j..j + |pat|][k] == s[j + k]; }
  }

  lemma LaterOccurrence(s: Bytes, n: nat, rest: Bytes, j: nat)
    requires n <= |s| && s[n..] == rest && n <= j < |s| - |SEPARATOR|
    requires IndexOf(rest, SEPARATOR) == Some(|rest| - |SEPARATOR|)
    ensures !OccursAt(s, SEPARATOR, j)
  {
    assert !OccursAt(rest, SEPARATOR, j - n);
    assert s[j..j + 4] == rest[j - n..j - n + 4];
  }

  // ---------------------------------------------------------------- the length field

  /** A byte is a character in lower case, or its capital. */
  predicate SpellsByte(b: Byte, c: char) {
    b as int == c as int || ('a' <= c <= 'z' && b as int == c as int - 32)
  }

  /** The name of the length field, in any mixture of cases, with its colon. */
  predicate NamesLength(s: Bytes) {
    var name := "content-length:";
    |s| == |name| && forall i :: 0 <= i < |s| ==> SpellsByte(s[i], name[i])
  }

  predicate StartsLength(line: Bytes) {
    |LOWER_HEADER| <= |line| && NamesLength(line[..|LOWER_HEADER|])
  }

  lemma NameSpelt(i: nat)
    requires i < |LOWER_HEADER|
    ensures |LOWER_HEADER| == |"content-length:"| && LOWER_HEADER[i] as int == "content-length:"[i] as int
  {
  }

  lemma SpeltIff(b: Byte, i: nat)
    requires i < |LOWER_HEADER|
    ensures |LOWER_HEADER| == |"content-length:"|
    ensures SpellsByte(b, "content-length:"[i]) <==> LowerByte(b) == LOWER_HEADER[i]
  {
    NameSpelt(i);
  }

  lemma StartsIff(line: Bytes)
    ensures LOWER_HEADER <= Lower(line) <==> StartsLength(line)
  {
    if |LOWER_HEADER| <= |line| {
      forall i | 0 <= i < |LOWER_HEADER|
        ensures |LOWER_HEADER| == |"content-length:"|
        ensures SpellsByte(line[i], "content-length:"[i]) <==> Lower(line)[i] == LOWER_HEADER[i]
      {
        SpeltIff(line[i], i);
      }
    }
  }

  lemma {:induction false} FirstFound(before: seq<Bytes>, line: Bytes, after: seq<Bytes>)
    requires (forall i :: 0 <= i < |before| ==> !StartsLength(before[i])) && StartsLength(line)
    ensures FirstWithPrefix(before + [line] + after, LOWER_HEADER) == Some(line)
    decreases |before|
  {
    hide StartsLength;
    var lines := before + [line] + after;
    StartsIff(lines[0]);
    if before != [] {
      assert lines[1..] == before[1..] + [line] + after;
      FirstFound(before[1..], line, after);
    }
  }

  lemma {:induction false} NoneFound(lines: seq<Bytes>)
    requires forall i :: 0 <= i < |lines| ==> !StartsLength(lines[i])
    ensures FirstWithPrefix(lines, LOWER_HEADER) == None
    decreases |lines|
  {
    hide StartsLength;
    if lines != [] {
      StartsIff(lines[0]);
      NoneFound(lines[1..]);
    }
  }

  // ---------------------------------------------------------------- its value

  /** What comes before the first separator byte. */
  lemma FirstField(s: Bytes)
    ensures var f := Split(s, [COLON])[0]; f <= s && (f == s || s[|f|] == COLON) && COLON !in f
  {
    var i := IndexOf(s, [COLON]);
    var f := Split(s, [COLON])[0];
    forall j | 0 <= j < |f| ensures f[j] != COLON {
      assert !OccursAt(s, [COLON], j);
      assert s[j..j + 1] == [s[j]];
    }
    if i.Some? { assert s[i.value..i.value + 1][0] == COLON; }
  }

  lemma NameSplits(name: Bytes, value: Bytes)
    requires NamesLength(name)
    ensures Split(name + value, [COLON]) == [name[..|name| - 1]] + Split(value, [COLON])
  {
    var s := name + value;
    var n := |name| - 1;
    assert SpellsByte(name[n], ':');
    assert s[n..n + 1] == [COLON];
    forall i | 0 <= i < n ensures s[i] != COLON { NotColon(name, i); }
    NoOccurrence(s, [COLON], n);
    IndexIs(s, [COLON], n);
    assert s[n + 1..] == value && s[..n] == name[..n];
  }

  lemma NotColon(name: Bytes, i: nat)
    requires NamesLength(name) && i < |name| - 1
    ensures name[i] != COLON
  {
    assert SpellsByte(name[i], "content-length:"[i]);
  }

  lemma {:induction false} TrimEndKeeps(core: Bytes, rest: Bytes)
    requires core != [] && !IsSpace(core[|core| - 1])
    ensures core <= TrimEnd(core + rest) <= core + rest
    decreases |rest|
  {
    var s := core + rest;
    if rest != [] && IsSpace(s[|s| - 1]) {
      assert s[..|s| - 1] == core + rest[..|rest| - 1];
      TrimEndKeeps(core, rest[..|rest| - 1]);
    } else if rest == [] {
      assert s == core;
    }
  }

  lemma {:induction false} DigitsStop(digits: Bytes, rest: Bytes, acc: nat)
    requires (forall i :: 0 <= i < |digits| ==> IsDigit(digits[i])) && (rest == [] || !IsDigit(rest[0]))
    ensures Digits(digits + rest, acc) == Digits(digits, acc)
    decreases |digits|
  {
    if digits == [] {
      assert digits + rest == rest;
    } else {
      assert (digits + rest)[1..] == digits[1..] + rest;
      DigitsStop(digits[1..], rest, 10 * acc + (digits[0] - ZERO) as nat);
    }
  }

  predicate IsSign(sign: Bytes) {
    sign == [] || sign == [PLUS] || sign == [MINUS]
  }

  function Signed(sign: Bytes, n: nat): int {
    if sign == [MINUS] then -(n as int) else n
  }

  /** Nothing more of the number. */
  predicate EndsNumber(rest: Bytes) {
    rest == [] || !IsDigit(rest[0])
  }

  lemma DigitsRead(n: nat, rest: Bytes)
    requires EndsNumber(rest)
    ensures var digits := Decimal(n) + rest; digits != [] && IsDigit(digits[0]) && Digits(digits, 0) == n
  {
    hide Digits;
    DigitsStop(Decimal(n), rest, 0);
    DecimalRead(n);
  }

  lemma NumberRead(sign: Bytes, n: nat, rest: Bytes)
    requires IsSign(sign) && EndsNumber(rest)
    ensures ParseInt(sign + Decimal(n) + rest) == Some(Signed(sign, n))
  {
    hide Digits, Decimal;
    var t := sign + Decimal(n) + rest;
    var digits := Decimal(n) + rest;
    DigitsRead(n, rest);
    if sign == [] { assert t == digits; } else { assert t == sign + digits && t[1..] == digits; }
    assert TrimStart(t) == t;
  }

  /** The first field of a value that starts without a separator byte goes at least as far. */
  lemma FirstFieldOf(start: Bytes, rest: Bytes) returns (inner: Bytes)
    requires COLON !in start
    ensures Split(start + rest, [COLON])[0] == start + inner && inner <= rest
  {
    hide Split;
    var value := start + rest;
    FirstField(value);
    var f := Split(value, [COLON])[0];
    assert forall i :: 0 <= i < |start| ==> value[i] == start[i] != COLON;
    assert |start| <= |f|;
    inner := f[|start|..];
    assert f == value[..|f|];
    assert f == start + inner;
  }

  lemma SignedStarts(sign: Bytes, n: nat)
    requires IsSign(sign)
    ensures var core := sign + Decimal(n);
            core != [] && !IsSpace(core[0]) && !IsSpace(core[|core| - 1]) && COLON !in core
  {
    hide Decimal;
    var core := sign + Decimal(n);
    assert IsDigit(core[|core| - 1]);
    assert forall i :: |sign| <= i < |core| ==> core[i] == Decimal(n)[i - |sign|];
  }

  /** The number behind white space and an optional sign is read, whatever follows it. */
  lemma ValueRead(name: Bytes, blanks: Bytes, sign: Bytes, n: nat, rest: Bytes)
    requires NamesLength(name) && AllBlank(blanks) && IsSign(sign) && EndsNumber(rest)
    ensures var fields := Split(name + (blanks + sign + Decimal(n) + rest), [COLON]);
            |fields| > 1 && ParseInt(Trim(fields[1])) == Some(Signed(sign, n))
  {
    hide ParseInt, Split, Decimal, IsSign, TrimEnd, TrimStart, Signed, NamesLength;
    var core := sign + Decimal(n);
    SignedStarts(sign, n);
    NameSplits(name, blanks + sign + Decimal(n) + rest);
    assert blanks + sign + Decimal(n) + rest == (blanks + core) + rest;
    var inner := FirstFieldOf(blanks + core, rest);
    assert (blanks + core) + inner == blanks + (core + inner);
    TrimBlankStart(blanks, core + inner);
    TrimEndKeeps(core, inner);
    var t := TrimEnd(core + inner);
    var more := t[|core|..];
    assert t == sign + Decimal(n) + more by { assert t == t[..|core|] + more; }
    assert EndsNumber(more) by { PrefixFirst(core, inner, t); }
    NumberRead(sign, n, more);
  }

  lemma PrefixFirst(core: Bytes, inner: Bytes, t: Bytes)
    requires core <= t <= core + inner
    ensures t[|core|..] <= inner && (t[|core|..] == [] || t[|core|..][0] == inner[0])
  {
    assert t == (core + inner)[..|t|];
  }

  /** A number starts here. */
  predicate NumberAhead(s: Bytes) {
    s != [] && (IsDigit(s[0]) || ((s[0] == PLUS || s[0] == MINUS) && |s| > 1 && IsDigit(s[1])))
  }

  lemma NoNumberRead(t: Bytes)
    requires !NumberAhead(t) && (t == [] || !IsSpace(t[0]))
    ensures ParseInt(t) == None
  {
  }

  lemma NoValueRead(name: Bytes, blanks: Bytes, rest: Bytes)
    requires NamesLength(name) && AllBlank(blanks) && !NumberAhead(rest) && (rest == [] || !IsSpace(rest[0]))
    ensures var fields := Split(name + (blanks + rest), [COLON]); |fields| > 1 && ParseInt(Trim(fields[1])) == None
  {
    hide ParseInt, Split, NamesLength;
    NameSplits(name, blanks + rest);
    var x := FirstFieldOf(blanks, rest);
    if x == [] {
      assert blanks + x == blanks;
      BlankTrims(blanks);
      NoNumberRead([]);
    } else {
      TrimBlankStart(blanks, x);
      TrimEndKeeps([x[0]], x[1..]);
      assert [x[0]] + x[1..] == x;
      NoNumberRead(TrimEnd(x));
    }
  }

  // ---------------------------------------------------------------- what a block announces

  lemma NameStarts(name: Bytes, value: Bytes)
    requires NamesLength(name)
    ensures StartsLength(name + value)
  {
    assert (name + value)[..|name|] == name;
  }

  /**
   * The length of a header block is the number in its first length field: in whatever line that is, its name in any case,
   * behind white space and a sign, and whatever follows it.
   */
  lemma LengthFound(before: seq<Bytes>, name: Bytes, blanks: Bytes, sign: Bytes, n: nat, rest: Bytes, after: seq<Bytes>)
    requires NamesLength(name) && AllBlank(blanks) && IsSign(sign) && EndsNumber(rest)
    requires forall i :: 0 <= i < |before| ==> !StartsLength(before[i])
    requires AreLines(before + [name + (blanks + sign + Decimal(n) + rest)] + after)
    ensures AnnouncedLength(Block(before + [name + (blanks + sign + Decimal(n) + rest)] + after)) ==
            Some(Signed(sign, n))
  {
    hide ParseInt, Split, FirstWithPrefix, Trim, StartsLength, AllBlank, AreLines;
    var line := name + (blanks + sign + Decimal(n) + rest);
    BlockSplits(before + [line] + after);
    NameStarts(name, blanks + sign + Decimal(n) + rest);
    FirstFound(before, line, after);
    ValueRead(name, blanks, sign, n, rest);
  }

  /** A first length field without a number announces nothing, whatever later ones say. */
  lemma LengthUnreadable(before: seq<Bytes>, name: Bytes, blanks: Bytes, rest: Bytes, after: seq<Bytes>)
    requires NamesLength(name) && AllBlank(blanks) && !NumberAhead(rest) && (rest == [] || !IsSpace(rest[0]))
    requires forall i :: 0 <= i < |before| ==> !StartsLength(before[i])
    requires AreLines(before + [name + (blanks + rest)] + after)
    ensures AnnouncedLength(Block(before + [name + (blanks + rest)] + after)) == None
  {
    hide ParseInt, Split, FirstWithPrefix, Trim, StartsLength, AllBlank, AreLines, NumberAhead;
    var line := name + (blanks + rest);
    BlockSplits(before + [line] + after);
    NameStarts(name, blanks + rest);
    FirstFound(before, line, after);
    NoValueRead(name, blanks, rest);
  }

  /** Without a length field there is no length. */
  lemma LengthMissing(lines: seq<Bytes>)
    requires AreLines(lines) && forall i :: 0 <= i < |lines| ==> !StartsLength(lines[i])
    ensures AnnouncedLength(Block(lines)) == None
  {
    hide Split, FirstWithPrefix, StartsLength, AreLines;
    BlockSplits(lines);
    NoneFound(lines);
  }

  // ---------------------------------------------------------------- frames with any header fields

  /** A header block around a length: the fields before it, how its own is written, and the fields after it. */
  datatype Fields = Fields(before: seq<Bytes>, name: Bytes, blanks: Bytes, rest: Bytes, after: seq<Bytes>)

  function Lines(h: Fields, n: nat): (lines: seq<Bytes>)
    ensures lines != []
  {
    h.before + [h.name + (h.blanks + [] + Decimal(n) + h.rest)] + h.after
  }

  predicate Proper(h: Fields, n: nat) {
    && AreLines(Lines(h, n))
    && NamesLength(h.name) && AllBlank(h.blanks) && EndsNumber(h.rest)
    && forall i :: 0 <= i < |h.before| ==> !StartsLength(h.before[i])
  }

  function Headed(h: Fields, m: Bytes): Framed {
    Framed(Block(Lines(h, |m|)) + SEPARATOR + m, m)
  }

  lemma HeadedFrame(h: Fields, m: Bytes)
    requires Proper(h, |m|)
    ensures IsFrame(ContentLength, Headed(h, m))
  {
    hide Block, AreLines, AnnouncedLength, NamesLength, StartsLength, ParseContentLength, Heads, AllBlank;
    var block := Block(Lines(h, |m|));
    LengthFound(h.before, h.name, h.blanks, [], |m|, h.rest, h.after);
    BlockHeads(Lines(h, |m|));
    var bytes := block + SEPARATOR + m;
    forall tail ensures ParseNext(ContentLength, bytes + tail) == Parsed(Some(m), tail) { ParseBody(block, m, tail); }
    forall part | part < bytes ensures ParseNext(ContentLength, part) == Parsed(None, part) {
      ParsePartialBody(block, m, part);
    }
  }

  predicate AllProper(fields: seq<Fields>, messages: seq<Bytes>) {
    |fields| == |messages| && forall i :: 0 <= i < |messages| ==> Proper(fields[i], |messages[i]|)
  }

  function AllHeaded(fields: seq<Fields>, messages: seq<Bytes>): (frames: seq<Framed>)
    requires |fields| == |messages|
    ensures |frames| == |messages|
  {
    seq(|messages|, i requires 0 <= i < |messages| => Headed(fields[i], messages[i]))
  }

  lemma HeadedFrames(fields: seq<Fields>, messages: seq<Bytes>)
    requires AllProper(fields, messages)
    ensures AllFrames(ContentLength, AllHeaded(fields, messages))
    ensures Messages(AllHeaded(fields, messages)) == messages
  {
    hide Proper, IsFrame;
    forall i | 0 <= i < |messages| ensures IsFrame(ContentLength, AllHeaded(fields, messages)[i]) {
      HeadedFrame(fields[i], messages[i]);
    }
  }

  /** The first byte that is not white space is an opening brace. */
  ghost predicate BraceFirst(s: Bytes) {
    exists k :: 0 <= k < |s| && AllBlank(s[..k]) && s[k] == OPEN_BRACE
  }

  lemma BraceDetected(c: Bytes)
    requires c != []
    ensures DetectFraming(Undetected, c) == if BraceFirst(c) then Newline else ContentLength
  {
    TrimStartFirst(c);
    if BraceFirst(c) {
      var k :| 0 <= k < |c| && AllBlank(c[..k]) && c[k] == OPEN_BRACE;
      assert c == c[..k] + c[k..] && c[k..][0] == OPEN_BRACE;
      TrimBlankStart(c[..k], c[k..]);
    }
  }

  /**
   * Header framing at every moment, with any fields before and after each length, in any case and any chunks that do not
   * start with a brace: the complete messages have been delivered, and the buffer is a proper prefix of the next frame.
   */
  lemma HeadersInStep(fields: seq<Fields>, messages: seq<Bytes>, chunks: seq<Bytes>)
    requires AllProper(fields, messages) && !BraceFirst(FirstChunk(chunks))
    requires Joined(chunks) <= Sent(AllHeaded(fields, messages))
    ensures InStep(ContentLength, AllHeaded(fields, messages), Joined(chunks), Feed(NEW_READER, chunks))
  {
    hide Proper, AllFrames, BraceFirst, DetectFraming, InStep, Feed, Sent, AllHeaded;
    HeadedFrames(fields, messages);
    if FirstChunk(chunks) != [] { BraceDetected(FirstChunk(chunks)); }
    FramesInStep(ContentLength, AllHeaded(fields, messages), chunks);
  }

  /** At the end of the stream every message has been delivered and nothing is left. */
  lemma HeadersRead(fields: seq<Fields>, messages: seq<Bytes>, chunks: seq<Bytes>)
    requires AllProper(fields, messages) && !BraceFirst(FirstChunk(chunks))
    requires Joined(chunks) == Sent(AllHeaded(fields, messages))
    ensures Feed(NEW_READER, chunks).received == messages && Feed(NEW_READER, chunks).buffer == []
  {
    hide Proper, AllFrames, BraceFirst, DetectFraming, Feed, Sent, AllHeaded;
    HeadedFrames(fields, messages);
    if FirstChunk(chunks) != [] { BraceDetected(FirstChunk(chunks)); }
    FramesRead(ContentLength, AllHeaded(fields, messages), chunks);
  }

  // ---------------------------------------------------------------- header blocks taken for lines

  lemma TrimsIff(s: Bytes)
    ensures Trim(s) == [] <==> AllBlank(s)
  {
    hide AllBlank;
    TrimStartFirst(s);
    var t := TrimStart(s);
    if t != [] {
      TrimEndKeeps([t[0]], t[1..]);
      assert [t[0]] + t[1..] == t;
    }
  }

  /** A line with more than white space in it is one message more, whatever comes before and after it. */
  lemma {:induction false} LineCounts(x: Bytes, t: Bytes)
    ensures |Readable(Newline, x + [LF] + t)| >= |Readable(Newline, t)| + if AllBlank(x) then 0 else 1
    decreases |x|
  {
    hide Trim, IndexOf;
    var s := x + [LF] + t;
    var i := FirstEnd(x, t);
    var line, rest := s[..i], s[i + 1..];
    TrimsIff(line);
    if i < |x| {
      var later := x[i + 1..];
      assert rest == later + [LF] + t && line == x[..i];
      LineCounts(later, t);
      BlankHalves(x, i);
    } else {
      assert line == x && rest == t;
    }
    if AllBlank(line) { BlankLineSkipped(s, i); }
  }

  lemma FirstEnd(x: Bytes, t: Bytes) returns (i: nat)
    ensures i <= |x| && IndexOf(x + [LF] + t, [LF]) == Some(i) && (i < |x| ==> x[i] == LF)
  {
    var s := x + [LF] + t;
    assert s[|x|..|x| + 1] == [LF];
    assert OccursAt(s, [LF], |x|);
    i := IndexOf(s, [LF]).value;
    assert s[i..i + 1][0] == s[i];
  }

  lemma BlankHalves(x: Bytes, i: nat)
    requires i < |x| && x[i] == LF
    ensures AllBlank(x[..i]) && AllBlank(x[i + 1..]) ==> AllBlank(x)
  {
    if AllBlank(x[..i]) && AllBlank(x[i + 1..]) {
      forall j | 0 <= j < |x| ensures IsSpace(x[j]) {
        if j < i { assert x[j] == x[..i][j]; } else if j > i { assert x[j] == x[i + 1..][j - i - 1]; }
      }
    }
  }

  lemma {:induction false} BlockConcat(a: seq<Bytes>, b: seq<Bytes>)
    requires a != [] && b != []
    ensures Block(a + b) == Block(a) + CRLF + Block(b)
    decreases |a|
  {
    if |a| == 1 {
      assert (a + b)[1..] == b;
    } else {
      assert (a + b)[1..] == a[1..] + b;
      BlockConcat(a[1..], b);
      assert a[0] + CRLF + (Block(a[1..]) + CRLF + Block(b)) == (a[0] + CRLF + Block(a[1..])) + CRLF + Block(b);
    }
  }

  function Leading(before: seq<Bytes>): Bytes {
    if before == [] then [] else Block(before) + CRLF
  }

  lemma CutBehind(lead: Bytes, line: Bytes, after: seq<Bytes>, m: Bytes) returns (more: Bytes)
    ensures lead + Block([line] + after) + SEPARATOR + m == lead + line + CRLF + more
  {
    if after == [] {
      assert [line] + after == [line];
      more := CRLF + m;
      assert SEPARATOR == CRLF + CRLF;
    } else {
      assert ([line] + after)[1..] == after;
      more := Block(after) + SEPARATOR + m;
    }
  }

  /** A frame, cut behind the name of its length field and behind the field. */
  lemma FrameParts(h: Fields, m: Bytes) returns (value: Bytes, more: Bytes)
    ensures Headed(h, m).bytes == Leading(h.before) + (h.name + value) + CRLF + more
  {
    hide Block;
    value := h.blanks + [] + Decimal(|m|) + h.rest;
    var lines := [h.name + value] + h.after;
    assert Lines(h, |m|) == h.before + lines;
    if h.before != [] { BlockConcat(h.before, lines); } else { assert h.before + lines == lines; }
    assert Block(Lines(h, |m|)) == Leading(h.before) + Block(lines);
    more := CutBehind(Leading(h.before), h.name + value, h.after, m);
  }

  /** The same of a stream of frames. */
  lemma StreamParts(fields: seq<Fields>, messages: seq<Bytes>) returns (value: Bytes, more: Bytes)
    requires AllProper(fields, messages) && messages != []
    ensures NamesLength(fields[0].name) && AllProper(fields[1..], messages[1..])
    ensures Sent(AllHeaded(fields, messages)) ==
            Leading(fields[0].before) + (fields[0].name + value) + CRLF + (more + Sent(AllHeaded(fields[1..], messages[1..])))
  {
    hide Leading, Headed, AreLines, AllBlank, StartsLength, NamesLength, Lines;
    assert Proper(fields[0], |messages[0]|);
    value, more := FrameParts(fields[0], messages[0]);
    assert AllHeaded(fields, messages)[1..] == AllHeaded(fields[1..], messages[1..]);
    assert AllHeaded(fields, messages)[0] == Headed(fields[0], messages[0]);
  }

  lemma Regrouped(w: Bytes, lead: Bytes, name: Bytes, value: Bytes, more: Bytes)
    ensures w + (lead + (name + value) + CRLF + more) == ((w + lead) + name + (value + [CR])) + [LF] + more
  {
  }

  lemma NameShows(name: Bytes, x: Bytes, y: Bytes)
    requires NamesLength(name)
    ensures !AllBlank(x + name + y) && !IsSpace(name[0]) && name[0] != OPEN_BRACE
  {
    assert SpellsByte(name[0], 'c');
    assert (x + name + y)[|x|] == name[0];
  }

  /** Taken for lines, frames have at least one each, whatever comes before them. */
  lemma {:induction false} FramesCount(fields: seq<Fields>, messages: seq<Bytes>, w: Bytes)
    requires AllProper(fields, messages)
    ensures |Readable(Newline, w + Sent(AllHeaded(fields, messages)))| >= |messages|
    decreases |messages|
  {
    hide Readable, AllHeaded, Sent, Proper, Leading, AllBlank, NamesLength;
    if messages != [] {
      var value, more := StreamParts(fields, messages);
      var lead, name := Leading(fields[0].before), fields[0].name;
      var later := more + Sent(AllHeaded(fields[1..], messages[1..]));
      Regrouped(w, lead, name, value, later);
      NameShows(name, w + lead, value + [CR]);
      LineCounts((w + lead) + name + (value + [CR]), later);
      FramesCount(fields[1..], messages[1..], more);
    }
  }

  /** A header that starts with a brace, after white space, does so before its length field. */
  lemma BraceLeads(before: seq<Bytes>, name: Bytes, y: Bytes, c: Bytes)
    requires NamesLength(name) && c <= Leading(before) + name + y
    ensures BraceFirst(c) ==> before != [] && !AllBlank(Block(before))
  {
    hide Block;
    if before == [] || AllBlank(Block(before)) {
      NameShows(name, Leading(before), y);
      BlanksThenName(Leading(before), name + y, c);
      assert Leading(before) + name + y == Leading(before) + (name + y);
    }
  }

  lemma BlanksThenName(blanks: Bytes, y: Bytes, c: Bytes)
    requires AllBlank(blanks) && y != [] && !IsSpace(y[0]) && y[0] != OPEN_BRACE && c <= blanks + y
    ensures !BraceFirst(c)
  {
    var s := blanks + y;
    assert forall i :: 0 <= i < |c| ==> c[i] == s[i];
    var n := |blanks|;
    assert n < |s| && s[n] == y[0];
    forall k | 0 <= k < |c| && AllBlank(c[..k]) ensures c[k] != OPEN_BRACE {
      assert forall i :: 0 <= i < k ==> c[i] == c[..k][i];
      assert k <= n;
      assert s[k] == if k < n then blanks[k] else y[0];
    }
  }

  /** Taken for lines, frames that start with a brace have more lines than messages. */
  lemma BraceCounts(fields: seq<Fields>, messages: seq<Bytes>, c: Bytes)
    requires AllProper(fields, messages) && messages != []
    requires c <= Sent(AllHeaded(fields, messages)) && BraceFirst(c)
    ensures |Readable(Newline, Sent(AllHeaded(fields, messages)))| > |messages|
  {
    hide Readable, AllHeaded, Sent, Proper, AllBlank, NamesLength, Block, BraceFirst;
    var value, more := StreamParts(fields, messages);
    var before, name := fields[0].before, fields[0].name;
    var s := Sent(AllHeaded(fields, messages));
    var later := more + Sent(AllHeaded(fields[1..], messages[1..]));
    assert s == Leading(before) + name + (value + CRLF + later);
    BraceLeads(before, name, value + CRLF + later, c);
    var second := [] + name + (value + [CR]);
    NameShows(name, [], value + [CR]);
    NotBlankWith(Block(before), [CR]);
    FieldThenLength(Block(before), name, value, later);
    LineCounts(Block(before) + [CR], second + [LF] + later);
    LineCounts(second, later);
    FramesCount(fields[1..], messages[1..], more);
  }

  lemma FieldThenLength(field: Bytes, name: Bytes, value: Bytes, more: Bytes)
    ensures (field + CRLF) + (name + value) + CRLF + more ==
            (field + [CR]) + [LF] + (([] + name + (value + [CR])) + [LF] + more)
  {
  }

  lemma NotBlankWith(x: Bytes, y: Bytes)
    requires !AllBlank(x)
    ensures !AllBlank(x + y)
  {
    var j :| 0 <= j < |x| && !IsSpace(x[j]);
    assert (x + y)[j] == x[j];
  }

  /**
   * Header framing with any fields before and after each length, cut in any way: the messages are delivered exactly unless
   * the first chunk that is not empty shows an opening brace first.
   */
  lemma HeadersReadIff(fields: seq<Fields>, messages: seq<Bytes>, chunks: seq<Bytes>)
    requires AllProper(fields, messages) && Joined(chunks) == Sent(AllHeaded(fields, messages))
    ensures Feed(NEW_READER, chunks).received == messages <==> messages == [] || !BraceFirst(FirstChunk(chunks))
  {
    hide Proper, AllFrames, BraceFirst, DetectFraming, Feed, AllHeaded, Readable, FrameAhead, Sent;
    FirstChunkLeads(chunks);
    var c := FirstChunk(chunks);
    if !BraceFirst(c) {
      HeadersRead(fields, messages, chunks);
    } else if messages == [] {
      NothingSent(fields);
      NoBrace();
    } else {
      assert c != [] by { NoBrace(); }
      BraceDetected(c);
      NothingLost(chunks);
      HeldBackIff(chunks);
      BraceCounts(fields, messages, c);
    }
  }

  lemma NothingSent(fields: seq<Fields>)
    requires fields == []
    ensures Sent(AllHeaded(fields, [])) == []
  {
  }

  lemma NoBrace()
    ensures !BraceFirst([])
  {
  }

  const BRACE_FIELD := Fields([[OPEN_BRACE]], HEADER, [SPACE], [], [])

  lemma BraceFrame(m: Bytes)
    ensures Proper(BRACE_FIELD, |m|)
    ensures Headed(BRACE_FIELD, m) == Framed([OPEN_BRACE] + CRLF + Frame(ContentLength, m), m)
  {
    hide Decimal;
    var line := HEADER + ([SPACE] + [] + Decimal(|m|) + []);
    assert line == Header(|m|);
    assert Lines(BRACE_FIELD, |m|) == [[OPEN_BRACE], line];
    assert [[OPEN_BRACE], line][1..] == [line];
    assert Block([[OPEN_BRACE], line]) == [OPEN_BRACE] + CRLF + line;
    HeaderBytes(|m|);
    assert HEADER[..|LOWER_HEADER|] == HEADER;
    StartsIff(HEADER);
  }

  lemma BraceStarts(chunks: seq<Bytes>)
    requires Joined(chunks) != [] && Joined(chunks)[0] == OPEN_BRACE
    ensures BraceFirst(FirstChunk(chunks))
  {
    FirstChunkLeads(chunks);
    var c := FirstChunk(chunks);
    assert c[0] == OPEN_BRACE && AllBlank(c[..0]);
  }

  /** A field that starts with a brace before the length loses the message, however the frame is cut. */
  lemma BraceField(m: Bytes, chunks: seq<Bytes>)
    requires Joined(chunks) == [OPEN_BRACE] + CRLF + Frame(ContentLength, m)
    ensures ParseContentLength(Joined(chunks)) == Parsed(Some(m), [])
    ensures Feed(NEW_READER, chunks).received != [m]
  {
    hide Feed, Frame, BraceFirst, Headed, Proper, ParseContentLength, BRACE_FIELD;
    var f := Headed(BRACE_FIELD, m);
    BraceFrame(m);
    HeadedFrame(BRACE_FIELD, m);
    assert f.bytes + [] == f.bytes;
    assert ParseNext(ContentLength, f.bytes + []) == Parsed(Some(f.message), []);
    assert AllHeaded([BRACE_FIELD], [m]) == [f] && [f][1..] == [];
    assert Sent([f]) == f.bytes + [] == f.bytes;
    BraceStarts(chunks);
    HeadersReadIff([BRACE_FIELD], [m], chunks);
  }
}
