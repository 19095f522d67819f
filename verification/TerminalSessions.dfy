/** Scrollback and ownership of one terminal: server/src/terminal-manager.ts. */
module TerminalSessions {
  import opened Options

  const SCROLLBACK_MAX_BYTES := 64 * 1024
  const SCROLLBACK_MAX_CHUNKS := 2000

  type Chunk = string
  newtype ClientId = x: int | 0 <= x

  // ---------------------------------------------------------------- the limits

  function Bytes(chunks: seq<Chunk>): nat {
    if chunks == [] then 0 else |chunks[0]| + Bytes(chunks[1..])
  }

  predicate Within(chunks: seq<Chunk>) {
    |chunks| <= SCROLLBACK_MAX_CHUNKS && Bytes(chunks) <= SCROLLBACK_MAX_BYTES
  }

  /** The trimming loop: it stops after shifting out an empty chunk. */
  function Trim(chunks: seq<Chunk>): seq<Chunk> {
    if Within(chunks) || chunks == [] then chunks
    else if chunks[0] == "" then chunks[1..]
    else Trim(chunks[1..])
  }

  lemma {:induction false} BytesAppend(chunks: seq<Chunk>, data: Chunk)
    ensures Bytes(chunks + [data]) == Bytes(chunks) + |data|
  {
    if chunks == [] {
      assert chunks + [data] == [data] && [data][1..] == [];
    } else {
      assert (chunks + [data])[1..] == chunks[1..] + [data];
      BytesAppend(chunks[1..], data);
    }
  }

  /** Dropping more chunks from the front never breaks a limit. */
  lemma {:induction false} WithinSuffix(chunks: seq<Chunk>, m: nat, n: nat)
    requires m <= n <= |chunks| && Within(chunks[m..])
    ensures Within(chunks[n..])
    decreases n - m
  {
    if m < n {
      assert chunks[m..][1..] == chunks[m + 1..];
      WithinSuffix(chunks, m + 1, n);
    }
  }

  /** `kept` is the longest chunk-suffix of `all` that meets both limits. */
  ghost predicate IsLongest(all: seq<Chunk>, kept: seq<Chunk>) {
    exists n :: LongestFrom(all, kept, n)
  }

  ghost predicate LongestFrom(all: seq<Chunk>, kept: seq<Chunk>, n: int) {
    0 <= n <= |all| && kept == all[n..] && Within(kept) && forall m :: 0 <= m < n ==> !Within(all[m..])
  }

  /** Whatever follows an empty chunk is within the limits, so that the loop never has to go past one. */
  predicate NoEarlyStop(chunks: seq<Chunk>) {
    forall i :: 0 <= i < |chunks| && chunks[i] == "" ==> Within(chunks[i + 1..])
  }

  lemma {:induction false} TrimKeepsLongest(chunks: seq<Chunk>) returns (n: nat)
    requires NoEarlyStop(chunks)
    ensures LongestFrom(chunks, Trim(chunks), n)
  {
    if Within(chunks) {
      n := 0;
      assert chunks[0..] == chunks;
    } else if chunks[0] == "" {
      n := 1;
      assert Within(chunks[0 + 1..]);
      assert chunks[0..] == chunks;
    } else {
      var rest := chunks[1..];
      forall i | 0 <= i < |rest| && rest[i] == "" ensures Within(rest[i + 1..]) {
        assert chunks[i + 1] == "" && rest[i + 1..] == chunks[i + 1 + 1..];
      }
      var k := TrimKeepsLongest(rest);
      n := k + 1;
      assert rest[k..] == chunks[n..];
      forall m | 0 <= m < n ensures !Within(chunks[m..]) {
        if m == 0 { assert chunks[0..] == chunks; } else { assert chunks[m..] == rest[m - 1..]; }
      }
    }
  }

  lemma {:induction false} EarlyStopOverflows(chunks: seq<Chunk>, i: nat)
    requires i < |chunks| && chunks[i] == "" && !Within(chunks[i + 1..])
    ensures !Within(Trim(chunks))
  {
    assert chunks[0..] == chunks;
    if Within(chunks) { WithinSuffix(chunks, 0, i + 1); }
    if chunks[0] == "" {
      if Within(chunks[1..]) { WithinSuffix(chunks, 1, i + 1); }
    } else {
      assert chunks[i + 1..] == chunks[1..][i..] && chunks[1..][i - 1] == "";
      assert chunks[1..][i - 1 + 1..] == chunks[i + 1..];
      EarlyStopOverflows(chunks[1..], i - 1);
    }
  }

  /** A suffix that was too long stays too long, and so does every longer one. */
  lemma LongestExtends(all: seq<Chunk>, kept: seq<Chunk>, n: nat, data: Chunk, k: nat)
    requires LongestFrom(all, kept, n) && LongestFrom(kept + [data], Trim(kept + [data]), k)
    ensures LongestFrom(all + [data], Trim(kept + [data]), n + k)
  {
    var all' := all + [data];
    assert all'[n..] == kept + [data];
    assert all'[n + k..] == (kept + [data])[k..];
    forall m | 0 <= m < n + k ensures !Within(all'[m..]) {
      if m < n {
        assert all'[m..] == all[m..] + [data];
        BytesAppend(all[m..], data);
      } else {
        assert all'[m..] == (kept + [data])[m - n..];
      }
    }
  }

  /**
   * Appending keeps the scrollback the longest suffix of everything produced that meets both limits
   * exactly when no empty chunk is followed by more than the limits allow.
   */
  lemma AppendKeepsLongestIff(all: seq<Chunk>, kept: seq<Chunk>, data: Chunk)
    requires IsLongest(all, kept)
    ensures IsLongest(all + [data], Trim(kept + [data])) <==> NoEarlyStop(kept + [data])
  {
    var n :| LongestFrom(all, kept, n);
    if NoEarlyStop(kept + [data]) {
      var k := TrimKeepsLongest(kept + [data]);
      LongestExtends(all, kept, n, data, k);
    } else {
      var i :| 0 <= i < |kept + [data]| && (kept + [data])[i] == "" && !Within((kept + [data])[i + 1..]);
      EarlyStopOverflows(kept + [data], i);
    }
  }

  // ---------------------------------------------------------------- one terminal

  datatype Terminal = Terminal(owner: Option<ClientId>, scrollback: seq<Chunk>, bytes: int, exited: Option<int>)

  datatype Event =
    | Output(data: Chunk)
    | Attach(client: ClientId)
    | Detach(only: Option<ClientId>)
    | Exit(code: int)

  /** What clients are given. */
  datatype Delivery =
    | Sent(client: ClientId, data: Chunk)
    | Handed(client: ClientId, scrollback: seq<Chunk>, pendingExit: Option<int>)
    | ExitSent(client: ClientId, code: int)

  /** The entry after an event, if it is kept. */
  function After(t: Terminal, e: Event): Option<Terminal> {
    match e
    case Output(data) =>
      var kept := Trim(t.scrollback + [data]);
      Some(t.(scrollback := kept, bytes := Bytes(kept)))
    case Attach(client) => if t.exited.Some? then None else Some(t.(owner := Some(client)))
    case Detach(only) => if only.Some? && t.owner != only then Some(t) else Some(t.(owner := None))
    case Exit(code) => if t.owner.Some? then None else Some(t.(exited := Some(code)))
  }

  function Delivered(t: Terminal, e: Event): seq<Delivery> {
    match e
    case Output(data) => if t.owner.Some? then [Sent(t.owner.value, data)] else []
    case Attach(client) => [Handed(client, t.scrollback, t.exited)]
    case Detach(_) => []
    case Exit(code) => if t.owner.Some? then [ExitSent(t.owner.value, code)] else []
  }

  /** The view of the client served last: the scrollback it was handed and the output it was sent since. */
  datatype Seen = Seen(client: ClientId, chunks: seq<Chunk>)

  function See(seen: Seen, d: Delivery): Seen {
    match d
    case Handed(client, scrollback, _) => Seen(client, scrollback)
    case Sent(client, data) => if client == seen.client then Seen(client, seen.chunks + [data]) else Seen(client, [data])
    case ExitSent(_, _) => seen
  }

  function SeeAll(seen: Seen, ds: seq<Delivery>): Seen
    decreases |ds|
  {
    if ds == [] then seen else SeeAll(See(seen, ds[0]), ds[1..])
  }

  /** A terminal, everything its PTY has produced, and the last view of it. */
  datatype Session = Session(terminal: Terminal, produced: seq<Chunk>, seen: Seen)

  function Created(client: ClientId): Session {
    Session(Terminal(Some(client), [], 0, None), [], Seen(client, []))
  }

  function Next(s: Session, e: Event): Session
    requires After(s.terminal, e).Some?
  {
    Session(After(s.terminal, e).value,
            if e.Output? then s.produced + [e.data] else s.produced,
            SeeAll(s.seen, Delivered(s.terminal, e)))
  }

  ghost predicate AllKept(s: Session, events: seq<Event>)
    decreases |events|
  {
    events == [] || (After(s.terminal, events[0]).Some? && AllKept(Next(s, events[0]), events[1..]))
  }

  ghost function Run(s: Session, events: seq<Event>): Session
    requires AllKept(s, events)
    decreases |events|
  {
    if events == [] then s else Run(Next(s, events[0]), events[1..])
  }

  /** The view is one gap-free slice of the output, up to the present while its client owns the terminal. */
  ghost predicate Contiguous(s: Session) {
    exists a, b :: Slice(s, a, b)
  }

  ghost predicate Slice(s: Session, a: int, b: int) {
    && 0 <= a <= b <= |s.produced| && s.seen.chunks == s.produced[a..b]
    && (s.terminal.owner.Some? ==> b == |s.produced| && s.seen.client == s.terminal.owner.value)
  }

  /** The scrollback is a suffix of the output, and the counter adds up. */
  ghost predicate Kept(s: Session) {
    && s.terminal.bytes == Bytes(s.terminal.scrollback)
    && IsSuffix(s.terminal.scrollback, s.produced)
  }

  lemma {:induction false} TrimIsSuffix(chunks: seq<Chunk>)
    ensures |Trim(chunks)| <= |chunks| && Trim(chunks) == chunks[|chunks| - |Trim(chunks)|..]
  {
    if !Within(chunks) && chunks != [] && chunks[0] != "" { TrimIsSuffix(chunks[1..]); }
  }

  predicate IsSuffix(chunks: seq<Chunk>, all: seq<Chunk>) {
    |chunks| <= |all| && chunks == all[|all| - |chunks|..]
  }

  lemma SuffixAppend(kept: seq<Chunk>, all: seq<Chunk>, data: Chunk)
    requires IsSuffix(kept, all)
    ensures IsSuffix(Trim(kept + [data]), all + [data])
  {
    hide Trim;
    var chunks, all' := kept + [data], all + [data];
    TrimIsSuffix(chunks);
    assert chunks == all'[|all'| - |chunks|..];
    var n := |chunks| - |Trim(chunks)|;
    assert chunks[n..] == all'[|all'| - |chunks| + n..];
  }

  lemma NextKeepsKept(s: Session, e: Event)
    requires Kept(s) && After(s.terminal, e).Some?
    ensures Kept(Next(s, e))
  {
    hide Trim, Bytes, SeeAll, IsSuffix;
    if e.Output? { SuffixAppend(s.terminal.scrollback, s.produced, e.data); }
  }

  lemma SeeOne(seen: Seen, d: Delivery)
    ensures SeeAll(seen, [d]) == See(seen, d)
  {
  }

  lemma NextKeepsContiguous(s: Session, e: Event)
    requires Kept(s) && Contiguous(s) && After(s.terminal, e).Some?
    ensures Contiguous(Next(s, e))
  {
    hide Trim, Bytes;
    var a, b :| Slice(s, a, b);
    var s' := Next(s, e);
    match e
    case Output(data) =>
      if s.terminal.owner.Some? {
        var d := Sent(s.terminal.owner.value, data);
        SeeOne(s.seen, d);
        assert Slice(s', a, b + 1);
      } else {
        assert s.produced[a..b] == s'.produced[a..b];
        assert Slice(s', a, b);
      }
    case Attach(client) =>
      var d := Handed(client, s.terminal.scrollback, s.terminal.exited);
      SeeOne(s.seen, d);
      assert Slice(s', |s.produced| - |s.terminal.scrollback|, |s.produced|);
    case Detach(_) => assert Slice(s', a, b);
    case Exit(_) => assert Slice(s', a, b);
  }

  /**
   * Hand-over: over any run of output, attaching, detaching and detached exits, the byte counter is the sum of the
   * lengths, and what the client served last has seen is one contiguous slice of the full output.
   */
  lemma {:induction false} ViewsAreContiguous(s: Session, events: seq<Event>)
    requires Kept(s) && Contiguous(s) && AllKept(s, events)
    ensures Kept(Run(s, events)) && Contiguous(Run(s, events))
    decreases |events|
  {
    hide Kept, Contiguous, Next, After;
    if events != [] {
      NextKeepsKept(s, events[0]);
      NextKeepsContiguous(s, events[0]);
      ViewsAreContiguous(Next(s, events[0]), events[1..]);
    }
  }

  lemma CreatedOk(client: ClientId)
    ensures Kept(Created(client)) && Contiguous(Created(client))
    ensures IsLongest(Created(client).produced, Created(client).terminal.scrollback)
  {
    assert Slice(Created(client), 0, 0);
    assert LongestFrom([], [], 0);
  }

  /** No event of the run makes the trimming loop stop early. */
  ghost predicate NeverStopsEarly(s: Session, events: seq<Event>)
    requires AllKept(s, events)
    decreases |events|
  {
    events == [] ||
    (&& (events[0].Output? ==> NoEarlyStop(s.terminal.scrollback + [events[0].data]))
     && NeverStopsEarly(Next(s, events[0]), events[1..]))
  }

  /** The scrollback is the longest suffix of the output so far at every point of the run. */
  ghost predicate AlwaysLongest(s: Session, events: seq<Event>)
    requires AllKept(s, events)
    decreases |events|
  {
    IsLongest(s.produced, s.terminal.scrollback) && (events == [] || AlwaysLongest(Next(s, events[0]), events[1..]))
  }

  /** One event keeps the scrollback the longest suffix exactly when it does not stop the trimming early. */
  lemma NextKeepsLongestIff(s: Session, e: Event)
    requires IsLongest(s.produced, s.terminal.scrollback) && After(s.terminal, e).Some?
    ensures var s' := Next(s, e);
            IsLongest(s'.produced, s'.terminal.scrollback) <==> (e.Output? ==> NoEarlyStop(s.terminal.scrollback + [e.data]))
  {
    hide IsLongest, NoEarlyStop, Trim, SeeAll;
    if e.Output? { AppendKeepsLongestIff(s.produced, s.terminal.scrollback, e.data); }
  }

  /**
   * At every point of a run the scrollback is the longest suffix of the output that meets both limits, exactly when no
   * event of the run stops the trimming early.
   */
  lemma {:induction false} ScrollbackLongestIff(s: Session, events: seq<Event>)
    requires IsLongest(s.produced, s.terminal.scrollback) && AllKept(s, events)
    ensures AlwaysLongest(s, events) <==> NeverStopsEarly(s, events)
    decreases |events|
  {
    hide IsLongest, NoEarlyStop, Next, After;
    if events != [] {
      var s' := Next(s, events[0]);
      NextKeepsLongestIff(s, events[0]);
      if IsLongest(s'.produced, s'.terminal.scrollback) {
        ScrollbackLongestIff(s', events[1..]);
      } else {
        OverlongNow(s', events[1..]);
      }
    }
  }

  lemma OverlongNow(s: Session, events: seq<Event>)
    requires AllKept(s, events) && !IsLongest(s.produced, s.terminal.scrollback)
    ensures !AlwaysLongest(s, events)
  {
  }

  lemma {:induction false} LongestAtTheEnd(s: Session, events: seq<Event>)
    requires AllKept(s, events) && AlwaysLongest(s, events)
    ensures IsLongest(Run(s, events).produced, Run(s, events).terminal.scrollback)
    decreases |events|
  {
    hide IsLongest, Next, After;
    if events != [] { LongestAtTheEnd(Next(s, events[0]), events[1..]); }
  }

  /** Runs whose output has no empty chunk never stop early. */
  lemma {:induction false} NonEmptyNeverStops(s: Session, events: seq<Event>)
    requires AllKept(s, events)
    requires forall i :: 0 <= i < |events| && events[i].Output? ==> events[i].data != ""
    requires forall i :: 0 <= i < |s.terminal.scrollback| ==> s.terminal.scrollback[i] != ""
    ensures NeverStopsEarly(s, events)
    decreases |events|
  {
    if events != [] {
      var e := events[0];
      hide Trim, Bytes, SeeAll, NoEarlyStop;
      if e.Output? {
        TrimIsSuffix(s.terminal.scrollback + [e.data]);
        NonEmptyNoStop(s.terminal.scrollback + [e.data]);
      }
      assert forall i :: 0 <= i < |events[1..]| ==> events[1..][i] == events[i + 1];
      NonEmptyNeverStops(Next(s, e), events[1..]);
    }
  }

  lemma NonEmptyNoStop(chunks: seq<Chunk>)
    requires forall i :: 0 <= i < |chunks| ==> chunks[i] != ""
    ensures NoEarlyStop(chunks)
  {
  }

  /**
   * From its creation on, over any run whose output has no empty chunk, a terminal keeps the longest suffix of its output
   * that meets both limits, and what the client served last has seen is one gap-free slice of it.
   */
  lemma NonEmptyOutput(client: ClientId, events: seq<Event>)
    requires AllKept(Created(client), events)
    requires forall i :: 0 <= i < |events| && events[i].Output? ==> events[i].data != ""
    ensures AlwaysLongest(Created(client), events)
    ensures var s := Run(Created(client), events);
            IsLongest(s.produced, s.terminal.scrollback) && Kept(s) && Contiguous(s)
  {
    hide AllKept, AlwaysLongest, IsLongest, Run, Kept, Contiguous;
    CreatedOk(client);
    NonEmptyNeverStops(Created(client), events);
    ScrollbackLongestIff(Created(client), events);
    LongestAtTheEnd(Created(client), events);
    ViewsAreContiguous(Created(client), events);
  }

  /**
   * Two chunks of which each fits and both do not, after an empty one: the loop shifts out the empty chunk and stops, and
   * the scrollback is over its limit.
   */
  lemma EmptyChunkOverflows(client: ClientId, x: Chunk, y: Chunk)
    requires 0 < |x| <= SCROLLBACK_MAX_BYTES && 0 < |y| <= SCROLLBACK_MAX_BYTES < |x| + |y|
    ensures AllKept(Created(client), [Output(""), Output(x), Output(y)])
    ensures var s := Run(Created(client), [Output(""), Output(x), Output(y)]);
            s.terminal.scrollback == [x, y] && s.terminal.bytes > SCROLLBACK_MAX_BYTES
  {
    hide SeeAll;
    var s1 := Next(Created(client), Output(""));
    var s2 := Next(s1, Output(x));
    var s3 := Next(s2, Output(y));
    TrimsOne(x, y);
    RunOfThree(Created(client), Output(""), Output(x), Output(y));
  }

  lemma RunOfThree(s: Session, e1: Event, e2: Event, e3: Event)
    requires After(s.terminal, e1).Some?
    requires After(Next(s, e1).terminal, e2).Some?
    requires After(Next(Next(s, e1), e2).terminal, e3).Some?
    ensures AllKept(s, [e1, e2, e3]) && Run(s, [e1, e2, e3]) == Next(Next(Next(s, e1), e2), e3)
  {
    hide After, Next;
    assert [e1, e2, e3][1..] == [e2, e3] && [e2, e3][1..] == [e3] && [e3][1..] == [];
    var s1 := Next(s, e1);
    var s2 := Next(s1, e2);
    assert AllKept(s2, [e3]) && Run(s2, [e3]) == Run(Next(s2, e3), []);
    assert AllKept(s1, [e2, e3]) && Run(s1, [e2, e3]) == Run(s2, [e3]);
  }

  lemma TrimsOne(x: Chunk, y: Chunk)
    requires 0 < |x| <= SCROLLBACK_MAX_BYTES && 0 < |y| <= SCROLLBACK_MAX_BYTES < |x| + |y|
    ensures Trim([] + [""]) == [""] && Trim([""] + [x]) == ["", x] && Trim(["", x] + [y]) == [x, y]
    ensures Bytes([x, y]) == |x| + |y|
  {
    BytesAppend([], "");
    BytesAppend([""], x);
    BytesAppend([x], y);
    BytesAppend([], x);
    BytesAppend(["", x], y);
    assert [] + [""] == [""] && [""] + [x] == ["", x] && ["", x] + [y] == ["", x, y] && [x] + [y] == [x, y];
    assert [] + [x] == [x] && ["", x, y][1..] == [x, y];
  }

  // ---------------------------------------------------------------- the object

  /** The fields of a ManagedTerminal; a method returns what its caller delivers. */
  class ManagedTerminal {
    var clientId: Option<ClientId>
    var scrollback: seq<Chunk>
    var scrollbackBytes: int
    var exited: Option<int>

    function View(): Terminal
      reads this
    {
      Terminal(clientId, scrollback, scrollbackBytes, exited)
    }

    constructor (client: ClientId)
      ensures View() == Created(client).terminal
    {
      clientId, scrollback, scrollbackBytes, exited := Some(client), [], 0, None;
    }

    method AppendScrollback(data: Chunk)
      requires scrollbackBytes == Bytes(scrollback)
      modifies this`scrollback, this`scrollbackBytes
      ensures scrollback == Trim(old(scrollback) + [data])
      ensures scrollbackBytes == Bytes(scrollback)
    {
      ghost var chunks := scrollback + [data];
      BytesAppend(scrollback, data);
      scrollback := scrollback + [data];
      scrollbackBytes := scrollbackBytes + |data|;
      while |scrollback| > SCROLLBACK_MAX_CHUNKS || scrollbackBytes > SCROLLBACK_MAX_BYTES
        invariant scrollbackBytes == Bytes(scrollback)
        invariant Trim(scrollback) == Trim(chunks)
        decreases |scrollback|
      {
        var removed := scrollback[0];
        scrollback := scrollback[1..];
        if removed == "" {
          break;
        }
        scrollbackBytes := scrollbackBytes - |removed|;
      }
    }

    /** The PTY's data handler. */
    method HandleData(data: Chunk) returns (delivered: seq<Delivery>)
      requires scrollbackBytes == Bytes(scrollback)
      modifies this
      ensures Some(View()) == After(old(View()), Output(data))
      ensures delivered == Delivered(old(View()), Output(data))
    {
      AppendScrollback(data);
      delivered := if clientId.Some? then [Sent(clientId.value, data)] else [];
    }

    /** The PTY's exit handler; `kept` says whether the entry stays. */
    method HandleExit(exitCode: int) returns (delivered: seq<Delivery>, kept: bool)
      modifies this
      ensures After(old(View()), Exit(exitCode)) == if kept then Some(View()) else None
      ensures delivered == Delivered(old(View()), Exit(exitCode))
    {
      if clientId.Some? {
        return [ExitSent(clientId.value, exitCode)], false;
      }
      exited := Some(exitCode);
      return [], true;
    }

    method AttachClient(client: ClientId) returns (delivered: seq<Delivery>, kept: bool)
      modifies this
      ensures After(old(View()), Attach(client)) == if kept then Some(View()) else None
      ensures delivered == Delivered(old(View()), Attach(client))
    {
      delivered := [Handed(client, scrollback, exited)];
      if exited.Some? {
        return delivered, false;
      }
      clientId := Some(client);
      kept := true;
    }

    method DetachTerminal(client: Option<ClientId>)
      modifies this
      ensures Some(View()) == After(old(View()), Detach(client))
    {
      if client.Some? && clientId != client { return; }
      clientId := None;
    }
  }
}
