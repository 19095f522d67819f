/** Session streams of the client: shared/src/facade/stream-manager.ts. */
module Streams {
  import opened Options
  import opened Storage
  import Gateway

  type Time = Gateway.Time

  const EPHEMERAL_STREAM_TTL: Time := 120_000
  const CLOSED_TOMBSTONE_TTL: Time := 600_000
  const ERROR_TOMBSTONE_TTL: Time := 1_800_000
  const OPENING_STREAM_TTL: Time := 30_000

  type SessionId = string

  /** streamKey, as the pair it joins. */
  datatype Key = Key(backendId: BackendId, sessionId: SessionId)

  datatype StreamState = Opening | Open | Closed | Errored

  datatype Source = Requested | Ephemeral

  datatype Desired = Desired(shouldBeOpen: bool, autoResume: bool, openedAt: Time, updatedAt: Time)

  datatype Stream = Stream(
    state: StreamState,
    source: Source,
    lastError: Option<string>,
    latestOffset: Option<int>,
    openedAt: Option<Time>,
    closedAt: Option<Time>,
    lastCloseReason: Option<string>,
    lastActivityAt: Time,
    updatedAt: Time
  )

  datatype Manager = Manager(desired: map<Key, Desired>, streams: map<Key, Stream>)

  /** Everything the manager holds about one key. */
  datatype Cell = Cell(desired: Option<Desired>, stream: Option<Stream>)

  datatype StreamEvent =
    | StateChanged(key: Key, state: StreamState, lastError: Option<string>, latestOffset: Option<int>, updatedAt: Time)
    | ContentPatched(key: Key, offset: int)
    | RunReported(key: Key)

  datatype Op =
    | RequestOpen(key: Key, now: Time)
    | RequestClose(key: Key, now: Time)
    | BecameReady(backendId: BackendId, now: Time)
    | Unsubscribed(backendId: BackendId, reason: string, willAutoRecover: bool, now: Time)
    | SessionClosed(key: Key, reason: string, now: Time)
    | PatchArrived(key: Key, offset: int, now: Time)
    | RunArrived(key: Key, now: Time)
    | CollectGarbage(now: Time)

  // ---------------------------------------------------------------- one key at a time

  predicate Wanted(c: Cell) {
    c.desired.Some? && c.desired.value.shouldBeOpen
  }

  function NewStream(state: StreamState, source: Source, offset: Option<int>, now: Time): Stream {
    Stream(state, source, None, offset, None, None, None, now, now)
  }

  function Reopened(s: Stream, now: Time): Stream {
    s.(state := Opening, lastError := None, openedAt := Some(now), updatedAt := now)
  }

  function ReactOpen(c: Cell, now: Time): Cell {
    var desired := if c.desired.Some? then c.desired.value.(shouldBeOpen := true, autoResume := true, updatedAt := now)
                   else Desired(true, true, now, now);
    var s := if c.stream.Some? then c.stream.value else NewStream(Closed, Requested, None, now);
    Cell(Some(desired), Some(if s.state.Open? then s else Reopened(s, now).(source := Requested)))
  }

  function ReactClose(c: Cell, now: Time): Cell {
    Cell(if c.desired.Some? then Some(c.desired.value.(shouldBeOpen := false, updatedAt := now)) else None,
         if c.stream.Some? && !c.stream.value.state.Closed?
         then Some(c.stream.value.(state := Closed, closedAt := Some(now), updatedAt := now))
         else c.stream)
  }

  /** The streams handleBackendBecameReady resumes. */
  predicate Resumes(c: Cell) {
    Wanted(c) && c.desired.value.autoResume && !(c.stream.Some? && c.stream.value.state.Open?)
  }

  function ReactReady(c: Cell, now: Time): Cell {
    if Resumes(c)
    then c.(stream := Some(Reopened(if c.stream.Some? then c.stream.value else NewStream(Closed, Requested, None, now), now)))
    else c
  }

  function ReactUnsubscribed(c: Cell, reason: string, willAutoRecover: bool, now: Time): Cell {
    if c.stream.None? || c.stream.value.state.Closed? then c
    else
      var s := c.stream.value;
      var s' := if !Wanted(c) then s.(state := Closed, closedAt := Some(now), lastCloseReason := Some(reason))
                else if willAutoRecover then s.(state := Opening)
                else s.(state := Errored, lastError := Some(reason));
      c.(stream := Some(s'.(updatedAt := now)))
  }

  function ReactSessionClosed(c: Cell, reason: string, now: Time): Cell {
    if c.stream.None? then c
    else
      var s := c.stream.value;
      var s' := if Wanted(c) then s.(state := Errored, lastError := Some(reason))
                else s.(state := Closed, closedAt := Some(now), lastCloseReason := Some(reason));
      c.(stream := Some(s'.(updatedAt := now)))
  }

  predicate Promoted(s: Stream) {
    s.state.Opening? || s.state.Errored?
  }

  function Promote(s: Stream, now: Time): Stream {
    if Promoted(s) then s.(state := Open, lastError := None, updatedAt := now) else s
  }

  function ReactPatch(c: Cell, offset: int, now: Time): Cell {
    if c.stream.None? then c.(stream := Some(NewStream(Open, Ephemeral, Some(offset), now)))
    else
      var s := Promote(c.stream.value, now);
      var s' := if s.latestOffset.None? || offset > s.latestOffset.value then s.(latestOffset := Some(offset)) else s;
      c.(stream := Some(s'.(lastActivityAt := now, updatedAt := now)))
  }

  function ReactRun(c: Cell, now: Time): Cell {
    if c.stream.None? then c.(stream := Some(NewStream(Open, Ephemeral, None, now)))
    else c.(stream := Some(Promote(c.stream.value, now).(lastActivityAt := now, updatedAt := now)))
  }

  /** An opening stream nobody wants any more has waited too long. */
  predicate TimesOut(c: Cell, now: Time) {
    && !Wanted(c) && c.stream.Some? && c.stream.value.state.Opening?
    && now - c.stream.value.updatedAt > OPENING_STREAM_TTL
  }

  predicate Collected(c: Cell, now: Time) {
    && !Wanted(c) && c.stream.Some? && !c.stream.value.state.Open? && !c.stream.value.state.Opening?
    && var age := now - c.stream.value.updatedAt;
       if c.stream.value.source.Ephemeral? then age > EPHEMERAL_STREAM_TTL
       else if c.stream.value.state.Closed? then age > CLOSED_TOMBSTONE_TTL
       else age > ERROR_TOMBSTONE_TTL
  }

  function ReactGarbage(c: Cell, now: Time): Cell {
    if TimesOut(c, now) then
      c.(stream := Some(c.stream.value.(state := Errored, lastError := Some("Stream open timed out"), updatedAt := now)))
    else if Collected(c, now) then Cell(None, None)
    else c
  }

  /** What an operation does to the cell of a key. */
  function React(c: Cell, op: Op, key: Key): Cell {
    match op
    case RequestOpen(k, now) => if key == k then ReactOpen(c, now) else c
    case RequestClose(k, now) => if key == k then ReactClose(c, now) else c
    case BecameReady(b, now) => if key.backendId == b then ReactReady(c, now) else c
    case Unsubscribed(b, reason, recover, now) => if key.backendId == b then ReactUnsubscribed(c, reason, recover, now) else c
    case SessionClosed(k, reason, now) => if key == k then ReactSessionClosed(c, reason, now) else c
    case PatchArrived(k, offset, now) => if key == k then ReactPatch(c, offset, now) else c
    case RunArrived(k, now) => if key == k then ReactRun(c, now) else c
    case CollectGarbage(now) => ReactGarbage(c, now)
  }

  /** Is a session_stream_state_changed event emitted for this key? */
  predicate Announced(c: Cell, op: Op, key: Key) {
    match op
    case RequestOpen(k, _) => key == k && !(c.stream.Some? && c.stream.value.state.Open?)
    case RequestClose(k, _) => key == k && c.stream.Some? && !c.stream.value.state.Closed?
    case BecameReady(b, _) => key.backendId == b && Resumes(c)
    case Unsubscribed(b, _, _, _) => key.backendId == b && c.stream.Some? && !c.stream.value.state.Closed?
    case SessionClosed(k, _, _) => key == k && c.stream.Some?
    case PatchArrived(k, _, _) => key == k && (c.stream.None? || Promoted(c.stream.value))
    case RunArrived(k, _) => key == k && (c.stream.None? || Promoted(c.stream.value))
    case CollectGarbage(now) => TimesOut(c, now)
  }

  // ---------------------------------------------------------------- the whole manager

  const EMPTY := Manager(map[], map[])

  function At(m: Manager, key: Key): Cell {
    Cell(Lookup(m.desired, key), Lookup(m.streams, key))
  }

  function OpKeys(op: Op): set<Key> {
    match op
    case BecameReady(_, _) => {}
    case Unsubscribed(_, _, _, _) => {}
    case CollectGarbage(_) => {}
    case _ => {op.key}
  }

  function Touched(m: Manager, op: Op): set<Key> {
    m.desired.Keys + m.streams.Keys + OpKeys(op)
  }

  function Step(m: Manager, op: Op): Manager {
    Manager(map key | key in Touched(m, op) && React(At(m, key), op, key).desired.Some? :: React(At(m, key), op, key).desired.value,
            map key | key in Touched(m, op) && React(At(m, key), op, key).stream.Some? :: React(At(m, key), op, key).stream.value)
  }

  /** An operation acts on each key by itself. */
  lemma StepAt(m: Manager, op: Op, key: Key)
    ensures At(Step(m, op), key) == React(At(m, key), op, key)
  {
  }

  function Run(m: Manager, ops: seq<Op>): Manager
    decreases |ops|
  {
    if ops == [] then m else Run(Step(m, ops[0]), ops[1..])
  }

  // ---------------------------------------------------------------- classification

  /** Wanted: opening, open or in error.  Known but unwanted: closed.  Otherwise ephemeral: open or closed. */
  ghost predicate Classified(c: Cell) {
    && (Wanted(c) ==> c.stream.Some? && !c.stream.value.state.Closed?)
    && (c.desired.Some? && !Wanted(c) ==> c.stream.Some? && c.stream.value.state.Closed?)
    && (c.desired.None? && c.stream.Some? ==>
          c.stream.value.source.Ephemeral? && (c.stream.value.state.Open? || c.stream.value.state.Closed?))
  }

  ghost predicate Valid(m: Manager) {
    forall key :: Classified(At(m, key))
  }

  lemma ReactKeepsClassified(c: Cell, op: Op, key: Key)
    requires Classified(c)
    ensures Classified(React(c, op, key))
  {
  }

  lemma StepKeepsValid(m: Manager, op: Op)
    requires Valid(m)
    ensures Valid(Step(m, op))
  {
    forall key ensures Classified(At(Step(m, op), key)) {
      StepAt(m, op, key);
      ReactKeepsClassified(At(m, key), op, key);
    }
  }

  /** From the bootstrap, every run keeps every stream classified, and every desired key has a stream. */
  lemma {:induction false} RunKeepsValid(m: Manager, ops: seq<Op>)
    requires Valid(m)
    ensures Valid(Run(m, ops))
    ensures Run(m, ops).desired.Keys <= Run(m, ops).streams.Keys
    decreases |ops|
  {
    if ops == [] {
      forall key | key in m.desired ensures key in m.streams { assert Classified(At(m, key)); }
    } else {
      StepKeepsValid(m, ops[0]);
      RunKeepsValid(Step(m, ops[0]), ops[1..]);
    }
  }

  // ---------------------------------------------------------------- where a stream came from

  predicate SourceOk(c: Cell) {
    c.stream.Some? ==> (c.stream.value.source.Requested? <==> c.desired.Some?)
  }

  /** The source is `desired` exactly for the streams with a desired entry. */
  ghost predicate SourceTells(m: Manager) {
    forall key :: SourceOk(At(m, key))
  }

  /** requestOpen finds the stream open without having been asked for: it returns before setting the source. */
  predicate AdoptsEphemeral(c: Cell, op: Op, key: Key) {
    op.RequestOpen? && op.key == key && c.stream.Some? && c.stream.value.state.Open? && c.stream.value.source.Ephemeral?
  }

  lemma ReactKeepsSource(c: Cell, op: Op, key: Key)
    requires Classified(c) && SourceOk(c)
    ensures SourceOk(React(c, op, key)) <==> !AdoptsEphemeral(c, op, key)
  {
  }

  /** An operation keeps the sources telling exactly when it adopts no open ephemeral stream. */
  lemma SourceKeptIff(m: Manager, op: Op)
    requires Valid(m) && SourceTells(m)
    ensures SourceTells(Step(m, op)) <==> forall key :: !AdoptsEphemeral(At(m, key), op, key)
  {
    hide React, Step, Classified, SourceOk, AdoptsEphemeral;
    forall key ensures SourceOk(At(Step(m, op), key)) <==> !AdoptsEphemeral(At(m, key), op, key) {
      StepAt(m, op, key);
      assert Classified(At(m, key)) && SourceOk(At(m, key));
      ReactKeepsSource(At(m, key), op, key);
    }
  }

  /** The sources tell at every point of the run. */
  ghost predicate AlwaysTells(m: Manager, ops: seq<Op>)
    decreases |ops|
  {
    SourceTells(m) && (ops == [] || AlwaysTells(Step(m, ops[0]), ops[1..]))
  }

  /** No operation of the run adopts an open ephemeral stream. */
  ghost predicate NeverAdopts(m: Manager, ops: seq<Op>)
    decreases |ops|
  {
    ops == [] ||
    ((forall key :: !AdoptsEphemeral(At(m, key), ops[0], key)) && NeverAdopts(Step(m, ops[0]), ops[1..]))
  }

  /** The sources tell at every point of a run exactly when the run never adopts an open ephemeral stream. */
  lemma {:induction false} SourcesTellIff(m: Manager, ops: seq<Op>)
    requires Valid(m) && SourceTells(m)
    ensures AlwaysTells(m, ops) <==> NeverAdopts(m, ops)
    decreases |ops|
  {
    hide Step, Valid, SourceTells, AdoptsEphemeral;
    if ops != [] {
      SourceKeptIff(m, ops[0]);
      if SourceTells(Step(m, ops[0])) {
        StepKeepsValid(m, ops[0]);
        SourcesTellIff(Step(m, ops[0]), ops[1..]);
      } else {
        SilentNow(Step(m, ops[0]), ops[1..]);
      }
    }
  }

  lemma SilentNow(m: Manager, ops: seq<Op>)
    requires !SourceTells(m)
    ensures !AlwaysTells(m, ops)
  {
  }

  /** A session the client never asked for streams a patch, and is then opened: its source still says ephemeral. */
  lemma SourceMayLie(key: Key, now: Time)
    ensures var m := Run(EMPTY, [PatchArrived(key, 0, now), RequestOpen(key, now)]);
            key in m.desired && key in m.streams && m.streams[key].source.Ephemeral?
  {
    var first := PatchArrived(key, 0, now);
    var second := RequestOpen(key, now);
    var m := Step(EMPTY, first);
    assert [first, second][1..] == [second] && [second][1..] == [];
    assert Run(m, [second]) == Run(Step(m, second), []);
    StepAt(EMPTY, first, key);
    StepAt(m, second, key);
  }

  /** The half that always holds: a stream whose source is `desired` has a desired entry. */
  lemma RequestedIsDesired(m: Manager, key: Key)
    requires Valid(m) && key in m.streams && m.streams[key].source.Requested?
    ensures key in m.desired
  {
    assert Classified(At(m, key));
  }

  // ---------------------------------------------------------------- garbage collection

  /** From the bootstrap on, no stream times out while opening and no error tombstone is collected. */
  lemma DeadCollectorArms(ops: seq<Op>, key: Key, now: Time)
    ensures var c := At(Run(EMPTY, ops), key);
            && !TimesOut(c, now)
            && (Collected(c, now) ==> !c.stream.value.state.Errored?)
  {
    assert Valid(EMPTY);
    RunKeepsValid(EMPTY, ops);
    assert Classified(At(Run(EMPTY, ops), key));
  }

  /** How long a closed stream is kept. */
  function Lifetime(s: Stream): Time {
    if s.source.Ephemeral? then EPHEMERAL_STREAM_TTL else CLOSED_TOMBSTONE_TTL
  }

  predicate Keeps(c: Cell, now: Time) {
    c.stream.Some? && (Wanted(c) || c.stream.value.state.Open? || now - c.stream.value.updatedAt <= Lifetime(c.stream.value))
  }

  /**
   * collectGarbage keeps exactly the streams that are wanted, open or within their lifetime, unchanged and
   * with their desired entries, and forgets everything else about the others.
   */
  lemma CollectsExactly(m: Manager, now: Time, key: Key)
    requires Valid(m)
    ensures At(Step(m, CollectGarbage(now)), key) == if Keeps(At(m, key), now) then At(m, key) else Cell(None, None)
  {
    StepAt(m, CollectGarbage(now), key);
    assert Classified(At(m, key));
  }

  lemma SameCells(m1: Manager, m2: Manager)
    requires forall key :: At(m1, key) == At(m2, key)
    ensures m1 == m2
  {
    forall key ensures Lookup(m1.desired, key) == Lookup(m2.desired, key) && Lookup(m1.streams, key) == Lookup(m2.streams, key) {
      assert At(m1, key) == At(m2, key);
    }
    assert forall key :: key in m1.desired <==> Lookup(m1.desired, key).Some?;
    assert forall key :: key in m1.streams <==> Lookup(m1.streams, key).Some?;
    assert m1.desired == m2.desired;
    assert m1.streams == m2.streams;
  }

  /** Collecting again, now or later, gives what collecting once then would have given. */
  lemma CollectionsCompose(m: Manager, now: Time, later: Time)
    requires Valid(m) && now <= later
    ensures Step(Step(m, CollectGarbage(now)), CollectGarbage(later)) == Step(m, CollectGarbage(later))
  {
    var once := Step(m, CollectGarbage(now));
    StepKeepsValid(m, CollectGarbage(now));
    forall key ensures At(Step(once, CollectGarbage(later)), key) == At(Step(m, CollectGarbage(later)), key) {
      CollectsExactly(m, now, key);
      CollectsExactly(m, later, key);
      CollectsExactly(once, later, key);
    }
    SameCells(Step(once, CollectGarbage(later)), Step(m, CollectGarbage(later)));
  }

  // ---------------------------------------------------------------- offsets

  /** The offsets patched into the key's stream since its entry was created. */
  function PatchedNext(patched: seq<int>, c: Cell, op: Op, key: Key): seq<int> {
    if React(c, op, key).stream.None? then []
    else (if c.stream.None? then [] else patched) + (if op.PatchArrived? && op.key == key then [op.offset] else [])
  }

  function Patched(patched: seq<int>, m: Manager, ops: seq<Op>, key: Key): seq<int>
    decreases |ops|
  {
    if ops == [] then patched
    else Patched(PatchedNext(patched, At(m, key), ops[0], key), Step(m, ops[0]), ops[1..], key)
  }

  ghost predicate IsMaximum(offset: Option<int>, offsets: seq<int>) {
    match offset
    case None => offsets == []
    case Some(x) => x in offsets && forall y :: y in offsets ==> y <= x
  }

  ghost predicate OffsetOk(c: Cell, patched: seq<int>) {
    if c.stream.Some? then IsMaximum(c.stream.value.latestOffset, patched) else patched == []
  }

  lemma ReactKeepsOffset(patched: seq<int>, c: Cell, op: Op, key: Key)
    requires OffsetOk(c, patched)
    ensures OffsetOk(React(c, op, key), PatchedNext(patched, c, op, key))
  {
  }

  /** latestOffset is the largest offset of all patches since the entry was created, in any order of arrival. */
  lemma {:induction false} OffsetIsMaximum(patched: seq<int>, m: Manager, ops: seq<Op>, key: Key)
    requires OffsetOk(At(m, key), patched)
    ensures OffsetOk(At(Run(m, ops), key), Patched(patched, m, ops, key))
    decreases |ops|
  {
    hide OffsetOk, React, PatchedNext;
    if ops != [] {
      ReactKeepsOffset(patched, At(m, key), ops[0], key);
      StepAt(m, ops[0], key);
      OffsetIsMaximum(PatchedNext(patched, At(m, key), ops[0], key), Step(m, ops[0]), ops[1..], key);
    }
  }

  // ---------------------------------------------------------------- observing events

  /** What a listener holds: the last announced state and error of each stream. */
  type Observer = map<Key, (StreamState, Option<string>)>

  function Announcement(key: Key, s: Stream): StreamEvent {
    StateChanged(key, s.state, s.lastError, s.latestOffset, s.updatedAt)
  }

  /** The stream as its event shows it: a patch announces the promotion before it moves the offset. */
  function Shown(c: Cell, op: Op, key: Key): Stream
    requires Announced(c, op, key)
  {
    if op.PatchArrived? && c.stream.Some? then Promote(c.stream.value, op.now) else React(c, op, key).stream.value
  }

  function AnnouncedAt(c: Cell, op: Op, key: Key): seq<StreamEvent> {
    if Announced(c, op, key) then [Announcement(key, Shown(c, op, key))] else []
  }

  /** The state changes an operation announces, for the keys met so far. */
  function Announcements(m: Manager, op: Op, order: seq<Key>): seq<StreamEvent> {
    if order == [] then []
    else Announcements(m, op, order[..|order| - 1]) + AnnouncedAt(At(m, order[|order| - 1]), op, order[|order| - 1])
  }

  /** The event that passes a patch or a run event on. */
  function PassedOn(op: Op): seq<StreamEvent> {
    match op
    case PatchArrived(key, offset, _) => [ContentPatched(key, offset)]
    case RunArrived(key, _) => [RunReported(key)]
    case _ => []
  }

  function Observe(obs: Observer, events: seq<StreamEvent>): Observer {
    if events == [] then obs
    else
      var before := Observe(obs, events[..|events| - 1]);
      var e := events[|events| - 1];
      if e.StateChanged? then before[e.key := (e.state, e.lastError)] else before
  }

  ghost predicate FollowsCell(seen: Option<(StreamState, Option<string>)>, c: Cell) {
    c.stream.Some? ==> seen == Some((c.stream.value.state, c.stream.value.lastError))
  }

  ghost predicate Follows(obs: Observer, m: Manager) {
    forall key :: FollowsCell(Lookup(obs, key), At(m, key))
  }

  /** The keys met are distinct and include every announced one. */
  ghost predicate Meets(order: seq<Key>, m: Manager, op: Op) {
    && (forall i, j :: 0 <= i < j < |order| ==> order[i] != order[j])
    && (forall key :: Announced(At(m, key), op, key) ==> key in order)
  }

  lemma ReactAnnounces(seen: Option<(StreamState, Option<string>)>, c: Cell, op: Op, key: Key)
    requires FollowsCell(seen, c)
    ensures if Announced(c, op, key)
            then FollowsCell(Some((Shown(c, op, key).state, Shown(c, op, key).lastError)), React(c, op, key))
            else FollowsCell(seen, React(c, op, key))
  {
  }

  lemma ObservedLast(obs: Observer, events: seq<StreamEvent>, e: StreamEvent)
    requires e.StateChanged?
    ensures Observe(obs, events + [e]) == Observe(obs, events)[e.key := (e.state, e.lastError)]
  {
    assert (events + [e])[..|events|] == events;
  }

  lemma {:induction false} AnnouncementsObserved(obs: Observer, m: Manager, op: Op, order: seq<Key>, key: Key)
    requires forall i, j :: 0 <= i < j < |order| ==> order[i] != order[j]
    ensures Lookup(Observe(obs, Announcements(m, op, order)), key) ==
            if key in order && Announced(At(m, key), op, key)
            then Some((Shown(At(m, key), op, key).state, Shown(At(m, key), op, key).lastError)) else Lookup(obs, key)
  {
    hide Shown, Announced;
    if order != [] {
      var n := |order| - 1;
      var last := order[n];
      var before := Announcements(m, op, order[..n]);
      AnnouncementsObserved(obs, m, op, order[..n], key);
      assert key in order <==> key == last || key in order[..n];
      if Announced(At(m, last), op, last) {
        ObservedLast(obs, before, Announcement(last, Shown(At(m, last), op, last)));
      } else {
        assert Announcements(m, op, order) == before;
      }
    }
  }

  lemma PassedOnUnseen(obs: Observer, events: seq<StreamEvent>, op: Op)
    ensures Observe(obs, events + PassedOn(op)) == Observe(obs, events)
  {
    if PassedOn(op) != [] {
      assert (events + PassedOn(op))[..|events|] == events;
    } else {
      assert events + PassedOn(op) == events;
    }
  }

  /** Folding the announced events reproduces the state and error of every live stream. */
  lemma ObserverFollows(obs: Observer, m: Manager, op: Op, order: seq<Key>)
    requires Follows(obs, m) && Meets(order, m, op)
    ensures Follows(Observe(obs, Announcements(m, op, order) + PassedOn(op)), Step(m, op))
  {
    hide Step, React, Announced, Shown, Observe, Announcements;
    PassedOnUnseen(obs, Announcements(m, op, order), op);
    var obs' := Observe(obs, Announcements(m, op, order));
    forall key ensures FollowsCell(Lookup(obs', key), At(Step(m, op), key)) {
      StepAt(m, op, key);
      AnnouncementsObserved(obs, m, op, order, key);
      assert FollowsCell(Lookup(obs, key), At(m, key));
      ReactAnnounces(Lookup(obs, key), At(m, key), op, key);
    }
  }

  /** An operation and the order in which it met the streams. */
  datatype Happened = Happened(op: Op, order: seq<Key>)

  ghost predicate AllMet(m: Manager, steps: seq<Happened>)
    decreases |steps|
  {
    steps == [] || (Meets(steps[0].order, m, steps[0].op) && AllMet(Step(m, steps[0].op), steps[1..]))
  }

  function ObserveRun(obs: Observer, m: Manager, steps: seq<Happened>): Observer
    decreases |steps|
  {
    if steps == [] then obs
    else ObserveRun(Observe(obs, Announcements(m, steps[0].op, steps[0].order) + PassedOn(steps[0].op)),
                    Step(m, steps[0].op), steps[1..])
  }

  function RunSteps(m: Manager, steps: seq<Happened>): Manager
    decreases |steps|
  {
    if steps == [] then m else RunSteps(Step(m, steps[0].op), steps[1..])
  }

  /** Over any run, a listener that folds the events holds the state and error of every live stream. */
  lemma {:induction false} RunFollowed(obs: Observer, m: Manager, steps: seq<Happened>)
    requires Follows(obs, m) && AllMet(m, steps)
    ensures Follows(ObserveRun(obs, m, steps), RunSteps(m, steps))
    decreases |steps|
  {
    hide Follows, Step, Meets, Announcements, Observe;
    if steps != [] {
      var obs' := Observe(obs, Announcements(m, steps[0].op, steps[0].order) + PassedOn(steps[0].op));
      ObserverFollows(obs, m, steps[0].op, steps[0].order);
      RunFollowed(obs', Step(m, steps[0].op), steps[1..]);
    }
  }

  // ---------------------------------------------------------------- the class

  /** `desiredStreams` and `runtimeStreams` are changed entry by entry; `now` is Date.now(). */
  class FacadeStreamManager {
    var desiredStreams: map<Key, Desired>
    var runtimeStreams: map<Key, Stream>

    function View(): Manager
      reads this
    {
      Manager(desiredStreams, runtimeStreams)
    }

    constructor ()
      ensures View() == EMPTY
    {
      desiredStreams := map[];
      runtimeStreams := map[];
    }

    method ApplyBootstrap()
      modifies this
      ensures View() == EMPTY
    {
      desiredStreams := map[];
      runtimeStreams := map[];
    }

    method RequestOpenStream(key: Key, now: Time) returns (events: seq<StreamEvent>)
      modifies this
      ensures View() == Step(old(View()), RequestOpen(key, now))
      ensures events == Announcements(old(View()), RequestOpen(key, now), [key])
    {
      ghost var m, op := View(), RequestOpen(key, now);
      if key in desiredStreams {
        desiredStreams := desiredStreams[key := desiredStreams[key].(shouldBeOpen := true, autoResume := true, updatedAt := now)];
      } else {
        desiredStreams := desiredStreams[key := Desired(true, true, now, now)];
      }
      if key !in runtimeStreams {
        runtimeStreams := runtimeStreams[key := NewStream(Closed, Requested, None, now)];
      }
      events := [];
      if runtimeStreams[key].state != Open {
        runtimeStreams := runtimeStreams[key := runtimeStreams[key].(
            state := Opening, lastError := None, openedAt := Some(now), updatedAt := now, source := Requested)];
        events := [Announcement(key, runtimeStreams[key])];
      }
      OnlyCell(m, View(), op, key);
    }

    method RequestCloseStream(key: Key, now: Time) returns (events: seq<StreamEvent>)
      modifies this
      ensures View() == Step(old(View()), RequestClose(key, now))
      ensures events == Announcements(old(View()), RequestClose(key, now), [key])
    {
      ghost var m, op := View(), RequestClose(key, now);
      events := [];
      if key in desiredStreams {
        desiredStreams := desiredStreams[key := desiredStreams[key].(shouldBeOpen := false, updatedAt := now)];
      }
      if key in runtimeStreams && runtimeStreams[key].state != Closed {
        runtimeStreams := runtimeStreams[key := runtimeStreams[key].(state := Closed, closedAt := Some(now), updatedAt := now)];
        events := [Announcement(key, runtimeStreams[key])];
      }
      OnlyCell(m, View(), op, key);
    }

    /** The body of handleBackendBecameReady's loop. */
    method Resume(key: Key, b: BackendId, now: Time) returns (events: seq<StreamEvent>)
      requires key in desiredStreams
      modifies this
      ensures Reacted(old(View()), View(), BecameReady(b, now), key)
      ensures events == AnnouncedAt(At(old(View()), key), BecameReady(b, now), key)
    {
      events := [];
      var desired := desiredStreams[key];
      if key.backendId == b && desired.shouldBeOpen && desired.autoResume &&
         !(key in runtimeStreams && runtimeStreams[key].state == Open) {
        var rt := if key in runtimeStreams then runtimeStreams[key] else NewStream(Closed, Requested, None, now);
        rt := rt.(state := Opening, lastError := None, openedAt := Some(now), updatedAt := now);
        runtimeStreams := runtimeStreams[key := rt];
        events := [Announcement(key, rt)];
      }
    }

    /** `order` is the iteration order of desiredStreams. */
    method HandleBackendBecameReady(b: BackendId, now: Time) returns (events: seq<StreamEvent>, order: seq<Key>)
      modifies this
      ensures View() == Step(old(View()), BecameReady(b, now))
      ensures Meets(order, old(View()), BecameReady(b, now))
      ensures events == Announcements(old(View()), BecameReady(b, now), order)
    {
      ghost var m, op := View(), BecameReady(b, now);
      order := IterationOrder(desiredStreams.Keys);
      UnmetUnchanged(m, op, order);
      hide Step, React, Announced, Shown, Partly;
      events := [];
      var i := 0;
      PartlyStart(m, op, order);
      while i < |order|
        invariant 0 <= i <= |order|
        invariant Partly(m, View(), op, order[..i])
        invariant events == Announcements(m, op, order[..i])
      {
        ghost var before := View();
        PartlyAt(m, before, op, order, i);
        assert order[i] in m.desired;
        StillDesired(m, before, op, order[..i], order[i]);
        var more := Resume(order[i], b, now);
        events := events + more;
        PartlyNext(m, before, View(), op, order, i);
        i := i + 1;
      }
      assert order[..|order|] == order;
      Completely(m, View(), op, order);
    }

    /** The body of handleBackendUnsubscribed's loop. */
    method Suspend(key: Key, b: BackendId, reason: string, willAutoRecover: bool,
                   now: Time) returns (events: seq<StreamEvent>)
      requires key in runtimeStreams
      modifies this
      ensures Reacted(old(View()), View(), Unsubscribed(b, reason, willAutoRecover, now), key)
      ensures runtimeStreams.Keys == old(runtimeStreams.Keys)
      ensures events == AnnouncedAt(At(old(View()), key), Unsubscribed(b, reason, willAutoRecover, now), key)
    {
      events := [];
      var runtime := runtimeStreams[key];
      if key.backendId == b && runtime.state != Closed {
        var shouldBeOpen := key in desiredStreams && desiredStreams[key].shouldBeOpen;
        if !shouldBeOpen {
          runtime := runtime.(state := Closed, closedAt := Some(now), lastCloseReason := Some(reason));
        } else if willAutoRecover {
          runtime := runtime.(state := Opening);
        } else {
          runtime := runtime.(state := Errored, lastError := Some(reason));
        }
        runtime := runtime.(updatedAt := now);
        runtimeStreams := runtimeStreams[key := runtime];
        events := [Announcement(key, runtime)];
      }
    }

    /** `order` is the iteration order of runtimeStreams. */
    method HandleBackendUnsubscribed(b: BackendId, reason: string, willAutoRecover: bool, now: Time)
      returns (events: seq<StreamEvent>, order: seq<Key>)
      modifies this
      ensures View() == Step(old(View()), Unsubscribed(b, reason, willAutoRecover, now))
      ensures Meets(order, old(View()), Unsubscribed(b, reason, willAutoRecover, now))
      ensures events == Announcements(old(View()), Unsubscribed(b, reason, willAutoRecover, now), order)
    {
      ghost var m, op := View(), Unsubscribed(b, reason, willAutoRecover, now);
      order := IterationOrder(runtimeStreams.Keys);
      UnmetUnchanged(m, op, order);
      hide Step, React, Announced, Shown, Partly;
      events := [];
      var i := 0;
      PartlyStart(m, op, order);
      while i < |order|
        invariant 0 <= i <= |order|
        invariant runtimeStreams.Keys == m.streams.Keys
        invariant Partly(m, View(), op, order[..i])
        invariant events == Announcements(m, op, order[..i])
      {
        ghost var before := View();
        PartlyAt(m, before, op, order, i);
        var more := Suspend(order[i], b, reason, willAutoRecover, now);
        events := events + more;
        PartlyNext(m, before, View(), op, order, i);
        i := i + 1;
      }
      assert order[..|order|] == order;
      Completely(m, View(), op, order);
    }

    method HandleSessionStreamClosed(key: Key, reason: string, now: Time) returns (events: seq<StreamEvent>)
      modifies this
      ensures View() == Step(old(View()), SessionClosed(key, reason, now))
      ensures events == Announcements(old(View()), SessionClosed(key, reason, now), [key])
    {
      ghost var m, op := View(), SessionClosed(key, reason, now);
      events := [];
      if key in runtimeStreams {
        var runtime := runtimeStreams[key];
        if key in desiredStreams && desiredStreams[key].shouldBeOpen {
          runtime := runtime.(state := Errored, lastError := Some(reason));
        } else {
          runtime := runtime.(state := Closed, closedAt := Some(now), lastCloseReason := Some(reason));
        }
        runtime := runtime.(updatedAt := now);
        runtimeStreams := runtimeStreams[key := runtime];
        events := [Announcement(key, runtime)];
      }
      OnlyCell(m, View(), op, key);
    }

    method HandleContentPatch(key: Key, latestOffset: int, now: Time) returns (events: seq<StreamEvent>)
      modifies this
      ensures View() == Step(old(View()), PatchArrived(key, latestOffset, now))
      ensures events == Announcements(old(View()), PatchArrived(key, latestOffset, now), [key]) + [ContentPatched(key, latestOffset)]
    {
      ghost var m, op := View(), PatchArrived(key, latestOffset, now);
      events := [];
      if key !in runtimeStreams {
        runtimeStreams := runtimeStreams[key := NewStream(Open, Ephemeral, Some(latestOffset), now)];
        events := [Announcement(key, runtimeStreams[key])];
      } else {
        var runtime := runtimeStreams[key];
        if runtime.state == Opening || runtime.state == Errored {
          runtime := runtime.(state := Open, lastError := None, updatedAt := now);
          events := [Announcement(key, runtime)];
        }
        if runtime.latestOffset.None? || latestOffset > runtime.latestOffset.value {
          runtime := runtime.(latestOffset := Some(latestOffset));
        }
        runtimeStreams := runtimeStreams[key := runtime.(lastActivityAt := now, updatedAt := now)];
      }
      OnlyCell(m, View(), op, key);
      events := events + [ContentPatched(key, latestOffset)];
    }

    method HandleRunEvent(key: Key, now: Time) returns (events: seq<StreamEvent>)
      modifies this
      ensures View() == Step(old(View()), RunArrived(key, now))
      ensures events == Announcements(old(View()), RunArrived(key, now), [key]) + [RunReported(key)]
    {
      ghost var m, op := View(), RunArrived(key, now);
      events := [];
      if key !in runtimeStreams {
        runtimeStreams := runtimeStreams[key := NewStream(Open, Ephemeral, None, now)];
        events := [Announcement(key, runtimeStreams[key])];
      } else {
        var runtime := runtimeStreams[key];
        if runtime.state == Opening || runtime.state == Errored {
          runtime := runtime.(state := Open, lastError := None, updatedAt := now);
          events := [Announcement(key, runtime)];
        }
        runtimeStreams := runtimeStreams[key := runtime.(lastActivityAt := now, updatedAt := now)];
      }
      OnlyCell(m, View(), op, key);
      events := events + [RunReported(key)];
    }

    /** The body of collectGarbage's first loop. */
    method Examine(key: Key, now: Time) returns (events: seq<StreamEvent>, remove: bool)
      requires key in runtimeStreams
      modifies this
      ensures desiredStreams == old(desiredStreams) && runtimeStreams.Keys == old(runtimeStreams.Keys)
      ensures At(View(), key) == TimedOut(At(old(View()), key), now)
      ensures forall k :: k != key ==> At(View(), k) == At(old(View()), k)
      ensures remove <==> Collected(At(old(View()), key), now)
      ensures events == AnnouncedAt(At(old(View()), key), CollectGarbage(now), key)
    {
      events, remove := [], false;
      var runtime := runtimeStreams[key];
      if key in desiredStreams && desiredStreams[key].shouldBeOpen { return; }
      if runtime.state == Open { return; }
      if runtime.state == Opening {
        if now - runtime.updatedAt > OPENING_STREAM_TTL {
          runtime := runtime.(state := Errored, lastError := Some("Stream open timed out"), updatedAt := now);
          runtimeStreams := runtimeStreams[key := runtime];
          events := [Announcement(key, runtime)];
        }
        return;
      }
      var age := now - runtime.updatedAt;
      if runtime.source == Ephemeral {
        remove := age > EPHEMERAL_STREAM_TTL;
      } else if runtime.state == Closed {
        remove := age > CLOSED_TOMBSTONE_TTL;
      } else {
        remove := age > ERROR_TOMBSTONE_TTL;
      }
    }

    /** collectGarbage's second loop deletes what the first one listed. */
    method Remove(toRemove: set<Key>)
      modifies this
      ensures forall key :: At(View(), key) == Deleted(At(old(View()), key), key in toRemove)
    {
      var rest := toRemove;
      ghost var m := View();
      while rest != {}
        invariant rest <= toRemove
        invariant forall key :: At(View(), key) == Deleted(At(m, key), key in toRemove - rest)
        decreases rest
      {
        var key :| key in rest;
        ghost var before := View();
        runtimeStreams := runtimeStreams - {key};
        if key in desiredStreams && !desiredStreams[key].shouldBeOpen {
          desiredStreams := desiredStreams - {key};
        }
        DeletedNext(m, before, View(), toRemove, rest, key);
        rest := rest - {key};
      }
    }

    /** `order` is the iteration order of runtimeStreams. */
    method Collect(now: Time) returns (events: seq<StreamEvent>, order: seq<Key>)
      modifies this
      ensures View() == Step(old(View()), CollectGarbage(now))
      ensures Meets(order, old(View()), CollectGarbage(now))
      ensures events == Announcements(old(View()), CollectGarbage(now), order)
    {
      ghost var m, op := View(), CollectGarbage(now);
      order := IterationOrder(runtimeStreams.Keys);
      UnmetUnchanged(m, op, order);
      hide Step, React, Announced, Shown, TimedOut, Collected, Swept, Sweeping;
      events := [];
      var toRemove: set<Key> := {};
      var i := 0;
      SweepStart(m, now, order);
      while i < |order|
        invariant 0 <= i <= |order| && Sweeping(m, now, order, i, View(), toRemove, events)
      {
        ghost var before := View();
        SweepAt(m, before, now, order, i, toRemove, events);
        var more, remove := Examine(order[i], now);
        SweepNext(m, before, View(), now, order, i, toRemove, events, more, remove);
        events := events + more;
        if remove { toRemove := toRemove + {order[i]}; }
        i := i + 1;
      }
      SweepDone(m, View(), now, order, toRemove, events);
      ghost var swept := View();
      Remove(toRemove);
      SweptCompletely(m, swept, View(), now, order, toRemove);
    }
  }

  /** Only the addressed key changed, as it should. */
  lemma OnlyCell(m: Manager, m': Manager, op: Op, key: Key)
    requires OpKeys(op) == {key}
    requires Reacted(m, m', op, key)
    ensures m' == Step(m, op)
    ensures Announcements(m, op, [key]) == AnnouncedAt(At(m, key), op, key)
  {
    forall k ensures At(m', k) == At(Step(m, op), k) {
      StepAt(m, op, k);
    }
    SameCells(m', Step(m, op));
    assert [key][..0] == [];
  }

  /** One key has reacted, the others are as they were. */
  ghost predicate Reacted(m: Manager, m': Manager, op: Op, key: Key) {
    && At(m', key) == React(At(m, key), op, key)
    && forall k :: k != key ==> At(m', k) == At(m, k)
  }

  /** The keys met so far have reacted, the others are as they were. */
  ghost predicate Partly(m: Manager, m': Manager, op: Op, met: seq<Key>) {
    forall key :: At(m', key) == if key in met then React(At(m, key), op, key) else At(m, key)
  }

  /** An operation on a whole backend, or on every stream, changes and announces only keys it meets. */
  lemma UnmetUnchanged(m: Manager, op: Op, order: seq<Key>)
    requires op.BecameReady? || op.Unsubscribed? || op.CollectGarbage?
    requires Visits(order, if op.BecameReady? then m.desired.Keys else m.streams.Keys)
    ensures Meets(order, m, op)
    ensures forall key :: key !in order ==> React(At(m, key), op, key) == At(m, key)
  {
  }

  lemma PartlyStart(m: Manager, op: Op, order: seq<Key>)
    ensures Partly(m, m, op, order[..0])
  {
  }

  lemma PartlyAt(m: Manager, m': Manager, op: Op, order: seq<Key>, i: nat)
    requires i < |order| && Partly(m, m', op, order[..i])
    requires forall k, l :: 0 <= k < l < |order| ==> order[k] != order[l]
    ensures At(m', order[i]) == At(m, order[i])
  {
  }

  lemma StillDesired(m: Manager, m': Manager, op: Op, met: seq<Key>, key: Key)
    requires op.BecameReady? && Partly(m, m', op, met) && key in m.desired
    ensures key in m'.desired
  {
    assert At(m', key).desired == At(m, key).desired;
  }

  lemma PartlyNext(m: Manager, before: Manager, after: Manager, op: Op, order: seq<Key>, i: nat)
    requires i < |order| && Partly(m, before, op, order[..i])
    requires At(before, order[i]) == At(m, order[i])
    requires Reacted(before, after, op, order[i])
    ensures Partly(m, after, op, order[..i + 1])
    ensures order[..i + 1][..i] == order[..i]
  {
  }

  lemma Completely(m: Manager, m': Manager, op: Op, order: seq<Key>)
    requires Partly(m, m', op, order)
    requires forall key :: key !in order ==> React(At(m, key), op, key) == At(m, key)
    ensures m' == Step(m, op)
  {
    hide React, Step;
    forall key ensures At(m', key) == At(Step(m, op), key) {
      StepAt(m, op, key);
    }
    SameCells(m', Step(m, op));
  }

  function TimedOut(c: Cell, now: Time): Cell {
    if TimesOut(c, now) then ReactGarbage(c, now) else c
  }

  function Deleted(c: Cell, listed: bool): Cell {
    if listed then Cell(if Wanted(c) then c.desired else None, None) else c
  }

  lemma DeletedNext(m: Manager, before: Manager, after: Manager, toRemove: set<Key>, rest: set<Key>, key: Key)
    requires key in rest && rest <= toRemove
    requires forall k :: At(before, k) == Deleted(At(m, k), k in toRemove - rest)
    requires At(after, key) == Deleted(At(before, key), true)
    requires forall k :: k != key ==> At(after, k) == At(before, k)
    ensures forall k :: At(after, k) == Deleted(At(m, k), k in toRemove - (rest - {key}))
  {
  }

  /** The keys met so far have been timed out or listed for removal where they should be. */
  ghost predicate Swept(m: Manager, m': Manager, now: Time, met: seq<Key>, toRemove: set<Key>) {
    && (forall key :: At(m', key) == if key in met then TimedOut(At(m, key), now) else At(m, key))
    && (forall key :: key in toRemove <==> key in met && Collected(At(m, key), now))
  }

  /** Where collectGarbage's first loop is after i rounds. */
  ghost predicate Sweeping(m: Manager, now: Time, order: seq<Key>, i: nat, m': Manager, toRemove: set<Key>,
                           events: seq<StreamEvent>)
    requires i <= |order|
  {
    && m'.streams.Keys == m.streams.Keys
    && Swept(m, m', now, order[..i], toRemove)
    && events == Announcements(m, CollectGarbage(now), order[..i])
  }

  lemma SweepStart(m: Manager, now: Time, order: seq<Key>)
    ensures Sweeping(m, now, order, 0, m, {}, [])
  {
  }

  lemma SweepAt(m: Manager, m': Manager, now: Time, order: seq<Key>, i: nat, toRemove: set<Key>, events: seq<StreamEvent>)
    requires i < |order| && Sweeping(m, now, order, i, m', toRemove, events) && Visits(order, m.streams.Keys)
    ensures At(m', order[i]) == At(m, order[i]) && order[i] in m'.streams
  {
    hide Collected, TimedOut, Announcements;
  }

  lemma SweptNext(m: Manager, before: Manager, after: Manager, now: Time, order: seq<Key>, i: nat, toRemove: set<Key>,
                  remove: bool)
    requires i < |order| && Swept(m, before, now, order[..i], toRemove)
    requires At(before, order[i]) == At(m, order[i])
    requires At(after, order[i]) == TimedOut(At(m, order[i]), now)
    requires forall k :: k != order[i] ==> At(after, k) == At(before, k)
    requires remove <==> Collected(At(m, order[i]), now)
    ensures Swept(m, after, now, order[..i + 1], if remove then toRemove + {order[i]} else toRemove)
  {
    hide Collected, TimedOut;
  }

  lemma SweepNext(m: Manager, before: Manager, after: Manager, now: Time, order: seq<Key>, i: nat, toRemove: set<Key>,
                  events: seq<StreamEvent>, more: seq<StreamEvent>, remove: bool)
    requires i < |order| && Sweeping(m, now, order, i, before, toRemove, events)
    requires At(before, order[i]) == At(m, order[i]) && after.streams.Keys == before.streams.Keys
    requires At(after, order[i]) == TimedOut(At(m, order[i]), now)
    requires forall k :: k != order[i] ==> At(after, k) == At(before, k)
    requires remove <==> Collected(At(m, order[i]), now)
    requires more == AnnouncedAt(At(m, order[i]), CollectGarbage(now), order[i])
    ensures Sweeping(m, now, order, i + 1, after, if remove then toRemove + {order[i]} else toRemove, events + more)
  {
    hide Collected, TimedOut, Swept, AnnouncedAt, At;
    SweptNext(m, before, after, now, order, i, toRemove, remove);
    assert order[..i + 1][..i] == order[..i];
  }

  lemma SweepDone(m: Manager, m': Manager, now: Time, order: seq<Key>, toRemove: set<Key>, events: seq<StreamEvent>)
    requires Sweeping(m, now, order, |order|, m', toRemove, events)
    ensures Swept(m, m', now, order, toRemove) && events == Announcements(m, CollectGarbage(now), order)
  {
    assert order[..|order|] == order;
  }

  lemma SweptCompletely(m: Manager, swept: Manager, m': Manager, now: Time, order: seq<Key>, toRemove: set<Key>)
    requires Swept(m, swept, now, order, toRemove) && Visits(order, m.streams.Keys)
    requires forall key :: At(m', key) == Deleted(At(swept, key), key in toRemove)
    ensures m' == Step(m, CollectGarbage(now))
  {
    forall key ensures At(m', key) == At(Step(m, CollectGarbage(now)), key) {
      StepAt(m, CollectGarbage(now), key);
      assert At(swept, key) == if key in order then TimedOut(At(m, key), now) else At(m, key);
      assert key in toRemove <==> key in order && Collected(At(m, key), now);
      hide Step;
    }
    SameCells(m', Step(m, CollectGarbage(now)));
  }
}
