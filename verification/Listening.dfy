/**
 * What the facade tells its listeners about the backends: emitBackendDiffs and its callers in
 * shared/src/facade/runtime-core.ts.  A listener folds the backend_state_changed events.
 */
module Listening {
  import opened Options
  import opened Storage
  import opened Gateway
  import opened Client
  import Store = RegistryStore
  import RecordStates

  datatype StateChange = StateChange(backendId: BackendId, state: Store.RuntimeState, error: Option<string>)

  /** The reason is passed on as an error when the backend failed or went offline. */
  function Announced(d: Store.Diff): StateChange {
    StateChange(d.backendId, d.nextRuntime, if d.nextRuntime.Failed? || d.nextRuntime.Offline? then Some(d.reason) else None)
  }

  /** emitBackendDiffs. */
  function Announce(diffs: seq<Store.Diff>): seq<StateChange> {
    seq(|diffs|, i requires 0 <= i < |diffs| => Announced(diffs[i]))
  }

  // ---------------------------------------------------------------- what each handler emits

  /** openBackend on a visible backend: emitted only if the record is still being subscribed. */
  function OpenedChanges(b: BackendId, r: Store.Record): seq<StateChange> {
    var next := Store.Subscribe(r);
    if next.runtimeState.Subscribing? then Announce(Store.MakeDiff(b, Some(r), next, "subscribing")) else []
  }

  function OpenChanges(records: Store.Records, b: BackendId): seq<StateChange> {
    if Present(records, b) then OpenedChanges(b, records[b]) else []
  }

  function ReopenChanges(records: Store.Records, order: seq<BackendId>): seq<StateChange> {
    if order == [] then []
    else ReopenChanges(records, order[..|order| - 1]) + OpenChanges(records, order[|order| - 1])
  }

  function CloseChanges(records: Store.Records, b: BackendId): seq<StateChange> {
    if IsSubscribed(records, b) then Announce(Store.DoDiffs(records, Store.MarkUnsubscribed(b, "user_closed"))) else []
  }

  /** A snapshot whose loop over the records met them in the order `removed`, and what it reopened in `order`. */
  function SnapshotChanges(records: Store.Records, items: seq<Presence>, removed: seq<BackendId>,
                           order: seq<BackendId>): seq<StateChange> {
    Announce(Store.DoDiffs(records, Store.Snapshot(items, removed))) +
    ReopenChanges(Store.ApplySnapshot(records, items), order)
  }

  /** The other messages: a confirmed subscription is not announced when the record is ready at once. */
  function MessageChanges(records: Store.Records, m: Msg): seq<StateChange> {
    match m
    case BackendSubscribed(b, e, caps) =>
      var op := Store.MarkSubscribed(b, e, caps);
      if b in records && Store.Do(records, op)[b].runtimeState.Ready? then [] else Announce(Store.DoDiffs(records, op))
    case BackendUnsubscribed(b, reason) =>
      Announce(Store.DoDiffs(records, Store.MarkUnsubscribed(b, ReasonText(reason))))
    case Relayed(b, DataSnapshot, _, _) => Announce(Store.DoDiffs(records, Store.MarkDataInitialized(b)))
    case _ => []
  }

  // ---------------------------------------------------------------- what a listener knows

  /** The last state heard of each backend. */
  type Heard = map<BackendId, Store.RuntimeState>

  function Hear(heard: Heard, changes: seq<StateChange>): Heard
    decreases |changes|
  {
    if changes == [] then heard else Hear(heard[changes[0].backendId := changes[0].state], changes[1..])
  }

  /** The listener knows the backend's state; one it remembers beyond the records is offline. */
  predicate KnownState(heard: Option<Store.RuntimeState>, r: Option<Store.Record>) {
    match r
    case Some(record) => heard == Some(record.runtimeState)
    case None => heard.None? || heard.value.Offline?
  }

  ghost predicate InStep(heard: Heard, records: Store.Records) {
    forall b :: KnownState(Lookup(heard, b), Lookup(records, b))
  }

  lemma {:induction false} HearConcat(heard: Heard, first: seq<StateChange>, second: seq<StateChange>)
    ensures Hear(heard, first + second) == Hear(Hear(heard, first), second)
    decreases |first|
  {
    if first == [] {
      assert first + second == second;
    } else {
      assert (first + second)[0] == first[0] && (first + second)[1..] == first[1..] + second;
      HearConcat(heard[first[0].backendId := first[0].state], first[1..], second);
    }
  }

  /** Of the state changes of a snapshot, those to offline and to failed come with an error: the reason why they changed. */
  lemma SnapshotErrors(records: Store.Records, items: seq<Presence>, order: seq<BackendId>, m: map<BackendId, Presence>,
                       c: StateChange)
    requires Store.ListsRegistry(items, m) && c in Announce(Store.DoDiffs(records, Store.Snapshot(items, order)))
    ensures c.error == if c.state == Store.Offline || c.state == Store.Failed
                       then Some(RecordStates.Reason(records, m, c.backendId)) else None
  {
    hide Store.ListsRegistry, Store.DoDiffs;
    var diffs := Store.DoDiffs(records, Store.Snapshot(items, order));
    var i :| 0 <= i < |diffs| && Announce(diffs)[i] == c;
    assert diffs[i] in diffs;
    RecordStates.SnapshotReasons(records, items, order, m, diffs[i]);
  }

  /** Two listeners that hear the same end up alike about b, or have heard nothing of it. */
  lemma {:induction false} HearAlike(heard: Heard, other: Heard, changes: seq<StateChange>, b: BackendId)
    ensures || Lookup(Hear(heard, changes), b) == Lookup(Hear(other, changes), b)
            || (Lookup(Hear(heard, changes), b) == Lookup(heard, b) && Lookup(Hear(other, changes), b) == Lookup(other, b))
    decreases |changes|
  {
    if changes != [] {
      var c := changes[0];
      HearAlike(heard[c.backendId := c.state], other[c.backendId := c.state], changes[1..], b);
    }
  }

  // ---------------------------------------------------------------- emitted in full

  function Project(obs: Store.Observer): Heard {
    map b | b in obs :: obs[b].0
  }

  lemma {:induction false} Projected(obs: Store.Observer, diffs: seq<Store.Diff>)
    ensures Hear(Project(obs), Announce(diffs)) == Project(Store.Replay(obs, diffs))
    decreases |diffs|
  {
    if diffs != [] {
      var obs' := Store.Observe(obs, diffs[0]);
      assert Announce(diffs)[0] == Announced(diffs[0]) && Announce(diffs)[1..] == Announce(diffs[1..]);
      assert Project(obs') == Project(obs)[diffs[0].backendId := diffs[0].nextRuntime];
      Projected(obs', diffs[1..]);
    }
  }

  /** An observer of the diffs that holds what the listener has heard. */
  function Observing(heard: Heard, records: Store.Records): Store.Observer {
    map b | b in heard :: (heard[b], if b in records then records[b].openState else Store.Unsubscribed)
  }

  lemma ObservingTracks(heard: Heard, records: Store.Records)
    requires InStep(heard, records)
    ensures Store.Tracks(Observing(heard, records), records) && Project(Observing(heard, records)) == heard
  {
    forall b | b in records
      ensures Lookup(Observing(heard, records), b) == Some((records[b].runtimeState, records[b].openState))
    {
      assert KnownState(Lookup(heard, b), Lookup(records, b));
    }
    forall b | b in heard && b !in records ensures heard[b].Offline? {
      assert KnownState(Lookup(heard, b), Lookup(records, b));
    }
  }

  lemma TracksInStep(obs: Store.Observer, records: Store.Records)
    requires Store.Tracks(obs, records)
    ensures InStep(Project(obs), records)
  {
  }

  /** Announcing all diffs of a store operation keeps a listener in step. */
  lemma DiffsHeard(heard: Heard, records: Store.Records, op: Store.Op)
    requires Store.Cached(records) && InStep(heard, records) && Store.CanDo(records, op)
    ensures InStep(Hear(heard, Announce(Store.DoDiffs(records, op))), Store.Do(records, op))
    ensures Store.Cached(Store.Do(records, op))
  {
    hide InStep, Observing, Project, Hear, Announce, Store.Tracks, Store.Cached, Store.Do, Store.DoDiffs, Store.CanDo,
         Store.Chained;
    var obs := Observing(heard, records);
    ObservingTracks(heard, records);
    Store.DoTracks(obs, records, op);
    Projected(obs, Store.DoDiffs(records, op));
    TracksInStep(Store.Replay(obs, Store.DoDiffs(records, op)), Store.Do(records, op));
  }

  // ---------------------------------------------------------------- emitted or withheld

  /** One record replaced and its diff announced. */
  lemma OneHeard(heard: Heard, records: Store.Records, b: BackendId, next: Store.Record, reason: string)
    requires InStep(heard, records) && b in records
    ensures InStep(Hear(heard, Announce(Store.MakeDiff(b, Some(records[b]), next, reason))), records[b := next])
  {
    var changes := Announce(Store.MakeDiff(b, Some(records[b]), next, reason));
    forall c ensures KnownState(Lookup(Hear(heard, changes), c), Lookup(records[b := next], c)) {
      assert KnownState(Lookup(heard, c), Lookup(records, c));
      assert KnownState(Lookup(heard, b), Lookup(records, b));
      if changes != [] { assert changes[1..] == []; }
    }
  }

  /** openBackend keeps a listener in step: what it withholds changes no runtime state. */
  lemma OpeningHeard(heard: Heard, records: Store.Records, b: BackendId)
    requires Store.Cached(records) && InStep(heard, records) && Present(records, b)
    ensures InStep(Hear(heard, OpenChanges(records, b)), records[b := Store.Subscribe(records[b])])
    ensures Store.Cached(records[b := Store.Subscribe(records[b])])
  {
    hide InStep, Hear, Announce;
    var next := Store.Subscribe(records[b]);
    if next.runtimeState.Subscribing? {
      OneHeard(heard, records, b, next, "subscribing");
    } else {
      SameStateHeard(heard, records, b, next);
      NothingHeard(heard);
    }
  }

  lemma SameStateHeard(heard: Heard, records: Store.Records, b: BackendId, next: Store.Record)
    requires InStep(heard, records) && b in records
    ensures InStep(heard, records[b := next]) <==> records[b].runtimeState == next.runtimeState
  {
    assert KnownState(Lookup(heard, b), Lookup(records, b));
    assert KnownState(Lookup(heard, b), Lookup(records[b := next], b)) <==> records[b].runtimeState == next.runtimeState;
    forall c | c != b ensures KnownState(Lookup(heard, c), Lookup(records[b := next], c)) {
      assert KnownState(Lookup(heard, c), Lookup(records, c));
    }
  }

  lemma NothingHeard(heard: Heard)
    ensures Hear(heard, []) == heard
  {
  }

  /** A subscription is confirmed for a record that is ready at once: its data came while it was not subscribed. */
  predicate Withheld(records: Store.Records, m: Msg) {
    && m.BackendSubscribed? && Present(records, m.backendId)
    && records[m.backendId].dataInitialized && !records[m.backendId].subscribed
  }

  /** A message leaves a listener in step exactly unless it confirms a subscription whose data came too early. */
  lemma MessageHeardIff(heard: Heard, records: Store.Records, m: Msg)
    requires Store.Cached(records) && InStep(heard, records) && !m.RegistrySnapshot?
    ensures InStep(Hear(heard, MessageChanges(records, m)), Absorb(records, m)) <==> !Withheld(records, m)
    ensures Store.Cached(Absorb(records, m))
  {
    hide InStep, Hear, Announce, Store.MakeDiff;
    NothingHeard(heard);
    match m
    case BackendSubscribed(b, e, caps) =>
      var op := Store.MarkSubscribed(b, e, caps);
      DiffsHeard(heard, records, op);
      if b in records { SameStateHeard(heard, records, b, Store.Confirm(records[b], e, caps)); }
    case BackendUnsubscribed(b, reason) => DiffsHeard(heard, records, Store.MarkUnsubscribed(b, ReasonText(reason)));
    case Relayed(b, DataSnapshot, _, _) => DiffsHeard(heard, records, Store.MarkDataInitialized(b));
    case _ =>
  }

  lemma {:induction false} ReopeningHeard(heard: Heard, records: Store.Records, order: seq<BackendId>)
    requires Store.Cached(records) && InStep(heard, records)
    requires forall i :: 0 <= i < |order| ==> Present(records, order[i])
    requires forall i, j :: 0 <= i < j < |order| ==> order[i] != order[j]
    ensures InStep(Hear(heard, ReopenChanges(records, order)), Reopen(records, Elements(order)))
    ensures Store.Cached(Reopen(records, Elements(order)))
  {
    hide InStep, Hear, Store.Cached, OpenChanges;
    if order == [] {
      NothingHeard(heard);
      assert Reopen(records, Elements(order)) == records;
    } else {
      var n := |order| - 1;
      var before, b := order[..n], order[n];
      ReopeningHeard(heard, records, before);
      var records1 := Reopen(records, Elements(before));
      OpeningHeard(Hear(heard, ReopenChanges(records, before)), records1, b);
      HearConcat(heard, ReopenChanges(records, before), OpenChanges(records, b));
      LastReopened(records, order);
    }
  }

  lemma LastReopened(records: Store.Records, order: seq<BackendId>)
    requires order != [] && Present(records, order[|order| - 1])
    requires forall i, j :: 0 <= i < j < |order| ==> order[i] != order[j]
    ensures var b := order[|order| - 1];
            var records1 := Reopen(records, Elements(order[..|order| - 1]));
            && b in records1 && records1[b] == records[b] && OpenChanges(records1, b) == OpenChanges(records, b)
            && Reopen(records, Elements(order)) == records1[b := Store.Subscribe(records[b])]
  {
    hide OpenedChanges;
    var n := |order| - 1;
    assert forall c :: c in order <==> c == order[n] || c in order[..n];
  }

  /** A registry snapshot, and the reopening it starts, keep a listener in step. */
  lemma SnapshotHeard(heard: Heard, c: Client, items: seq<Presence>, removed: seq<BackendId>, order: seq<BackendId>)
    requires Store.Cached(c.records) && InStep(heard, c.records) && Visits(removed, c.records.Keys)
    requires Visits(order, ToReopen(Store.ApplySnapshot(c.records, items), c.desired))
    ensures var after := Store.ApplySnapshot(c.records, items);
            && InStep(Hear(heard, SnapshotChanges(c.records, items, removed, order)), Reopen(after, ToReopen(after, c.desired)))
            && Store.Cached(Reopen(after, ToReopen(after, c.desired)))
  {
    hide InStep, Hear, Announce, Store.Cached, Store.ApplySnapshot, Store.DoDiffs, Reopen, ReopenChanges;
    var op := Store.Snapshot(items, removed);
    var after := Store.ApplySnapshot(c.records, items);
    DiffsHeard(heard, c.records, op);
    var first := Announce(Store.DoDiffs(c.records, op));
    VisitedAll(order, ToReopen(after, c.desired));
    ReopeningHeard(Hear(heard, first), after, order);
    HearConcat(heard, first, ReopenChanges(after, order));
  }

  lemma ClosingHeard(heard: Heard, c: Client, b: BackendId)
    requires Store.Cached(c.records) && InStep(heard, c.records)
    ensures InStep(Hear(heard, CloseChanges(c.records, b)), CloseBackend(c, b).records)
    ensures Store.Cached(CloseBackend(c, b).records)
  {
    hide InStep, Hear, Announce, Store.MakeDiff;
    NothingHeard(heard);
    if IsSubscribed(c.records, b) { DiffsHeard(heard, c.records, Store.MarkUnsubscribed(b, "user_closed")); }
  }
}
