/** The client's view of the backends: shared/src/facade/registry-store.ts. */
module RegistryStore {
  import opened Options
  import opened Storage
  import opened Gateway

  datatype RuntimeState = Offline | Visible | Subscribing | Ready | Failed

  datatype OpenState = Unsubscribed | Opening | Open | OpenFailed

  datatype Record = Record(
    presence: Option<Presence>,
    currentEpoch: Option<Epoch>,
    subscribed: bool,
    dataInitialized: bool,
    closureReason: Option<string>,
    runtimeState: RuntimeState,
    openState: OpenState,
    capabilities: seq<string>
  )

  type Records = map<BackendId, Record>

  datatype Diff = Diff(
    backendId: BackendId,
    previousRuntime: Option<RuntimeState>,
    nextRuntime: RuntimeState,
    previousOpen: Option<OpenState>,
    nextOpen: OpenState,
    reason: string
  )

  // ---------------------------------------------------------------- derivation and diffs

  /** deriveRuntimeState. */
  function Derive(r: Record): RuntimeState {
    if r.presence.None? then Offline
    else if !r.subscribed then
      if r.openState.Opening? then Subscribing
      else if r.openState.OpenFailed? then Failed
      else Visible
    else if !r.dataInitialized then Subscribing
    else Ready
  }

  function Updated(r: Record): Record {
    r.(runtimeState := Derive(r))
  }

  function DefaultRecord(item: Presence): Record {
    Record(Some(item), Some(item.epoch), false, false, None, Visible, Unsubscribed, [])
  }

  /** makeDiff, as the list of at most one diff its callers push. */
  function MakeDiff(b: BackendId, prev: Option<Record>, next: Record, reason: string): seq<Diff> {
    match prev
    case Some(p) =>
      if p.runtimeState == next.runtimeState && p.openState == next.openState then []
      else [Diff(b, Some(p.runtimeState), next.runtimeState, Some(p.openState), next.openState, reason)]
    case None => [Diff(b, None, next.runtimeState, None, next.openState, reason)]
  }

  // ---------------------------------------------------------------- one record at a time

  /** A record whose backend is missing from a snapshot, unless it was offline already. */
  function Gone(r: Record): Record {
    if r.runtimeState == Offline || (r.runtimeState == Failed && r.presence.None?) then r
    else Updated(r.(presence := None, currentEpoch := None, subscribed := false, dataInitialized := false,
                    openState := if r.openState.Open? || r.openState.Opening? then OpenFailed else r.openState,
                    capabilities := []))
  }

  /** A record whose backend is in a snapshot. */
  function Shown(prev: Option<Record>, item: Presence): Record {
    match prev
    case None => Updated(DefaultRecord(item))
    case Some(p) =>
      if p.currentEpoch == Some(item.epoch) || p.currentEpoch == None
      then Updated(p.(presence := Some(item), currentEpoch := Some(item.epoch)))
      else Updated(p.(presence := Some(item), currentEpoch := Some(item.epoch), subscribed := false, dataInitialized := false,
                      openState := if p.openState.Open? then OpenFailed else Unsubscribed, capabilities := []))
  }

  function ShownReason(prev: Option<Record>, item: Presence): string {
    match prev
    case None => "registry_snapshot"
    case Some(p) =>
      if p.currentEpoch == Some(item.epoch) || p.currentEpoch == None then "registry_restored" else "epoch_changed"
  }

  function Subscribe(r: Record): Record {
    Updated(r.(openState := Opening))
  }

  function Confirm(r: Record, epoch: Epoch, capabilities: seq<string>): Record {
    Updated(r.(subscribed := true, currentEpoch := Some(epoch), openState := Open,
               capabilities := capabilities, closureReason := None))
  }

  function Close(r: Record, reason: string): Record {
    Updated(r.(subscribed := false, dataInitialized := false, openState := Unsubscribed,
               closureReason := Some(reason), capabilities := []))
  }

  function Initialize(r: Record, initialized: bool): Record {
    Updated(r.(dataInitialized := initialized))
  }

  // ---------------------------------------------------------------- the whole store

  function Ids(items: seq<Presence>): set<BackendId> {
    set i | 0 <= i < |items| :: items[i].backendId
  }

  /** The first loop of applyRegistrySnapshot. */
  function RemoveMissing(records: Records, ids: set<BackendId>): Records {
    map b | b in records :: if b in ids then records[b] else Gone(records[b])
  }

  function Upsert(records: Records, item: Presence): Records {
    records[item.backendId := Shown(Lookup(records, item.backendId), item)]
  }

  function UpsertAll(records: Records, items: seq<Presence>): Records
    decreases |items|
  {
    if items == [] then records else UpsertAll(Upsert(records, items[0]), items[1..])
  }

  function UpsertDiff(records: Records, item: Presence): seq<Diff> {
    var prev := Lookup(records, item.backendId);
    MakeDiff(item.backendId, prev, Shown(prev, item), ShownReason(prev, item))
  }

  function UpsertDiffs(records: Records, items: seq<Presence>): seq<Diff>
    decreases |items|
  {
    if items == [] then []
    else UpsertDiff(records, items[0]) + UpsertDiffs(Upsert(records, items[0]), items[1..])
  }

  /** applyRegistrySnapshot. */
  function ApplySnapshot(records: Records, items: seq<Presence>): Records {
    UpsertAll(RemoveMissing(records, Ids(items)), items)
  }

  /** An operation on one existing record; a missing one is left alone. */
  function Mark(records: Records, b: BackendId, f: Record -> Record): Records {
    if b in records then records[b := f(records[b])] else records
  }

  function MarkDiffs(records: Records, b: BackendId, f: Record -> Record, reason: string): seq<Diff> {
    if b in records then MakeDiff(b, Some(records[b]), f(records[b]), reason) else []
  }

  function Collect(records: Records): Records {
    map b | b in records && (records[b].presence.Some? || records[b].subscribed) :: records[b]
  }

  function Bootstrap(items: seq<Presence>, subscriptions: set<BackendId>): Records {
    var registered := UpsertDefaults(map[], items);
    map b | b in registered ::
      if b in subscriptions then Updated(registered[b].(subscribed := true, openState := Open)) else registered[b]
  }

  function UpsertDefaults(records: Records, items: seq<Presence>): Records
    decreases |items|
  {
    if items == [] then records
    else UpsertDefaults(records[items[0].backendId := DefaultRecord(items[0])], items[1..])
  }

  // ---------------------------------------------------------------- the cached state

  /** The cached runtimeState is the derived one. */
  ghost predicate Cached(records: Records) {
    forall b :: b in records ==> records[b].runtimeState == Derive(records[b])
  }

  lemma {:induction false} UpsertAllCached(records: Records, items: seq<Presence>)
    requires Cached(records)
    ensures Cached(UpsertAll(records, items))
    decreases |items|
  {
    if items != [] { UpsertAllCached(Upsert(records, items[0]), items[1..]); }
  }

  // ---------------------------------------------------------------- replaying diffs

  /** What an observer of the diffs holds: the last announced states of each backend it has heard of. */
  type Observer = map<BackendId, (RuntimeState, OpenState)>

  function Observe(obs: Observer, d: Diff): Observer {
    obs[d.backendId := (d.nextRuntime, d.nextOpen)]
  }

  function Replay(obs: Observer, diffs: seq<Diff>): Observer
    decreases |diffs|
  {
    if diffs == [] then obs else Replay(Observe(obs, diffs[0]), diffs[1..])
  }

  /** Each diff starts from what the observer holds, and changes it. */
  ghost predicate Chained(obs: Observer, diffs: seq<Diff>)
    decreases |diffs|
  {
    diffs == [] ||
    (var d := diffs[0];
     && (d.previousRuntime.Some? ==> d.previousOpen.Some? && Lookup(obs, d.backendId) == Some((d.previousRuntime.value, d.previousOpen.value)))
     && (d.previousRuntime.None? ==> d.backendId in obs ==> obs[d.backendId].0 == Offline)
     && (d.previousRuntime != Some(d.nextRuntime) || d.previousOpen != Some(d.nextOpen))
     && Chained(Observe(obs, d), diffs[1..]))
  }

  /** The observer holds the states of every record; a backend it remembers beyond that is offline. */
  ghost predicate Tracks(obs: Observer, records: Records) {
    && (forall b :: b in records ==> Lookup(obs, b) == Some((records[b].runtimeState, records[b].openState)))
    && (forall b :: b in obs && b !in records ==> obs[b].0 == Offline)
  }

  /** The runtime state an observer reports, with missing meaning offline. */
  function Reported(obs: Observer, b: BackendId): RuntimeState {
    if b in obs then obs[b].0 else Offline
  }

  function StateOf(records: Records, b: BackendId): RuntimeState {
    if b in records then records[b].runtimeState else Offline
  }

  lemma {:induction false} ReplayConcat(obs: Observer, d1: seq<Diff>, d2: seq<Diff>)
    ensures Replay(obs, d1 + d2) == Replay(Replay(obs, d1), d2)
    ensures Chained(obs, d1) && Chained(Replay(obs, d1), d2) ==> Chained(obs, d1 + d2)
    decreases |d1|
  {
    if d1 == [] {
      assert d1 + d2 == d2;
    } else {
      assert (d1 + d2)[0] == d1[0] && (d1 + d2)[1..] == d1[1..] + d2;
      ReplayConcat(Observe(obs, d1[0]), d1[1..], d2);
    }
  }

  /** One record replaced, with the diff makeDiff gives. */
  lemma ReplayOne(obs: Observer, records: Records, b: BackendId, next: Record, reason: string)
    requires Tracks(obs, records)
    ensures var diffs := MakeDiff(b, Lookup(records, b), next, reason);
            Tracks(Replay(obs, diffs), records[b := next]) && Chained(obs, diffs)
  {
    var diffs := MakeDiff(b, Lookup(records, b), next, reason);
    if diffs != [] {
      assert diffs[1..] == [];
      assert Replay(obs, diffs) == Observe(obs, diffs[0]);
    }
  }

  lemma {:induction false} ReplayUpserts(obs: Observer, records: Records, items: seq<Presence>)
    requires Tracks(obs, records)
    ensures Tracks(Replay(obs, UpsertDiffs(records, items)), UpsertAll(records, items))
    ensures Chained(obs, UpsertDiffs(records, items))
    decreases |items|
  {
    if items != [] {
      var item := items[0];
      var prev := Lookup(records, item.backendId);
      var d := UpsertDiff(records, item);
      ReplayOne(obs, records, item.backendId, Shown(prev, item), ShownReason(prev, item));
      ReplayUpserts(Replay(obs, d), Upsert(records, item), items[1..]);
      ReplayConcat(obs, d, UpsertDiffs(Upsert(records, item), items[1..]));
    }
  }

  /** The first loop's changes and diffs for the backends visited so far. */
  function RemoveSome(records: Records, ids: set<BackendId>, order: seq<BackendId>): Records
    decreases |order|
  {
    if order == [] then records
    else
      var b := order[0];
      RemoveSome(if b in records && b !in ids then records[b := Gone(records[b])] else records, ids, order[1..])
  }

  function RemoveSomeDiffs(records: Records, ids: set<BackendId>, order: seq<BackendId>): seq<Diff>
    decreases |order|
  {
    if order == [] then []
    else
      var b := order[0];
      if b in records && b !in ids then
        MakeDiff(b, Some(records[b]), Gone(records[b]), "registry_removed") +
        RemoveSomeDiffs(records[b := Gone(records[b])], ids, order[1..])
      else RemoveSomeDiffs(records, ids, order[1..])
  }

  lemma {:induction false} ReplayRemovals(obs: Observer, records: Records, ids: set<BackendId>, order: seq<BackendId>)
    requires Tracks(obs, records)
    ensures Tracks(Replay(obs, RemoveSomeDiffs(records, ids, order)), RemoveSome(records, ids, order))
    ensures Chained(obs, RemoveSomeDiffs(records, ids, order))
    decreases |order|
  {
    if order != [] {
      var b := order[0];
      if b in records && b !in ids {
        var next := Gone(records[b]);
        var d := MakeDiff(b, Some(records[b]), next, "registry_removed");
        ReplayOne(obs, records, b, next, "registry_removed");
        ReplayRemovals(Replay(obs, d), records[b := next], ids, order[1..]);
        ReplayConcat(obs, d, RemoveSomeDiffs(records[b := next], ids, order[1..]));
      } else {
        ReplayRemovals(obs, records, ids, order[1..]);
      }
    }
  }

  /** Whatever the iteration order, the first loop ends in the same records. */
  lemma {:induction false} RemovalOrderIrrelevant(records: Records, ids: set<BackendId>, order: seq<BackendId>)
    requires forall i, j :: 0 <= i < j < |order| ==> order[i] != order[j]
    ensures RemoveSome(records, ids, order).Keys == records.Keys
    ensures forall b :: b in records ==>
              RemoveSome(records, ids, order)[b] == if b in order && b !in ids then Gone(records[b]) else records[b]
    decreases |order|
  {
    if order != [] {
      var b := order[0];
      var records' := if b in records && b !in ids then records[b := Gone(records[b])] else records;
      assert forall c :: c in order <==> c == b || c in order[1..];
      RemovalOrderIrrelevant(records', ids, order[1..]);
      assert b !in order[1..];
    }
  }

  lemma RemovalsComplete(records: Records, ids: set<BackendId>, order: seq<BackendId>)
    requires Visits(order, records.Keys)
    ensures RemoveSome(records, ids, order) == RemoveMissing(records, ids)
  {
    RemovalOrderIrrelevant(records, ids, order);
  }

  // ---------------------------------------------------------------- runs of the store

  datatype Op =
    | Snapshot(items: seq<Presence>, order: seq<BackendId>)
    | MarkSubscribing(b: BackendId)
    | MarkSubscribed(b: BackendId, epoch: Epoch, capabilities: seq<string>)
    | MarkUnsubscribed(b: BackendId, reason: string)
    | MarkDataInitialized(b: BackendId)
    | MarkDataReset(b: BackendId)
    | CollectGarbage

  /** The change a marking operation makes to the record it finds. */
  function Change(op: Op): Record -> Record
    requires !op.Snapshot? && !op.CollectGarbage?
  {
    match op
    case MarkSubscribing(_) => Subscribe
    case MarkSubscribed(_, e, caps) => (r: Record) => Confirm(r, e, caps)
    case MarkUnsubscribed(_, reason) => (r: Record) => Close(r, reason)
    case MarkDataInitialized(_) => (r: Record) => Initialize(r, true)
    case MarkDataReset(_) => (r: Record) => Initialize(r, false)
  }

  function ChangeReason(op: Op): string
    requires !op.Snapshot? && !op.CollectGarbage?
  {
    match op
    case MarkSubscribing(_) => "subscribing"
    case MarkSubscribed(_, _, _) => "subscribed"
    case MarkUnsubscribed(_, reason) => reason
    case MarkDataInitialized(_) => "data_initialized"
    case MarkDataReset(_) => "data_reset"
  }

  function Do(records: Records, op: Op): Records {
    match op
    case Snapshot(items, _) => ApplySnapshot(records, items)
    case CollectGarbage => Collect(records)
    case _ => Mark(records, op.b, Change(op))
  }

  function DoDiffs(records: Records, op: Op): seq<Diff> {
    match op
    case Snapshot(items, order) =>
      RemoveSomeDiffs(records, Ids(items), order) + UpsertDiffs(RemoveMissing(records, Ids(items)), items)
    case CollectGarbage => []
    case _ => MarkDiffs(records, op.b, Change(op), ChangeReason(op))
  }

  ghost predicate CanDo(records: Records, op: Op) {
    op.Snapshot? ==> Visits(op.order, records.Keys)
  }

  lemma SnapshotTracks(obs: Observer, records: Records, items: seq<Presence>, order: seq<BackendId>)
    requires Cached(records) && Tracks(obs, records) && Visits(order, records.Keys)
    ensures var diffs := RemoveSomeDiffs(records, Ids(items), order) + UpsertDiffs(RemoveMissing(records, Ids(items)), items);
            && Cached(ApplySnapshot(records, items))
            && Tracks(Replay(obs, diffs), ApplySnapshot(records, items))
            && Chained(obs, diffs)
  {
    var ids := Ids(items);
    var removed := RemoveMissing(records, ids);
    var d := RemoveSomeDiffs(records, ids, order);
    RemovalsComplete(records, ids, order);
    ReplayRemovals(obs, records, ids, order);
    RemoveMissingCached(records, ids);
    hide Tracks, Cached;
    ReplayUpserts(Replay(obs, d), removed, items);
    ReplayConcat(obs, d, UpsertDiffs(removed, items));
    UpsertAllCached(removed, items);
  }

  lemma RemoveMissingCached(records: Records, ids: set<BackendId>)
    requires Cached(records)
    ensures Cached(RemoveMissing(records, ids))
  {
  }

  lemma MarkTracks(obs: Observer, records: Records, op: Op)
    requires !op.Snapshot? && !op.CollectGarbage?
    requires Cached(records) && Tracks(obs, records)
    ensures Cached(Do(records, op))
    ensures Tracks(Replay(obs, DoDiffs(records, op)), Do(records, op))
    ensures Chained(obs, DoDiffs(records, op))
  {
    if op.b in records {
      ReplayOne(obs, records, op.b, Change(op)(records[op.b]), ChangeReason(op));
      ChangeIsCached(records[op.b], op);
      hide Tracks, Chained, MakeDiff, Change;
    }
  }

  lemma ChangeIsCached(r: Record, op: Op)
    requires !op.Snapshot? && !op.CollectGarbage?
    ensures Change(op)(r).runtimeState == Derive(Change(op)(r))
  {
  }

  /** One operation keeps the cache right and the observer in step. */
  lemma DoTracks(obs: Observer, records: Records, op: Op)
    requires Cached(records) && Tracks(obs, records) && CanDo(records, op)
    ensures Cached(Do(records, op))
    ensures Tracks(Replay(obs, DoDiffs(records, op)), Do(records, op))
    ensures Chained(obs, DoDiffs(records, op))
  {
    if op.Snapshot? {
      SnapshotTracks(obs, records, op.items, op.order);
    } else if !op.CollectGarbage? {
      MarkTracks(obs, records, op);
    }
  }

  function DoAll(records: Records, ops: seq<Op>): Records
    decreases |ops|
  {
    if ops == [] then records else DoAll(Do(records, ops[0]), ops[1..])
  }

  function DoAllDiffs(records: Records, ops: seq<Op>): seq<Diff>
    decreases |ops|
  {
    if ops == [] then [] else DoDiffs(records, ops[0]) + DoAllDiffs(Do(records, ops[0]), ops[1..])
  }

  ghost predicate CanDoAll(records: Records, ops: seq<Op>)
    decreases |ops|
  {
    ops == [] || (CanDo(records, ops[0]) && CanDoAll(Do(records, ops[0]), ops[1..]))
  }

  /**
   * Diff replay: over any run, garbage collection included, the cached state is the derived one and an
   * observer that folds the returned diffs reports the store's runtime state of every backend.
   */
  lemma {:induction false} DiffReplay(obs: Observer, records: Records, ops: seq<Op>)
    requires Cached(records) && Tracks(obs, records) && CanDoAll(records, ops)
    ensures Cached(DoAll(records, ops))
    ensures Chained(obs, DoAllDiffs(records, ops))
    ensures Tracks(Replay(obs, DoAllDiffs(records, ops)), DoAll(records, ops))
    ensures forall b :: Reported(Replay(obs, DoAllDiffs(records, ops)), b) == StateOf(DoAll(records, ops), b)
    decreases |ops|
  {
    if ops != [] {
      var d := DoDiffs(records, ops[0]);
      DoTracks(obs, records, ops[0]);
      DiffReplay(Replay(obs, d), Do(records, ops[0]), ops[1..]);
      ReplayConcat(obs, d, DoAllDiffs(Do(records, ops[0]), ops[1..]));
    }
  }

  // ---------------------------------------------------------------- snapshots, pointwise

  ghost predicate DistinctIds(items: seq<Presence>) {
    forall i, j :: 0 <= i < j < |items| ==> items[i].backendId != items[j].backendId
  }

  /** `items` lists the registry m, in some order. */
  ghost predicate ListsRegistry(items: seq<Presence>, m: map<BackendId, Presence>) {
    && DistinctIds(items)
    && (forall i :: 0 <= i < |items| ==> Lookup(m, items[i].backendId) == Some(items[i]))
    && (forall b :: b in m ==> exists i :: 0 <= i < |items| && items[i].backendId == b)
  }

  function SnapshotRecord(prev: Option<Record>, item: Option<Presence>): Option<Record> {
    match item
    case Some(i) => Some(Shown(prev, i))
    case None => if prev.Some? then Some(Gone(prev.value)) else None
  }

  /** applyRegistrySnapshot on a registry without an order. */
  function ApplyRegistry(records: Records, m: map<BackendId, Presence>): Records {
    map b | b in records.Keys + m.Keys :: SnapshotRecord(Lookup(records, b), Lookup(m, b)).value
  }

  lemma {:induction false} UpsertAllPointwise(records: Records, items: seq<Presence>)
    requires DistinctIds(items)
    ensures UpsertAll(records, items).Keys == records.Keys + Ids(items)
    ensures forall b :: b in records && b !in Ids(items) ==> UpsertAll(records, items)[b] == records[b]
    ensures forall i :: 0 <= i < |items| ==>
              UpsertAll(records, items)[items[i].backendId] == Shown(Lookup(records, items[i].backendId), items[i])
    decreases |items|
  {
    if items != [] {
      var rest := items[1..];
      var records' := Upsert(records, items[0]);
      assert forall i :: 0 <= i < |rest| ==> rest[i] == items[i + 1];
      IdsStep(items);
      UpsertAllPointwise(records', rest);
      assert items[0].backendId !in Ids(rest);
      forall i | 0 <= i < |items|
        ensures UpsertAll(records, items)[items[i].backendId] == Shown(Lookup(records, items[i].backendId), items[i])
      {
        if i > 0 {
          assert items[i] == rest[i - 1];
          assert Lookup(records', items[i].backendId) == Lookup(records, items[i].backendId);
        }
      }
    }
  }

  lemma IdsStep(items: seq<Presence>)
    requires items != []
    ensures Ids(items) == {items[0].backendId} + Ids(items[1..])
  {
  }

  lemma ListedIds(items: seq<Presence>, m: map<BackendId, Presence>)
    requires ListsRegistry(items, m)
    ensures Ids(items) == m.Keys
  {
  }

  /** One record after a snapshot, however the registry is listed. */
  lemma ListedRecord(records: Records, items: seq<Presence>, m: map<BackendId, Presence>, b: BackendId)
    requires ListsRegistry(items, m)
    ensures Lookup(ApplySnapshot(records, items), b) == SnapshotRecord(Lookup(records, b), Lookup(m, b))
  {
    hide Shown, Gone, Ids, UpsertAll;
    var removed := RemoveMissing(records, Ids(items));
    UpsertAllPointwise(removed, items);
    ListedIds(items, m);
    if b in m {
      var i :| 0 <= i < |items| && items[i].backendId == b;
      assert UpsertAll(removed, items)[items[i].backendId] == Shown(Lookup(removed, b), items[i]);
    }
  }

  /** However a registry is listed, the snapshot has the same effect. */
  lemma ListingIrrelevant(records: Records, items: seq<Presence>, m: map<BackendId, Presence>)
    requires ListsRegistry(items, m)
    ensures ApplySnapshot(records, items) == ApplyRegistry(records, m)
  {
    hide ApplySnapshot, ListsRegistry, Shown, Gone;
    forall b ensures Lookup(ApplySnapshot(records, items), b) == Lookup(ApplyRegistry(records, m), b) {
      ListedRecord(records, items, m, b);
    }
    SameLookups(ApplySnapshot(records, items), ApplyRegistry(records, m));
  }

  lemma {:induction false} ShownUpsertsAreSilent(records: Records, items: seq<Presence>)
    requires forall i :: 0 <= i < |items| ==>
               items[i].backendId in records && records[items[i].backendId] == Shown(Some(records[items[i].backendId]), items[i])
    ensures UpsertAll(records, items) == records && UpsertDiffs(records, items) == []
    decreases |items|
  {
    if items != [] {
      assert forall i :: 0 <= i < |items[1..]| ==> items[1..][i] == items[i + 1];
      assert Upsert(records, items[0]) == records;
      ShownUpsertsAreSilent(records, items[1..]);
    }
  }

  lemma {:induction false} SilentRemovals(records: Records, ids: set<BackendId>, order: seq<BackendId>)
    requires forall b :: b in records && b !in ids ==> Gone(records[b]) == records[b]
    ensures RemoveSomeDiffs(records, ids, order) == []
    decreases |order|
  {
    if order != [] {
      var b := order[0];
      if b in records && b !in ids { assert records[b := Gone(records[b])] == records; }
      SilentRemovals(records, ids, order[1..]);
    }
  }

  /** Applying the same snapshot again changes no record and emits no diff. */
  lemma SnapshotIdempotent(records: Records, items: seq<Presence>)
    requires Cached(records) && DistinctIds(items)
    ensures var once := ApplySnapshot(records, items);
            && ApplySnapshot(once, items) == once
            && (forall order :: DoDiffs(once, Snapshot(items, order)) == [])
  {
    var ids := Ids(items);
    var removed := RemoveMissing(records, ids);
    var once := ApplySnapshot(records, items);
    UpsertAllPointwise(removed, items);
    forall b | b in once && b !in ids ensures Gone(once[b]) == once[b] {
      assert once[b] == Gone(records[b]);
    }
    assert RemoveMissing(once, ids) == once;
    forall order ensures RemoveSomeDiffs(once, ids, order) == [] {
      SilentRemovals(once, ids, order);
    }
    forall i | 0 <= i < |items|
      ensures items[i].backendId in once && once[items[i].backendId] == Shown(Some(once[items[i].backendId]), items[i])
    {
      assert once[items[i].backendId] == Shown(Lookup(removed, items[i].backendId), items[i]);
      ShownIsStable(Lookup(removed, items[i].backendId), items[i]);
    }
    ShownUpsertsAreSilent(once, items);
  }

  lemma ShownIsStable(prev: Option<Record>, item: Presence)
    ensures Shown(Some(Shown(prev, item)), item) == Shown(prev, item)
  {
  }

  // ---------------------------------------------------------------- the class

  /** The marking methods leave an unknown backend alone and report at most one diff. */
  class FacadeRegistryStore {
    var records: Records

    constructor ()
      ensures records == map[]
    {
      records := map[];
    }

    method ApplyBootstrap(items: seq<Presence>, subscriptions: set<BackendId>)
      modifies this
      ensures records == Bootstrap(items, subscriptions)
      ensures Cached(records)
    {
      records := map[];
      var i := 0;
      while i < |items|
        invariant 0 <= i <= |items|
        invariant UpsertDefaults(records, items[i..]) == UpsertDefaults(map[], items)
        invariant Cached(records)
      {
        assert items[i..][1..] == items[i + 1..];
        records := records[items[i].backendId := DefaultRecord(items[i])];
        i := i + 1;
      }
      var rest := subscriptions;
      ghost var registered := records;
      while rest != {}
        invariant rest <= subscriptions
        invariant records.Keys == registered.Keys
        invariant forall b :: b in records ==>
                    records[b] == if b in subscriptions - rest
                                  then Updated(registered[b].(subscribed := true, openState := Open)) else registered[b]
        invariant Cached(records)
        decreases rest
      {
        var b :| b in rest;
        if b in records {
          records := records[b := Updated(records[b].(subscribed := true, openState := Open))];
        }
        rest := rest - {b};
      }
    }

    method RemoveRecord(id: BackendId) returns (diffs: seq<Diff>)
      requires id in records
      modifies this
      ensures records == old(records)[id := Gone(old(records)[id])]
      ensures diffs == MakeDiff(id, Some(old(records)[id]), Gone(old(records)[id]), "registry_removed")
    {
      var prev := records[id];
      if prev.runtimeState == Offline || (prev.runtimeState == Failed && prev.presence.None?) {
        assert records[id := prev] == records;
        return [];
      }
      var next := Updated(prev.(presence := None, currentEpoch := None, subscribed := false, dataInitialized := false,
                                openState := if prev.openState.Open? || prev.openState.Opening? then OpenFailed
                                             else prev.openState,
                                capabilities := []));
      diffs := MakeDiff(id, Some(prev), next, "registry_removed");
      records := records[id := next];
    }

    /** The first loop: backends that left the registry. */
    method RemoveMissingRecords(items: seq<Presence>) returns (diffs: seq<Diff>, order: seq<BackendId>)
      modifies this
      ensures Visits(order, old(records).Keys)
      ensures records == RemoveSome(old(records), Ids(items), order)
      ensures diffs == RemoveSomeDiffs(old(records), Ids(items), order)
    {
      hide Gone, MakeDiff;
      var newIds := set i | 0 <= i < |items| :: items[i].backendId;
      order := IterationOrder(records.Keys);
      diffs := [];
      var i := 0;
      while i < |order|
        invariant 0 <= i <= |order|
        invariant records.Keys == old(records).Keys
        invariant RemoveSome(records, newIds, order[i..]) == RemoveSome(old(records), newIds, order)
        invariant diffs + RemoveSomeDiffs(records, newIds, order[i..]) == RemoveSomeDiffs(old(records), newIds, order)
      {
        assert order[i..][0] == order[i] && order[i..][1..] == order[i + 1..];
        if order[i] !in newIds {
          var d := RemoveRecord(order[i]);
          diffs := diffs + d;
        }
        i := i + 1;
      }
    }

    method UpsertRecord(item: Presence) returns (diffs: seq<Diff>)
      modifies this
      ensures records == Upsert(old(records), item)
      ensures diffs == UpsertDiff(old(records), item)
    {
      var id := item.backendId;
      if id !in records {
        var next := Updated(DefaultRecord(item));
        diffs := MakeDiff(id, None, next, "registry_snapshot");
        records := records[id := next];
        return;
      }
      var prev := records[id];
      if prev.currentEpoch == Some(item.epoch) || prev.currentEpoch == None {
        var next := Updated(prev.(presence := Some(item), currentEpoch := Some(item.epoch)));
        diffs := MakeDiff(id, Some(prev), next, "registry_restored");
        records := records[id := next];
      } else {
        var next := Updated(prev.(presence := Some(item), currentEpoch := Some(item.epoch), subscribed := false,
                                  dataInitialized := false,
                                  openState := if prev.openState.Open? then OpenFailed else Unsubscribed,
                                  capabilities := []));
        diffs := MakeDiff(id, Some(prev), next, "epoch_changed");
        records := records[id := next];
      }
    }

    /** `order` is the iteration order of the records map. */
    method ApplyRegistrySnapshot(items: seq<Presence>) returns (diffs: seq<Diff>, order: seq<BackendId>)
      modifies this
      ensures records == ApplySnapshot(old(records), items)
      ensures Visits(order, old(records).Keys)
      ensures diffs == DoDiffs(old(records), Snapshot(items, order))
    {
      hide Upsert, UpsertDiff;
      var removals;
      removals, order := RemoveMissingRecords(items);
      diffs := removals;
      RemovalsComplete(old(records), Ids(items), order);
      ghost var removed := records;
      var i := 0;
      while i < |items|
        invariant 0 <= i <= |items|
        invariant UpsertAll(records, items[i..]) == UpsertAll(removed, items)
        invariant diffs + UpsertDiffs(records, items[i..]) == removals + UpsertDiffs(removed, items)
      {
        assert items[i..][0] == items[i] && items[i..][1..] == items[i + 1..];
        var d := UpsertRecord(items[i]);
        diffs := diffs + d;
        i := i + 1;
      }
    }

    method MarkRecord(op: Op) returns (diffs: seq<Diff>)
      requires !op.Snapshot? && !op.CollectGarbage?
      modifies this
      ensures records == Do(old(records), op)
      ensures diffs == DoDiffs(old(records), op)
    {
      if op.b !in records {
        return [];
      }
      var prev := records[op.b];
      var next: Record;
      match op {
        case MarkSubscribing(_) =>
          next := Updated(prev.(openState := Opening));
        case MarkSubscribed(_, epoch, capabilities) =>
          next := Updated(prev.(subscribed := true, currentEpoch := Some(epoch), openState := Open,
                                capabilities := capabilities, closureReason := None));
        case MarkUnsubscribed(_, reason) =>
          next := Updated(prev.(subscribed := false, dataInitialized := false, openState := Unsubscribed,
                                closureReason := Some(reason), capabilities := []));
        case MarkDataInitialized(_) =>
          next := Updated(prev.(dataInitialized := true));
        case MarkDataReset(_) =>
          next := Updated(prev.(dataInitialized := false));
      }
      records := records[op.b := next];
      diffs := MakeDiff(op.b, Some(prev), next, ChangeReason(op));
    }

    method CollectZombies()
      modifies this
      ensures records == Collect(old(records))
    {
      var rest := records.Keys;
      while rest != {}
        invariant rest <= old(records).Keys
        invariant forall b :: b in records ==> b in old(records) && records[b] == old(records)[b]
        invariant forall b :: b in old(records) && b !in records ==> b !in rest && !(old(records)[b].presence.Some? || old(records)[b].subscribed)
        invariant forall b :: b in records && b !in rest ==> records[b].presence.Some? || records[b].subscribed
        decreases rest
      {
        var id :| id in rest;
        if records[id].presence.None? && !records[id].subscribed {
          records := records - {id};
        }
        rest := rest - {id};
      }
    }
  }
}
