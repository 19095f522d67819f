/** What each operation of the registry store makes of a backend's record, and what a record's runtime state says. */
module RecordStates {
  import opened Options
  import opened Storage
  import opened Gateway
  import opened RegistryStore

  // ---------------------------------------------------------------- what the runtime state says

  predicate Known(records: Records, b: BackendId) {
    b in records && records[b].presence.Some?
  }

  /** Offline without a registration; ready with a subscription and its data; and in between what the opening shows. */
  lemma StateMeans(records: Records, b: BackendId)
    requires Cached(records) && b in records
    ensures var r := records[b];
            && (r.runtimeState == Offline <==> !Known(records, b))
            && (r.runtimeState == Ready <==> Known(records, b) && r.subscribed && r.dataInitialized)
            && (r.runtimeState == Subscribing <==>
                  Known(records, b) && if r.subscribed then !r.dataInitialized else r.openState == OpenState.Opening)
            && (r.runtimeState == Failed <==> Known(records, b) && !r.subscribed && r.openState == OpenFailed)
            && (r.runtimeState == Visible <==>
                  Known(records, b) && !r.subscribed && (r.openState == OpenState.Unsubscribed || r.openState == OpenState.Open))
  {
  }

  // ---------------------------------------------------------------- snapshots

  /** A snapshot leaves a registered backend registered, at the registered epoch. */
  lemma ListedMeans(records: Records, items: seq<Presence>, order: seq<BackendId>, m: map<BackendId, Presence>, b: BackendId)
    requires Cached(records) && ListsRegistry(items, m) && b in m
    ensures var records' := Do(records, Snapshot(items, order));
            && Known(records', b) && records'[b].presence == Some(m[b]) && records'[b].currentEpoch == Some(m[b].epoch)
            && if b !in records then
                 records'[b] == Record(Some(m[b]), Some(m[b].epoch), false, false, None, Visible, OpenState.Unsubscribed, [])
               else if records[b].currentEpoch.None? || records[b].currentEpoch == Some(m[b].epoch) then
                 SameButPresence(records[b], records'[b])
               else
                 && !records'[b].subscribed && !records'[b].dataInitialized && records'[b].capabilities == []
                 && records'[b].closureReason == records[b].closureReason
                 && records'[b].openState == (if records[b].openState.Open? then OpenFailed else OpenState.Unsubscribed)
                 && records'[b].runtimeState == (if records[b].openState.Open? then Failed else Visible)
  {
    hide ListsRegistry, ApplySnapshot;
    ListedRecord(records, items, m, b);
  }

  predicate SameButPresence(r: Record, r': Record) {
    && r'.subscribed == r.subscribed && r'.dataInitialized == r.dataInitialized && r'.capabilities == r.capabilities
    && r'.openState == r.openState && r'.closureReason == r.closureReason
  }

  /** A snapshot takes any other backend offline, once; an opening it interrupts has failed. */
  lemma UnlistedMeans(records: Records, items: seq<Presence>, order: seq<BackendId>, m: map<BackendId, Presence>, b: BackendId)
    requires Cached(records) && ListsRegistry(items, m) && b !in m
    ensures var records' := Do(records, Snapshot(items, order));
            && (b in records' <==> b in records)
            && (b in records && !Known(records, b) ==> records'[b] == records[b])
            && (Known(records, b) ==>
                  && records'[b].presence == None && records'[b].currentEpoch == None && records'[b].runtimeState == Offline
                  && !records'[b].subscribed && !records'[b].dataInitialized && records'[b].capabilities == []
                  && records'[b].openState ==
                     (if records[b].openState.Open? || records[b].openState.Opening? then OpenFailed else records[b].openState))
  {
    hide ListsRegistry, ApplySnapshot;
    ListedRecord(records, items, m, b);
    if b in records { StateMeans(records, b); }
  }

  /** A backend that was open, or being opened, when it left the registry shows as failed when it is back. */
  lemma ReturnsAsFailed(records: Records, items: seq<Presence>, order: seq<BackendId>, without: map<BackendId, Presence>,
                        items': seq<Presence>, order': seq<BackendId>, m: map<BackendId, Presence>, b: BackendId)
    requires Cached(records) && Known(records, b) && (records[b].openState.Open? || records[b].openState.Opening?)
    requires ListsRegistry(items, without) && ListsRegistry(items', m) && b !in without && b in m
    ensures var left := Do(records, Snapshot(items, order));
            && StateOf(left, b) == Offline && StateOf(Do(left, Snapshot(items', order')), b) == Failed
  {
    hide ListsRegistry, Do;
    var left := Do(records, Snapshot(items, order));
    UnlistedMeans(records, items, order, without, b);
    DoCached(records, Snapshot(items, order));
    ListedMeans(left, items', order', m, b);
    DoCached(left, Snapshot(items', order'));
    StateMeans(Do(left, Snapshot(items', order')), b);
  }

  lemma DoCached(records: Records, op: Op)
    requires Cached(records)
    ensures Cached(Do(records, op))
  {
    match op
    case Snapshot(items, _) =>
      RemoveMissingCached(records, Ids(items));
      UpsertAllCached(RemoveMissing(records, Ids(items)), items);
    case CollectGarbage =>
    case _ => if op.b in records { ChangeIsCached(records[op.b], op); }
  }

  // ---------------------------------------------------------------- marks

  /** A mark changes the record of its backend alone, keeps its registration, and creates none. */
  lemma MarkMeans(records: Records, op: Op, b: BackendId)
    requires !op.Snapshot? && !op.CollectGarbage?
    ensures var records' := Do(records, op);
            && (b in records' <==> b in records)
            && (b in records && op.b != b ==> records'[b] == records[b])
            && (b in records ==> records'[b].presence == records[b].presence)
            && (b in records && op.b == b ==>
                  var r, r' := records[b], records'[b];
                  match op
                  case MarkSubscribing(_) =>
                    r'.openState == OpenState.Opening && SameSubscription(r, r') && r'.closureReason == r.closureReason
                  case MarkSubscribed(_, epoch, capabilities) =>
                    && r'.subscribed && r'.openState == OpenState.Open && r'.currentEpoch == Some(epoch)
                    && r'.capabilities == capabilities && r'.closureReason == None && r'.dataInitialized == r.dataInitialized
                  case MarkUnsubscribed(_, reason) =>
                    && !r'.subscribed && !r'.dataInitialized && r'.openState == OpenState.Unsubscribed
                    && r'.capabilities == [] && r'.closureReason == Some(reason) && r'.currentEpoch == r.currentEpoch
                  case MarkDataInitialized(_) => r'.dataInitialized && SameOpening(r, r')
                  case MarkDataReset(_) => !r'.dataInitialized && SameOpening(r, r'))
  {
  }

  predicate SameSubscription(r: Record, r': Record) {
    && r'.subscribed == r.subscribed && r'.currentEpoch == r.currentEpoch && r'.capabilities == r.capabilities
    && r'.dataInitialized == r.dataInitialized
  }

  predicate SameOpening(r: Record, r': Record) {
    && r'.subscribed == r.subscribed && r'.currentEpoch == r.currentEpoch && r'.capabilities == r.capabilities
    && r'.openState == r.openState && r'.closureReason == r.closureReason
  }

  /** Exactly the records that are neither registered nor subscribed go; the others stay as they are. */
  lemma CollectMeans(records: Records, b: BackendId)
    ensures var records' := Do(records, CollectGarbage);
            && (b in records' <==> b in records && (Known(records, b) || records[b].subscribed))
            && (b in records' ==> records'[b] == records[b])
  {
  }

  /** A bootstrap lists every registered backend, waiting for its data where it is subscribed and visible elsewhere. */
  lemma {:induction false} BootstrapMeans(items: seq<Presence>, m: map<BackendId, Presence>, subscriptions: set<BackendId>,
                                          b: BackendId)
    requires ListsRegistry(items, m)
    ensures var records := Bootstrap(items, subscriptions);
            && (b in records <==> b in m)
            && (b in m ==>
                  && records[b].presence == Some(m[b]) && records[b].currentEpoch == Some(m[b].epoch)
                  && (records[b].subscribed <==> b in subscriptions)
                  && records[b].openState == (if b in subscriptions then OpenState.Open else OpenState.Unsubscribed)
                  && records[b].runtimeState == (if b in subscriptions then Subscribing else Visible)
                  && !records[b].dataInitialized && records[b].capabilities == [] && records[b].closureReason == None)
  {
    DefaultsPointwise(map[], items);
    if b in m { var i :| 0 <= i < |items| && items[i].backendId == b; }
  }

  lemma {:induction false} DefaultsPointwise(records: Records, items: seq<Presence>)
    requires DistinctIds(items)
    ensures UpsertDefaults(records, items).Keys == records.Keys + Ids(items)
    ensures forall b :: b in records && b !in Ids(items) ==> UpsertDefaults(records, items)[b] == records[b]
    ensures forall i :: 0 <= i < |items| ==> UpsertDefaults(records, items)[items[i].backendId] == DefaultRecord(items[i])
    decreases |items|
  {
    if items != [] {
      var rest := items[1..];
      assert forall i :: 0 <= i < |rest| ==> rest[i] == items[i + 1];
      IdsStep(items);
      DefaultsPointwise(records[items[0].backendId := DefaultRecord(items[0])], rest);
      assert items[0].backendId !in Ids(rest);
    }
  }

  // ---------------------------------------------------------------- capabilities over runs

  /** What the last confirmation of b in a run granted. */
  ghost function LastGrant(ops: seq<Op>, b: BackendId): Option<(Epoch, seq<string>)>
    decreases |ops|
  {
    if ops == [] then None
    else if ops[|ops| - 1].MarkSubscribed? && ops[|ops| - 1].b == b
         then Some((ops[|ops| - 1].epoch, ops[|ops| - 1].capabilities))
    else LastGrant(ops[..|ops| - 1], b)
  }

  /** The record, if it is subscribed, carries what was granted; if not, it carries no capabilities. */
  predicate Carries(records: Records, b: BackendId, grant: Option<(Epoch, seq<string>)>) {
    b in records ==>
      if records[b].subscribed
      then grant.Some? && records[b].currentEpoch == Some(grant.value.0) && records[b].capabilities == grant.value.1
      else records[b].capabilities == []
  }

  ghost predicate Listing(op: Op) {
    op.Snapshot? ==> DistinctIds(op.items)
  }

  /** One record after a snapshot. */
  lemma SnapshotAt(records: Records, items: seq<Presence>, b: BackendId)
    requires DistinctIds(items)
    ensures exists item: Option<Presence> :: (item.Some? ==> item.value.backendId == b) &&
              Lookup(ApplySnapshot(records, items), b) == SnapshotRecord(Lookup(records, b), item)
  {
    hide Shown, Gone;
    var removed := RemoveMissing(records, Ids(items));
    UpsertAllPointwise(removed, items);
    if b in Ids(items) {
      var i :| 0 <= i < |items| && items[i].backendId == b;
      assert UpsertAll(removed, items)[items[i].backendId] == Shown(Lookup(removed, b), items[i]);
      assert Lookup(ApplySnapshot(records, items), b) == SnapshotRecord(Lookup(records, b), Some(items[i]));
    } else {
      assert Lookup(ApplySnapshot(records, items), b) == SnapshotRecord(Lookup(records, b), None);
    }
  }

  lemma StepCarries(records: Records, op: Op, b: BackendId, grant: Option<(Epoch, seq<string>)>)
    requires Carries(records, b, grant) && Listing(op)
    ensures Carries(Do(records, op), b, if op.MarkSubscribed? && op.b == b then Some((op.epoch, op.capabilities)) else grant)
  {
    if op.Snapshot? {
      hide ApplySnapshot, DistinctIds;
      SnapshotAt(records, op.items, b);
      var item: Option<Presence> :|
        Lookup(ApplySnapshot(records, op.items), b) == SnapshotRecord(Lookup(records, b), item);
    }
  }

  /**
   * Over any run from the empty store, a subscribed backend's epoch and capabilities are those of the last confirmation,
   * and any other backend has none.
   */
  lemma {:induction false} CapabilitiesGranted(ops: seq<Op>, b: BackendId)
    requires forall i :: 0 <= i < |ops| ==> Listing(ops[i])
    ensures Carries(DoAll(map[], ops), b, LastGrant(ops, b))
    decreases |ops|
  {
    hide Do, Listing;
    if ops != [] {
      var n := |ops| - 1;
      CapabilitiesGranted(ops[..n], b);
      DoAllLast(map[], ops);
      StepCarries(DoAll(map[], ops[..n]), ops[n], b, LastGrant(ops[..n], b));
    }
  }

  lemma {:induction false} DoAllLast(records: Records, ops: seq<Op>)
    requires ops != []
    ensures DoAll(records, ops) == Do(DoAll(records, ops[..|ops| - 1]), ops[|ops| - 1])
    decreases |ops|
  {
    hide Do;
    var n := |ops| - 1;
    if n == 0 {
      assert ops[1..] == [] && ops[..0] == [];
    } else {
      DoAllLast(Do(records, ops[0]), ops[1..]);
      assert ops[1..][..n - 1] == ops[..n][1..];
    }
  }

  // ---------------------------------------------------------------- why a diff is reported

  /** Why a snapshot changes a backend's state. */
  function Reason(records: Records, m: map<BackendId, Presence>, b: BackendId): string {
    if b !in m then "registry_removed"
    else if b !in records then "registry_snapshot"
    else if records[b].currentEpoch.None? || records[b].currentEpoch == Some(m[b].epoch) then "registry_restored"
    else "epoch_changed"
  }

  lemma {:induction false} RemovalReasons(records: Records, ids: set<BackendId>, order: seq<BackendId>, d: Diff)
    requires d in RemoveSomeDiffs(records, ids, order)
    ensures d.backendId !in ids && d.reason == "registry_removed"
    decreases |order|
  {
    hide Gone;
    var b := order[0];
    if b in records && b !in ids {
      var records' := records[b := Gone(records[b])];
      if d in RemoveSomeDiffs(records', ids, order[1..]) { RemovalReasons(records', ids, order[1..], d); }
    } else {
      RemovalReasons(records, ids, order[1..], d);
    }
  }

  lemma {:induction false} UpsertReasons(records: Records, items: seq<Presence>, d: Diff) returns (i: nat)
    requires DistinctIds(items) && d in UpsertDiffs(records, items)
    ensures i < |items| && d.backendId == items[i].backendId
    ensures d.reason == ShownReason(Lookup(records, d.backendId), items[i])
    decreases |items|
  {
    hide Shown, ShownReason;
    var records' := Upsert(records, items[0]);
    if d in UpsertDiffs(records', items[1..]) {
      var j := UpsertReasons(records', items[1..], d);
      i := j + 1;
      assert Lookup(records', d.backendId) == Lookup(records, d.backendId);
    } else {
      i := 0;
    }
  }

  /** Each diff of a snapshot says why its backend's state changed. */
  lemma SnapshotReasons(records: Records, items: seq<Presence>, order: seq<BackendId>, m: map<BackendId, Presence>, d: Diff)
    requires ListsRegistry(items, m) && d in DoDiffs(records, Snapshot(items, order))
    ensures d.reason == Reason(records, m, d.backendId)
  {
    var ids := Ids(items);
    ListedIds(items, m);
    if d in RemoveSomeDiffs(records, ids, order) {
      RemovalReasons(records, ids, order, d);
    } else {
      var i := UpsertReasons(RemoveMissing(records, ids), items, d);
      assert d.backendId in ids;
    }
  }

  /** A mark reports a change of its own backend, for its own reason; collecting reports nothing. */
  lemma MarkReasons(records: Records, op: Op, d: Diff)
    requires !op.Snapshot? && d in DoDiffs(records, op)
    ensures !op.CollectGarbage? && d.backendId == op.b
    ensures d.reason == match op
                        case MarkSubscribing(_) => "subscribing"
                        case MarkSubscribed(_, _, _) => "subscribed"
                        case MarkUnsubscribed(_, reason) => reason
                        case MarkDataInitialized(_) => "data_initialized"
                        case _ => "data_reset"
  {
  }
}
