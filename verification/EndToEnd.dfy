/**
 * One client connected to the gateway by two first-in-first-out queues.  The downlink is the
 * connection's log, of which the client has read a prefix; the uplink is a queue of requests.
 */
module EndToEnd {
  import opened Options
  import opened Storage
  import opened Gateway
  import opened GatewayLogs
  import opened Client
  import Store = RegistryStore

  // ---------------------------------------------------------------- what is in flight

  predicate ClosesAt(log: seq<Msg>, j: nat, b: BackendId)
    requires j < |log|
  {
    log[j].BackendUnsubscribed? && log[j].backendId == b
  }

  predicate OpensAt(log: seq<Msg>, j: nat, b: BackendId)
    requires j < |log|
  {
    log[j].BackendSubscribed? && log[j].backendId == b
  }

  ghost predicate PendingClose(log: seq<Msg>, k: nat, b: BackendId) {
    exists j :: k <= j < |log| && ClosesAt(log, j, b)
  }

  ghost predicate PendingOpen(log: seq<Msg>, k: nat, b: BackendId) {
    exists j :: k <= j < |log| && OpensAt(log, j, b)
  }

  ghost predicate PendingSnapshot(log: seq<Msg>, k: nat) {
    exists j :: k <= j < |log| && log[j].RegistrySnapshot?
  }

  /** A snapshot without b is on its way. */
  ghost predicate PendingLoss(log: seq<Msg>, k: nat, b: BackendId) {
    exists j :: k <= j < |log| && log[j].RegistrySnapshot? && b !in log[j].items
  }

  // ---------------------------------------------------------------- the client against its log

  /** The cached state is the derived one, and only a subscribed record is open. */
  ghost predicate WellKept(r: Store.Record) {
    r.runtimeState == Store.Derive(r) && (r.openState.Open? ==> r.subscribed)
  }

  predicate IsClosed(r: Store.Record) {
    r.openState.Unsubscribed? || r.openState.OpenFailed?
  }

  /** A record shows its backend's registry entry; without one it is absent and closed. */
  ghost predicate RecordMirrors(r: Option<Store.Record>, item: Option<Presence>) {
    match item
    case Some(presence) =>
      && r.Some? && WellKept(r.value)
      && r.value.presence == item && r.value.currentEpoch == Some(presence.epoch)
    case None =>
      r.None? ||
      (&& WellKept(r.value)
       && r.value.presence == None && r.value.currentEpoch == None && !r.value.subscribed && IsClosed(r.value))
  }

  ghost predicate Mirrors(records: Store.Records, registry: map<BackendId, Presence>) {
    forall b :: RecordMirrors(Lookup(records, b), Lookup(registry, b))
  }

  /** A subscribed record is believed at its own epoch. */
  ghost predicate Believed(records: Store.Records, read: seq<Msg>) {
    forall b :: IsSubscribed(records, b) ==> Belief(read, b) == records[b].currentEpoch && records[b].currentEpoch.Some?
  }

  /** A believed subscription is in the records, unless the client has asked to end it. */
  ghost predicate Recorded(records: Store.Records, log: seq<Msg>, k: nat, up: seq<Request>)
    requires k <= |log|
  {
    forall b :: Belief(log[..k], b).Some? ==>
      IsSubscribed(records, b) || Unsub(b) in up || PendingClose(log, k, b)
  }

  ghost predicate Core(records: Store.Records, log: seq<Msg>, k: nat, up: seq<Request>) {
    && 0 < k <= |log|
    && Mirrors(records, LogRegistry(log[..k]))
    && Believed(records, log[..k])
    && Recorded(records, log, k, up)
  }

  /** A desired, visible backend that is not subscribed has something on its way that will fix it. */
  ghost predicate Opening(r: Store.Record, log: seq<Msg>, k: nat, up: seq<Request>, b: BackendId) {
    !r.subscribed ==>
      || Sub(b) in up
      || PendingOpen(log, k, b)
      || (if r.openState.Opening? then PendingLoss(log, k, b) else PendingSnapshot(log, k))
  }

  /** Every unsubscribe on its way to the client is followed by what reopens a desired backend. */
  ghost predicate Reopening(log: seq<Msg>, k: nat, up: seq<Request>, b: BackendId) {
    forall j :: k <= j < |log| && ClosesAt(log, j, b) && b in LogRegistry(log[..j]) ==>
      Sub(b) in up || PendingOpen(log, j + 1, b) || PendingSnapshot(log, j + 1)
  }

  /** Every unsubscribe on its way to the gateway is followed by a subscribe. */
  ghost predicate Resubscribing(up: seq<Request>, b: BackendId) {
    forall i :: 0 <= i < |up| && up[i] == Unsub(b) ==> exists i' :: i < i' < |up| && up[i'] == Sub(b)
  }

  ghost predicate Tended(r: Store.Record, log: seq<Msg>, k: nat, up: seq<Request>, b: BackendId) {
    Opening(r, log, k, up, b) && Reopening(log, k, up, b) && Resubscribing(up, b)
  }

  ghost predicate Progress(c: Client, log: seq<Msg>, k: nat, up: seq<Request>) {
    forall b :: b in c.desired && Present(c.records, b) ==> Tended(c.records[b], log, k, up, b)
  }

  ghost predicate ClientOk(c: Client, log: seq<Msg>, k: nat, up: seq<Request>) {
    Core(c.records, log, k, up) && Progress(c, log, k, up)
  }

  // ---------------------------------------------------------------- reading one message

  /** A log fit to be read: what GatewayLogs.GoodLog and the settled registry give the reader. */
  ghost predicate Readable(log: seq<Msg>) {
    && (forall j :: 0 < j < |log| ==> !log[j].PeerReady?)
    && (forall j :: 0 < j < |log| && log[j].RegistrySnapshot? ==> Consistent(log[..j], log[j].items))
    && (forall j :: 0 < j < |log| && log[j].BackendSubscribed? ==>
          log[j].backendId in LogRegistry(log[..j]) && LogRegistry(log[..j])[log[j].backendId].epoch == log[j].epoch)
  }

  lemma {:induction false} GoodIsReadable(log: seq<Msg>, granted: map<Epoch, (BackendId, PeerId)>)
    requires GoodLog(log, granted)
    ensures Readable(log)
  {
    forall j | 0 < j < |log|
      ensures !log[j].PeerReady?
      ensures log[j].RegistrySnapshot? ==> Consistent(log[..j], log[j].items)
      ensures log[j].BackendSubscribed? ==>
                log[j].backendId in LogRegistry(log[..j]) && LogRegistry(log[..j])[log[j].backendId].epoch == log[j].epoch
    {
      GoodPrefix(log, granted, j);
    }
  }

  lemma ReadOne(log: seq<Msg>, k: nat)
    requires k < |log|
    ensures log[..k + 1] == log[..k] + [log[k]]
    ensures forall b :: Belief(log[..k + 1], b) == BeliefAfter(Belief(log[..k], b), log[k], b)
    ensures LogRegistry(log[..k + 1]) == if log[k].RegistrySnapshot? || log[k].PeerReady? then log[k].items else LogRegistry(log[..k])
  {
  }

  lemma RecordSnapshot(r: Option<Store.Record>, before: Option<Presence>, item: Option<Presence>)
    requires RecordMirrors(r, before)
    ensures RecordMirrors(Store.SnapshotRecord(r, item), item)
    ensures r.Some? && r.value.subscribed && before.Some? && item.Some? && item.value.epoch == before.value.epoch ==>
              Store.SnapshotRecord(r, item).value.subscribed
    ensures Store.SnapshotRecord(r, item).Some? && Store.SnapshotRecord(r, item).value.subscribed ==>
              r.Some? && r.value.subscribed && r.value.currentEpoch == Store.SnapshotRecord(r, item).value.currentEpoch
    ensures item.Some? && !IsClosed(Store.SnapshotRecord(r, item).value) ==>
              r.Some? && before.Some? && r.value.openState == Store.SnapshotRecord(r, item).value.openState
              && r.value.subscribed == Store.SnapshotRecord(r, item).value.subscribed
  {
  }

  lemma ApplyRegistryAt(records: Store.Records, items: map<BackendId, Presence>, b: BackendId)
    ensures Lookup(Store.ApplyRegistry(records, items), b) == Store.SnapshotRecord(Lookup(records, b), Lookup(items, b))
  {
  }

  lemma MirrorsSnapshot(records: Store.Records, registry: map<BackendId, Presence>, items: map<BackendId, Presence>)
    requires Mirrors(records, registry)
    ensures Mirrors(Store.ApplyRegistry(records, items), items)
  {
    forall b ensures RecordMirrors(Lookup(Store.ApplyRegistry(records, items), b), Lookup(items, b)) {
      ApplyRegistryAt(records, items, b);
      RecordSnapshot(Lookup(records, b), Lookup(registry, b), Lookup(items, b));
    }
  }

  lemma MirrorsMark(records: Store.Records, registry: map<BackendId, Presence>, b: BackendId, next: Store.Record)
    requires Mirrors(records, registry)
    requires RecordMirrors(Some(next), Lookup(registry, b))
    ensures Mirrors(records[b := next], registry)
  {
  }

  // ---------------------------------------------------------------- the core, one message at a time

  lemma CloseIsLater(log: seq<Msg>, k: nat, b: BackendId)
    requires k < |log| && PendingClose(log, k, b) && !ClosesAt(log, k, b)
    ensures PendingClose(log, k + 1, b)
  {
  }

  lemma SnapshotKeepsSubscription(records: Store.Records, registry: map<BackendId, Presence>, read: seq<Msg>,
                                  items: map<BackendId, Presence>, b: BackendId)
    requires Mirrors(records, registry) && Believed(records, read) && Consistent(read, items)
    ensures IsSubscribed(records, b) <==> IsSubscribed(Store.ApplyRegistry(records, items), b)
    ensures IsSubscribed(records, b) ==> Store.ApplyRegistry(records, items)[b].currentEpoch == records[b].currentEpoch
  {
  }

  /** Only what a message does to its own record and to the reader's belief matters to the core. */
  lemma ConsumeCoreFrom(records: Store.Records, records': Store.Records, log: seq<Msg>, k: nat, up: seq<Request>)
    requires Core(records, log, k, up) && k < |log|
    requires Mirrors(records', LogRegistry(log[..k + 1]))
    requires forall b :: IsSubscribed(records', b) ==>
               records'[b].currentEpoch.Some? && BeliefAfter(Belief(log[..k], b), log[k], b) == records'[b].currentEpoch
    requires forall b :: BeliefAfter(Belief(log[..k], b), log[k], b).Some? && !IsSubscribed(records', b) ==>
               Belief(log[..k], b).Some? && !IsSubscribed(records, b) && !ClosesAt(log, k, b)
    ensures Core(records', log, k + 1, up)
  {
    hide Mirrors, BeliefAfter, ClosesAt, LogRegistry;
    ReadOne(log, k);
    forall b | Belief(log[..k + 1], b).Some?
      ensures IsSubscribed(records', b) || Unsub(b) in up || PendingClose(log, k + 1, b)
    {
      if !IsSubscribed(records', b) && Unsub(b) !in up { CloseIsLater(log, k, b); }
    }
  }

  lemma ConsumeSnapshotCore(records: Store.Records, log: seq<Msg>, k: nat, up: seq<Request>)
    requires Core(records, log, k, up) && Readable(log) && k < |log| && log[k].RegistrySnapshot?
    ensures Core(Store.ApplyRegistry(records, log[k].items), log, k + 1, up)
  {
    hide Readable, Consistent, RecordMirrors, Recorded, Store.ApplyRegistry;
    var items := log[k].items;
    var registry := LogRegistry(log[..k]);
    var records' := Store.ApplyRegistry(records, items);
    assert Consistent(log[..k], items) by { ReadableSnapshot(log, k); }
    ReadOne(log, k);
    MirrorsSnapshot(records, registry, items);
    forall b ensures IsSubscribed(records, b) <==> IsSubscribed(records', b)
             ensures IsSubscribed(records, b) ==> records'[b].currentEpoch == records[b].currentEpoch
    {
      SnapshotKeepsSubscription(records, registry, log[..k], items, b);
    }
    hide Mirrors;
    ConsumeCoreFrom(records, records', log, k, up);
  }

  lemma ReadableSnapshot(log: seq<Msg>, k: nat)
    requires Readable(log) && 0 < k < |log| && log[k].RegistrySnapshot?
    ensures Consistent(log[..k], log[k].items)
  {
  }

  lemma ConsumeSubscribedCore(records: Store.Records, log: seq<Msg>, k: nat, up: seq<Request>)
    requires Core(records, log, k, up) && Readable(log) && k < |log| && log[k].BackendSubscribed?
    ensures Core(Absorb(records, log[k]), log, k + 1, up)
    ensures IsSubscribed(Absorb(records, log[k]), log[k].backendId)
  {
    hide Consistent, Recorded;
    var b := log[k].backendId;
    var registry := LogRegistry(log[..k]);
    ReadOne(log, k);
    assert RecordMirrors(Lookup(records, b), Lookup(registry, b));
    var next := Store.Confirm(records[b], log[k].epoch, log[k].capabilities);
    assert Absorb(records, log[k]) == records[b := next];
    MirrorsMark(records, registry, b, next);
    hide Mirrors;
    ConsumeCoreFrom(records, records[b := next], log, k, up);
  }

  lemma ConsumeUnsubscribedCore(records: Store.Records, log: seq<Msg>, k: nat, up: seq<Request>)
    requires Core(records, log, k, up) && Readable(log) && k < |log| && log[k].BackendUnsubscribed?
    ensures Core(Absorb(records, log[k]), log, k + 1, up)
  {
    hide Consistent, Recorded, Readable;
    var b := log[k].backendId;
    var registry := LogRegistry(log[..k]);
    var records' := Absorb(records, log[k]);
    ReadOne(log, k);
    if b in records {
      assert RecordMirrors(Lookup(records, b), Lookup(registry, b));
      MirrorsMark(records, registry, b, records'[b]);
    }
    hide Mirrors;
    ConsumeCoreFrom(records, records', log, k, up);
  }

  lemma ConsumeDataCore(records: Store.Records, log: seq<Msg>, k: nat, up: seq<Request>)
    requires Core(records, log, k, up) && Readable(log) && k < |log| && log[k].Relayed?
    ensures Core(Absorb(records, log[k]), log, k + 1, up)
  {
    hide Consistent, Recorded, Readable;
    var b := log[k].backendId;
    var registry := LogRegistry(log[..k]);
    var records' := Absorb(records, log[k]);
    ReadOne(log, k);
    if b in records {
      assert RecordMirrors(Lookup(records, b), Lookup(registry, b));
      MirrorsMark(records, registry, b, records'[b]);
    }
    hide Mirrors;
    ConsumeCoreFrom(records, records', log, k, up);
  }

  /** Reading one message keeps the core. */
  lemma ConsumeCore(records: Store.Records, log: seq<Msg>, k: nat, up: seq<Request>)
    requires Core(records, log, k, up) && Readable(log) && k < |log|
    ensures Core(Absorb(records, log[k]), log, k + 1, up)
  {
    hide Mirrors, Believed, Recorded, Consistent;
    match log[k]
    case RegistrySnapshot(_) => ConsumeSnapshotCore(records, log, k, up);
    case BackendSubscribed(_, _, _) => ConsumeSubscribedCore(records, log, k, up);
    case BackendUnsubscribed(_, _) => ConsumeUnsubscribedCore(records, log, k, up);
    case Relayed(_, _, _, _) => ConsumeDataCore(records, log, k, up);
    case _ =>
      ReadOne(log, k);
      ConsumeOtherCore(records, log, k, up);
  }

  lemma ConsumeOtherCore(records: Store.Records, log: seq<Msg>, k: nat, up: seq<Request>)
    requires Core(records, log, k, up) && k < |log|
    requires !log[k].RegistrySnapshot? && !log[k].PeerReady? && !log[k].BackendSubscribed? && !log[k].BackendUnsubscribed?
    ensures Core(records, log, k + 1, up)
  {
    hide Mirrors, Recorded;
    ReadOne(log, k);
    ConsumeCoreFrom(records, records, log, k, up);
  }

  // ---------------------------------------------------------------- progress, one message at a time

  lemma SubAllRequests(up: seq<Request>, order: seq<BackendId>, b: BackendId)
    ensures Sub(b) in up ==> Sub(b) in up + SubAll(order)
    ensures b in order ==> Sub(b) in up + SubAll(order)
    ensures Unsub(b) in up ==> Unsub(b) in up + SubAll(order)
    ensures Resubscribing(up, b) || b in order ==> Resubscribing(up + SubAll(order), b)
  {
    var up' := up + SubAll(order);
    if b in order {
      var n :| 0 <= n < |order| && order[n] == b;
      assert up'[|up| + n] == Sub(b);
    }
    if Resubscribing(up, b) && b !in order {
      forall i | 0 <= i < |up'| && up'[i] == Unsub(b) ensures exists i' :: i < i' < |up'| && up'[i'] == Sub(b) {
        var i' :| i < i' < |up| && up[i'] == Sub(b);
        assert up'[i'] == Sub(b);
      }
    }
  }

  lemma OpenIsLater(log: seq<Msg>, k: nat, b: BackendId)
    requires k < |log| && PendingOpen(log, k, b) && !OpensAt(log, k, b)
    ensures PendingOpen(log, k + 1, b)
  {
  }

  lemma SnapshotIsLater(log: seq<Msg>, k: nat)
    requires k < |log| && PendingSnapshot(log, k) && !log[k].RegistrySnapshot?
    ensures PendingSnapshot(log, k + 1)
  {
  }

  lemma LossIsLater(log: seq<Msg>, k: nat, b: BackendId)
    requires k < |log| && PendingLoss(log, k, b) && !(log[k].RegistrySnapshot? && b !in log[k].items)
    ensures PendingLoss(log, k + 1, b)
  {
  }

  /** A record that a message leaves as open as it was stays tended to. */
  lemma StillTended(r: Store.Record, r': Store.Record, log: seq<Msg>, k: nat, up: seq<Request>, order: seq<BackendId>,
                    b: BackendId)
    requires k < |log| && Tended(r, log, k, up, b)
    requires r'.openState == r.openState && r'.subscribed == r.subscribed
    requires !OpensAt(log, k, b)
    requires log[k].RegistrySnapshot? ==> b in log[k].items && (r.subscribed || r.openState.Opening?)
    ensures Tended(r', log, k + 1, up + SubAll(order), b)
  {
    hide Resubscribing, PendingOpen, PendingSnapshot, PendingLoss, OpensAt, ClosesAt, SubAll;
    SubAllRequests(up, order, b);
    if !r.subscribed && Sub(b) !in up {
      if PendingOpen(log, k, b) { OpenIsLater(log, k, b); }
      else if r.openState.Opening? { LossIsLater(log, k, b); }
      else { SnapshotIsLater(log, k); }
    }
  }

  lemma Reopens(r: Store.Record, log: seq<Msg>, k: nat, up: seq<Request>, order: seq<BackendId>, b: BackendId)
    requires b in order
    ensures Tended(r, log, k, up + SubAll(order), b)
  {
    SubAllRequests(up, order, b);
  }

  // ---------------------------------------------------------------- reading one message, in full

  ghost predicate ReadsInOrder(c: Client, m: Msg, order: seq<BackendId>) {
    Visits(order, Reopened(c, m))
  }

  lemma ReadSnapshotTended(c: Client, log: seq<Msg>, k: nat, up: seq<Request>, order: seq<BackendId>, b: BackendId)
    requires ClientOk(c, log, k, up) && k < |log| && log[k].RegistrySnapshot? && ReadsInOrder(c, log[k], order)
    requires b in c.desired && Present(Handle(c, log[k]).records, b)
    ensures Tended(Handle(c, log[k]).records[b], log, k + 1, up + SubAll(order), b)
  {
    hide Tended, Believed, Recorded, Mirrors, PendingOpen;
    var items := log[k].items;
    var registry := LogRegistry(log[..k]);
    var absorbed := Absorb(c.records, log[k]);
    var r' := Handle(c, log[k]).records[b];
    if b in Reopened(c, log[k]) {
      Reopens(r', log, k + 1, up, order, b);
    } else {
      ApplyRegistryAt(c.records, items, b);
      MirrorsAt(c.records, registry, b);
      RecordSnapshot(Lookup(c.records, b), Lookup(registry, b), Lookup(items, b));
      assert r' == absorbed[b];
      assert b in items by { MirrorsSnapshot(c.records, registry, items); MirrorsAt(absorbed, items, b); }
      StillTended(c.records[b], r', log, k, up, order, b);
    }
  }

  lemma MirrorsAt(records: Store.Records, registry: map<BackendId, Presence>, b: BackendId)
    requires Mirrors(records, registry)
    ensures RecordMirrors(Lookup(records, b), Lookup(registry, b))
  {
  }

  lemma ReadOtherTended(c: Client, log: seq<Msg>, k: nat, up: seq<Request>, b: BackendId)
    requires ClientOk(c, log, k, up) && Readable(log) && k < |log| && !log[k].RegistrySnapshot?
    requires b in c.desired && Present(Absorb(c.records, log[k]), b)
    ensures Tended(Absorb(c.records, log[k])[b], log, k + 1, up, b)
  {
    hide Believed, Recorded, Mirrors, PendingOpen, PendingLoss, PendingSnapshot, Resubscribing, Consistent, Belief;
    var r' := Absorb(c.records, log[k])[b];
    assert Present(c.records, b) && Tended(c.records[b], log, k, up, b);
    if OpensAt(log, k, b) {
      assert r'.subscribed;
    } else if ClosesAt(log, k, b) {
      MirrorsAt(c.records, LogRegistry(log[..k]), b);
    } else {
      StillTended(c.records[b], r', log, k, up, [], b);
      assert up + SubAll([]) == up;
    }
  }

  lemma ReopenCore(records: Store.Records, log: seq<Msg>, k: nat, up: seq<Request>, backends: set<BackendId>,
                   more: seq<Request>)
    requires Core(records, log, k, up) && forall b :: b in backends ==> Present(records, b)
    ensures Core(Reopen(records, backends), log, k, up + more)
  {
  }

  /** Reading one message, the reopening it may start included, keeps the client in order. */
  lemma ReadKeepsClient(c: Client, log: seq<Msg>, k: nat, up: seq<Request>, order: seq<BackendId>)
    requires ClientOk(c, log, k, up) && Readable(log) && k < |log| && ReadsInOrder(c, log[k], order)
    ensures ClientOk(Handle(c, log[k]), log, k + 1, up + SubAll(order))
  {
    hide Tended, Core, Readable, Absorb;
    var c' := Handle(c, log[k]);
    var up' := up + SubAll(order);
    ConsumeCore(c.records, log, k, up);
    if log[k].RegistrySnapshot? {
      ReopenCore(Absorb(c.records, log[k]), log, k + 1, up, Reopened(c, log[k]), SubAll(order));
    } else {
      VisitedOnce(order, Reopened(c, log[k]));
      assert up' == up;
    }
    forall b | b in c'.desired && Present(c'.records, b) ensures Tended(c'.records[b], log, k + 1, up', b) {
      if log[k].RegistrySnapshot? { ReadSnapshotTended(c, log, k, up, order, b); }
      else { ReadOtherTended(c, log, k, up, b); }
    }
  }

  // ---------------------------------------------------------------- the user

  lemma AppendedRequest(up: seq<Request>, x: Request, b: BackendId)
    ensures Sub(b) in up ==> Sub(b) in up + [x]
    ensures Unsub(b) in up ==> Unsub(b) in up + [x]
    ensures x in up + [x]
    ensures x == Sub(b) || (Resubscribing(up, b) && x != Unsub(b)) ==> Resubscribing(up + [x], b)
  {
    var up' := up + [x];
    assert up'[|up|] == x;
    if Resubscribing(up, b) && x != Unsub(b) && x != Sub(b) {
      forall i | 0 <= i < |up'| && up'[i] == Unsub(b) ensures exists i' :: i < i' < |up'| && up'[i'] == Sub(b) {
        var i' :| i < i' < |up| && up[i'] == Sub(b);
        assert up'[i'] == Sub(b);
      }
    }
  }

  /** Requests appended about other backends change nothing for b. */
  lemma AppendedTended(r: Store.Record, log: seq<Msg>, k: nat, up: seq<Request>, x: Request, b: BackendId)
    requires Tended(r, log, k, up, b) && x != Unsub(b)
    ensures Tended(r, log, k, up + [x], b)
  {
    hide PendingOpen, PendingSnapshot, PendingLoss, ClosesAt, Resubscribing, LogRegistry;
    AppendedRequest(up, x, b);
  }

  lemma OpenKeepsClient(c: Client, log: seq<Msg>, k: nat, up: seq<Request>, b: BackendId)
    requires ClientOk(c, log, k, up)
    ensures ClientOk(OpenBackend(c, b), log, k, up + OpenRequests(c, b))
  {
    hide Tended, Core;
    var c' := OpenBackend(c, b);
    var up' := up + OpenRequests(c, b);
    if Present(c.records, b) {
      ReopenCore(c.records, log, k, up, {b}, OpenRequests(c, b));
      assert Reopen(c.records, {b}) == c'.records;
    } else {
      assert up' == up;
    }
    forall d | d in c'.desired && Present(c'.records, d) ensures Tended(c'.records[d], log, k, up', d) {
      if d == b {
        assert SubAll([b]) == [Sub(b)];
        Reopens(c'.records[b], log, k, up, [b], b);
      } else if Present(c.records, b) {
        AppendedTended(c.records[d], log, k, up, Sub(b), d);
      }
    }
  }

  lemma CloseCore(records: Store.Records, log: seq<Msg>, k: nat, up: seq<Request>, b: BackendId)
    requires Core(records, log, k, up) && IsSubscribed(records, b)
    ensures Core(records[b := Store.Close(records[b], "user_closed")], log, k, up + [Unsub(b)])
  {
  }

  lemma CloseKeepsClient(c: Client, log: seq<Msg>, k: nat, up: seq<Request>, b: BackendId)
    requires ClientOk(c, log, k, up)
    ensures ClientOk(CloseBackend(c, b), log, k, up + CloseRequests(c, b))
  {
    hide Tended, Core;
    var c' := CloseBackend(c, b);
    var up' := up + CloseRequests(c, b);
    if IsSubscribed(c.records, b) { CloseCore(c.records, log, k, up, b); } else { assert up' == up; }
    forall d | d in c'.desired && Present(c'.records, d) ensures Tended(c'.records[d], log, k, up', d) {
      if IsSubscribed(c.records, b) { AppendedTended(c.records[d], log, k, up, Unsub(b), d); }
    }
  }

  lemma CollectKeepsClient(c: Client, log: seq<Msg>, k: nat, up: seq<Request>)
    requires ClientOk(c, log, k, up)
    ensures ClientOk(c.(records := Store.Collect(c.records)), log, k, up)
  {
  }
}
