/** The facade's runtime core as an object over its two stores: shared/src/facade/runtime-core.ts. */
module RuntimeCore {
  import opened Options
  import opened Storage
  import opened Gateway
  import opened Client
  import opened Listening
  import C = Client
  import Store = RegistryStore
  import Streams

  // ---------------------------------------------------------------- replaying buffered events

  /** A FacadeAdapterEvent; a registry arrives as a list. */
  datatype AdapterEvent = RegistryReceived(items: seq<Presence>) | MessageReceived(m: Msg, arrival: Arrival)

  predicate IsAdapterEvent(e: AdapterEvent) {
    e.MessageReceived? ==> !e.m.RegistrySnapshot?
  }

  /** The client and its streams. */
  datatype Facade = Facade(client: Client, streams: Streams.Manager)

  function Received(f: Facade, e: AdapterEvent): Facade {
    match e
    case RegistryReceived(items) =>
      var records := Store.ApplySnapshot(f.client.records, items);
      f.(client := f.client.(records := Reopen(records, ToReopen(records, f.client.desired))))
    case MessageReceived(m, arrival) => Facade(Handle(f.client, m), Streamed(f.client, m, arrival, f.streams))
  }

  /** The backends an event makes the client subscribe to. */
  function ReopenedBy(f: Facade, e: AdapterEvent): set<BackendId> {
    if e.RegistryReceived? then ToReopen(Store.ApplySnapshot(f.client.records, e.items), f.client.desired) else {}
  }

  function ReceivedAll(f: Facade, events: seq<AdapterEvent>): Facade {
    if events == [] then f else Received(ReceivedAll(f, events[..|events| - 1]), events[|events| - 1])
  }

  /** The state changes an event announces, when it reopens backends in `order`. */
  ghost predicate Tells(f: Facade, e: AdapterEvent, order: seq<BackendId>, changes: seq<StateChange>) {
    match e
    case RegistryReceived(items) => TellsSnapshot(f.client.records, items, order, changes)
    case MessageReceived(m, _) => changes == MessageChanges(f.client.records, m)
  }

  /** In whatever order the snapshot's first loop met the records. */
  ghost predicate TellsSnapshot(records: Store.Records, items: seq<Presence>, order: seq<BackendId>,
                                changes: seq<StateChange>) {
    exists removed :: Visits(removed, records.Keys) && changes == SnapshotChanges(records, items, removed, order)
  }

  /** `reopened` and `changes` are what the events reopen and announce, event by event. */
  ghost predicate Reopens(f: Facade, events: seq<AdapterEvent>, reopened: seq<BackendId>, changes: seq<StateChange>) {
    if events == [] then reopened == [] && changes == []
    else
      exists n, k :: 0 <= n <= |reopened| && 0 <= k <= |changes| && ReopensLast(f, events, reopened, changes, n, k)
  }

  ghost predicate ReopensLast(f: Facade, events: seq<AdapterEvent>, reopened: seq<BackendId>, changes: seq<StateChange>,
                              n: int, k: int)
    requires events != [] && 0 <= n <= |reopened| && 0 <= k <= |changes|
  {
    var before, last := events[..|events| - 1], events[|events| - 1];
    && Reopens(f, before, reopened[..n], changes[..k])
    && Visits(reopened[n..], ReopenedBy(ReceivedAll(f, before), last))
    && Tells(ReceivedAll(f, before), last, reopened[n..], changes[k..])
  }

  lemma ReopensNext(f: Facade, events: seq<AdapterEvent>, i: nat, reopened: seq<BackendId>, changes: seq<StateChange>,
                    order: seq<BackendId>, more: seq<StateChange>)
    requires i < |events| && Reopens(f, events[..i], reopened, changes)
    requires Visits(order, ReopenedBy(ReceivedAll(f, events[..i]), events[i]))
    requires Tells(ReceivedAll(f, events[..i]), events[i], order, more)
    ensures Reopens(f, events[..i + 1], reopened + order, changes + more)
    ensures ReceivedAll(f, events[..i + 1]) == Received(ReceivedAll(f, events[..i]), events[i])
    ensures SubAll(reopened + order) == SubAll(reopened) + SubAll(order)
  {
    hide ReopenedBy, Received, Visits, Tells;
    var n, k := |reopened|, |changes|;
    assert events[..i + 1][..i] == events[..i];
    assert (reopened + order)[..n] == reopened && (reopened + order)[n..] == order;
    assert (changes + more)[..k] == changes && (changes + more)[k..] == more;
    assert ReopensLast(f, events[..i + 1], reopened + order, changes + more, n, k);
  }

  /** `sent` is what the adapter has been told to send, and `told` what the listeners have been told of backend states. */
  class BackendFacadeRuntimeCore {
    const store: Store.FacadeRegistryStore
    const streams: Streams.FacadeStreamManager
    var desiredOpenBackends: set<BackendId>
    var sent: seq<Request>
    var told: seq<StateChange>

    function View(): Client
      reads this, store
    {
      Client(store.records, desiredOpenBackends)
    }

    constructor ()
      ensures fresh(store) && fresh(streams)
      ensures View() == Client(map[], {}) && streams.View() == Streams.EMPTY && sent == [] && told == []
    {
      store := new Store.FacadeRegistryStore();
      streams := new Streams.FacadeStreamManager();
      desiredOpenBackends := {};
      sent, told := [], [];
    }

    ghost function Both(): Facade
      reads this, store, streams
    {
      Facade(View(), streams.View())
    }

    /** Both stores start from the bootstrap; the events buffered meanwhile are replayed. */
    method Start(items: seq<Presence>, subscriptions: set<BackendId>, buffer: seq<AdapterEvent>)
      returns (reopened: seq<BackendId>, changes: seq<StateChange>)
      requires forall i :: 0 <= i < |buffer| ==> IsAdapterEvent(buffer[i])
      modifies this, store, streams
      ensures var started := Facade(Client(Store.Bootstrap(items, subscriptions), old(desiredOpenBackends)), Streams.EMPTY);
              Both() == ReceivedAll(started, buffer) && Reopens(started, buffer, reopened, changes)
      ensures sent == old(sent) + SubAll(reopened) && told == old(told) + changes
    {
      store.ApplyBootstrap(items, subscriptions);
      streams.ApplyBootstrap();
      reopened, changes := Replay(buffer);
    }

    method Replay(buffer: seq<AdapterEvent>) returns (reopened: seq<BackendId>, changes: seq<StateChange>)
      requires forall i :: 0 <= i < |buffer| ==> IsAdapterEvent(buffer[i])
      modifies this, store, streams
      ensures Both() == ReceivedAll(old(Both()), buffer) && Reopens(old(Both()), buffer, reopened, changes)
      ensures sent == old(sent) + SubAll(reopened) && told == old(told) + changes
    {
      hide Received, ReopenedBy, Visits, IsAdapterEvent, Tells;
      ghost var started := Both();
      reopened, changes := [], [];
      assert buffer[..0] == [] && SubAll([]) == [];
      var i := 0;
      while i < |buffer|
        invariant 0 <= i <= |buffer|
        invariant Both() == ReceivedAll(started, buffer[..i]) && Reopens(started, buffer[..i], reopened, changes)
        invariant sent == old(sent) + SubAll(reopened) && told == old(told) + changes
      {
        hide ReceivedAll, Reopens, SubAll;
        var order, more := HandleAdapterEvent(buffer[i]);
        ReopensNext(started, buffer, i, reopened, changes, order, more);
        reopened, changes := reopened + order, changes + more;
        i := i + 1;
      }
      assert buffer[..|buffer|] == buffer;
    }

    /** The dispatch; `order` is the order in which desired backends are reopened. */
    method HandleAdapterEvent(e: AdapterEvent) returns (order: seq<BackendId>, changes: seq<StateChange>)
      requires IsAdapterEvent(e)
      modifies this, store, streams
      ensures Both() == Received(old(Both()), e)
      ensures Visits(order, ReopenedBy(old(Both()), e)) && Tells(old(Both()), e, order, changes)
      ensures sent == old(sent) + SubAll(order) && told == old(told) + changes
    {
      hide MessageChanges, SnapshotChanges;
      match e {
        case RegistryReceived(items) => order, changes := HandleRegistrySnapshot(items);
        case MessageReceived(m, arrival) =>
          changes := HandleMessage(m, arrival);
          order := [];
      }
    }

    method OpenBackend(b: BackendId)
      modifies this, store
      ensures View() == C.OpenBackend(old(View()), b)
      ensures sent == old(sent) + OpenRequests(old(View()), b)
      ensures told == old(told) + OpenChanges(old(View()).records, b)
    {
      hide Announce, Store.MakeDiff;
      desiredOpenBackends := desiredOpenBackends + {b};
      if b !in store.records || store.records[b].presence.None? { return; }
      var diffs := store.MarkRecord(Store.MarkSubscribing(b));
      sent := sent + [Sub(b)];
      if store.records[b].runtimeState == Store.Subscribing {
        EmitBackendDiffs(diffs);
      }
    }

    method EmitBackendDiffs(diffs: seq<Store.Diff>)
      modifies this`told
      ensures told == old(told) + Announce(diffs)
    {
      var i := 0;
      while i < |diffs|
        invariant 0 <= i <= |diffs|
        invariant told == old(told) + Announce(diffs)[..i]
      {
        told := told + [Announced(diffs[i])];
        i := i + 1;
      }
    }

    method CloseBackend(b: BackendId, now: Time)
      modifies this, store, streams
      ensures View() == C.CloseBackend(old(View()), b)
      ensures sent == old(sent) + CloseRequests(old(View()), b)
      ensures streams.View() == StreamsClosed(old(View()), b, now, old(streams.View()))
      ensures told == old(told) + CloseChanges(old(View()).records, b)
    {
      hide Announce, Store.DoDiffs, Streams.Step;
      desiredOpenBackends := desiredOpenBackends - {b};
      if b !in store.records || !store.records[b].subscribed { return; }
      sent := sent + [Unsub(b)];
      var diffs := store.MarkRecord(Store.MarkUnsubscribed(b, "user_closed"));
      EmitBackendDiffs(diffs);
      var _, _ := streams.HandleBackendUnsubscribed(b, "user_closed", false, now);
    }

    method CollectGarbage(now: Time)
      modifies this, store, streams
      ensures View() == old(View()).(records := Store.Collect(old(View()).records))
      ensures streams.View() == Streams.Step(old(streams.View()), Streams.CollectGarbage(now))
      ensures sent == old(sent) && told == old(told)
    {
      var _, _ := streams.Collect(now);
      store.CollectZombies();
    }

    /** The desired backends that are visible but closed, in the set's own order. */
    method ReopenDesiredBackends() returns (order: seq<BackendId>)
      modifies this, store
      ensures Visits(order, ToReopen(old(View()).records, old(View()).desired))
      ensures View() == old(View()).(records := Reopen(old(View()).records, ToReopen(old(View()).records, old(View()).desired)))
      ensures sent == old(sent) + SubAll(order) && told == old(told) + ReopenChanges(old(View()).records, order)
    {
      hide Met, Visits, OpenChanges, ReopenChanges, Reopen, ToReopen, SubAll;
      ghost var records, desired := store.records, desiredOpenBackends;
      ghost var requests, changes := [], [];
      var all := IterationOrder(desiredOpenBackends);
      order := [];
      MetNone(records, desired, all);
      var i := 0;
      while i < |all|
        invariant 0 <= i <= |all| && desiredOpenBackends == desired
        invariant Met(records, desired, all, i, order, store.records, requests, changes)
        invariant sent == old(sent) + requests && told == old(told) + changes
      {
        MetNext(records, desired, all, i, order, store.records, requests, changes);
        if Reopenable(store.records, all[i]) {
          requests, changes := requests + [Sub(all[i])], changes + OpenChanges(store.records, all[i]);
          OpenBackend(all[i]);
          order := order + [all[i]];
        }
        i := i + 1;
      }
      MetAll(records, desired, all, order, store.records, requests, changes);
    }

    /** `registry` is what `items` lists. */
    method HandleRegistrySnapshot(items: seq<Presence>) returns (order: seq<BackendId>, changes: seq<StateChange>)
      modifies this, store
      ensures View().records == Reopen(Store.ApplySnapshot(old(View()).records, items),
                                       ToReopen(Store.ApplySnapshot(old(View()).records, items), old(View()).desired))
      ensures View().desired == old(View()).desired
      ensures Visits(order, ToReopen(Store.ApplySnapshot(old(View()).records, items), old(View()).desired))
      ensures sent == old(sent) + SubAll(order)
      ensures told == old(told) + changes && TellsSnapshot(old(View()).records, items, order, changes)
      ensures forall registry :: Store.ListsRegistry(items, registry) ==>
                && View() == Handle(old(View()), RegistrySnapshot(registry))
                && Visits(order, Reopened(old(View()), RegistrySnapshot(registry)))
    {
      hide ReopenChanges, Announce, Store.DoDiffs, Store.ListsRegistry;
      ghost var before := View();
      var n := |told|;
      var diffs, removed := store.ApplyRegistrySnapshot(items);
      EmitBackendDiffs(diffs);
      order := ReopenDesiredBackends();
      changes := told[n..];
      assert changes == SnapshotChanges(before.records, items, removed, order);
      forall registry | Store.ListsRegistry(items, registry)
        ensures View() == Handle(before, RegistrySnapshot(registry))
        ensures Visits(order, Reopened(before, RegistrySnapshot(registry)))
      {
        Store.ListingIrrelevant(before.records, items, registry);
      }
    }

    /** The other messages; those that neither store reads leave both alone. */
    method HandleMessage(m: Msg, arrival: Arrival) returns (changes: seq<StateChange>)
      requires !m.RegistrySnapshot?
      modifies this, store, streams
      ensures View() == Handle(old(View()), m)
      ensures streams.View() == Streamed(old(View()), m, arrival, old(streams.View()))
      ensures sent == old(sent)
      ensures changes == MessageChanges(old(View()).records, m) && told == old(told) + changes
    {
      hide Announce, Store.DoDiffs, Streams.Step;
      changes := [];
      match m {
        case BackendSubscribed(b, epoch, capabilities) =>
          var diffs := store.MarkRecord(Store.MarkSubscribed(b, epoch, capabilities));
          if b !in store.records || store.records[b].runtimeState != Store.Ready {
            EmitBackendDiffs(diffs);
            changes := Announce(diffs);
          }
        case BackendUnsubscribed(b, reason) =>
          var willAutoRecover := b !in store.records || store.records[b].presence.Some?;
          var diffs := store.MarkRecord(Store.MarkUnsubscribed(b, ReasonText(reason)));
          var _, _ := streams.HandleBackendUnsubscribed(b, ReasonText(reason), willAutoRecover, arrival.now);
          EmitBackendDiffs(diffs);
          changes := Announce(diffs);
        case Relayed(b, kind, _, _) =>
          changes := HandleRelayed(b, kind, arrival);
        case _ =>
      }
    }

    /** handleBackendDataSnapshot, handleContentPatch and handleRunEvent. */
    method HandleRelayed(b: BackendId, kind: RelayKind, arrival: Arrival) returns (changes: seq<StateChange>)
      modifies this, store, streams
      ensures forall payload, sender ::
                var m := Relayed(b, kind, payload, sender);
                && View() == Handle(old(View()), m)
                && streams.View() == Streamed(old(View()), m, arrival, old(streams.View()))
                && changes == MessageChanges(old(View()).records, m)
      ensures sent == old(sent) && told == old(told) + changes
    {
      hide Streams.Step, Announce, Store.DoDiffs;
      changes := [];
      match kind {
        case DataSnapshot =>
          var diffs := store.MarkRecord(Store.MarkDataInitialized(b));
          if b in store.records && store.records[b].runtimeState == Store.Ready && store.records[b].subscribed {
            var _, _ := streams.HandleBackendBecameReady(b, arrival.now);
          }
          EmitBackendDiffs(diffs);
          changes := Announce(diffs);
        case ContentPatch =>
          var _ := streams.HandleContentPatch(Streams.Key(b, arrival.session), arrival.offset, arrival.now);
        case RunEvent =>
          var _ := streams.HandleRunEvent(Streams.Key(b, arrival.session), arrival.now);
        case _ =>
      }
    }
  }

  /** Where reopenDesiredBackends is after i of the desired backends. */
  ghost predicate Met(records: Store.Records, desired: set<BackendId>, all: seq<BackendId>, i: nat, order: seq<BackendId>,
                      records': Store.Records, requests: seq<Request>, changes: seq<StateChange>)
    requires i <= |all|
  {
    var met := set b | b in all[..i] && b in ToReopen(records, desired);
    && Visits(order, met) && records' == Reopen(records, met)
    && requests == SubAll(order) && changes == ReopenChanges(records, order)
  }

  lemma MetNone(records: Store.Records, desired: set<BackendId>, all: seq<BackendId>)
    ensures Met(records, desired, all, 0, [], records, [], [])
  {
  }

  /** The test on the records so far is the test on the records at the start. */
  lemma MetNext(records: Store.Records, desired: set<BackendId>, all: seq<BackendId>, i: nat, order: seq<BackendId>,
                records': Store.Records, requests: seq<Request>, changes: seq<StateChange>)
    requires i < |all| && Visits(all, desired) && Met(records, desired, all, i, order, records', requests, changes)
    ensures var b := all[i];
            && b in desired
            && if Reopenable(records', b)
               then Met(records, desired, all, i + 1, order + [b], records'[b := Store.Subscribe(records'[b])],
                        requests + [Sub(b)], changes + OpenChanges(records', b))
               else Met(records, desired, all, i + 1, order, records', requests, changes)
  {
    hide OpenedChanges, SubAll, ReopenChanges;
    var b := all[i];
    VisitedAt(all, desired, i);
    assert b !in all[..i];
    ReopenNext(records, desired, all, i, order);
    SubAllNext(order, b);
    ReopenChangesNext(records, order, b);
    assert Lookup(records', b) == Lookup(records, b);
  }

  lemma MetAll(records: Store.Records, desired: set<BackendId>, all: seq<BackendId>, order: seq<BackendId>,
               records': Store.Records, requests: seq<Request>, changes: seq<StateChange>)
    requires Visits(all, desired) && Met(records, desired, all, |all|, order, records', requests, changes)
    ensures Visits(order, ToReopen(records, desired)) && records' == Reopen(records, ToReopen(records, desired))
    ensures requests == SubAll(order) && changes == ReopenChanges(records, order)
  {
    assert all[..|all|] == all;
    assert (set b | b in all && b in ToReopen(records, desired)) == ToReopen(records, desired);
  }

  lemma ReopenChangesNext(records: Store.Records, order: seq<BackendId>, b: BackendId)
    ensures ReopenChanges(records, order + [b]) == ReopenChanges(records, order) + OpenChanges(records, b)
  {
    assert (order + [b])[..|order|] == order;
  }

  lemma SubAllNext(order: seq<BackendId>, b: BackendId)
    ensures SubAll(order + [b]) == SubAll(order) + [Sub(b)]
  {
  }

  /** One more desired backend met. */
  lemma ReopenNext(records: Store.Records, desired: set<BackendId>, all: seq<BackendId>, i: nat, order: seq<BackendId>)
    requires i < |all| && all[i] !in all[..i]
    requires Visits(order, set b | b in all[..i] && b in ToReopen(records, desired))
    ensures var met := set b | b in all[..i] && b in ToReopen(records, desired);
            var met' := set b | b in all[..i + 1] && b in ToReopen(records, desired);
            if all[i] in ToReopen(records, desired)
            then Visits(order + [all[i]], met') && Reopen(records, met') == Reopen(records, met)[all[i] := Store.Subscribe(records[all[i]])]
            else met' == met
  {
  }
}
