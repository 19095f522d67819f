/** Runs of the gateway, one connected client and the two queues between them. */
module EndToEndRuns {
  import opened Options
  import opened Storage
  import opened Gateway
  import opened GatewayLogs
  import opened GatewayInvariants
  import opened GatewayJoining
  import opened GatewayRuns
  import opened GatewayHistory
  import opened Client
  import opened EndToEnd
  import Store = RegistryStore
  import Streams

  // ---------------------------------------------------------------- a log that grows

  lemma GrownPending(log: seq<Msg>, log': seq<Msg>, k: nat, b: BackendId)
    requires log <= log'
    ensures PendingClose(log, k, b) ==> PendingClose(log', k, b)
    ensures PendingOpen(log, k, b) ==> PendingOpen(log', k, b)
    ensures PendingSnapshot(log, k) ==> PendingSnapshot(log', k)
    ensures PendingLoss(log, k, b) ==> PendingLoss(log', k, b)
  {
    if PendingClose(log, k, b) {
      var j :| k <= j < |log| && ClosesAt(log, j, b);
      assert ClosesAt(log', j, b);
    }
    if PendingOpen(log, k, b) {
      var j :| k <= j < |log| && OpensAt(log, j, b);
      assert OpensAt(log', j, b);
    }
    if PendingSnapshot(log, k) {
      var j :| k <= j < |log| && log[j].RegistrySnapshot?;
      assert log'[j].RegistrySnapshot?;
    }
    if PendingLoss(log, k, b) {
      var j :| k <= j < |log| && log[j].RegistrySnapshot? && b !in log[j].items;
      assert log'[j].RegistrySnapshot? && b !in log'[j].items;
    }
  }

  lemma GrownCore(records: Store.Records, log: seq<Msg>, log': seq<Msg>, k: nat, up: seq<Request>)
    requires Core(records, log, k, up) && log <= log'
    ensures Core(records, log', k, up)
  {
    hide PendingClose, PendingOpen, PendingSnapshot, PendingLoss, Mirrors, Believed;
    assert log'[..k] == log[..k];
    forall b | Belief(log'[..k], b).Some?
      ensures IsSubscribed(records, b) || Unsub(b) in up || PendingClose(log', k, b)
    {
      GrownPending(log, log', k, b);
    }
  }

  /** A new unsubscribe nobody asked for is followed by a snapshot. */
  lemma NewCloseFollowed(log: seq<Msg>, log': seq<Msg>, asked: set<BackendId>, j: nat, b: BackendId)
    requires Extends(log, log', asked) && !Unsettled(log') && b !in asked
    requires |log| <= j < |log'| && ClosesAt(log', j, b)
    ensures PendingSnapshot(log', j + 1)
  {
  }

  lemma GrownReopening(log: seq<Msg>, log': seq<Msg>, asked: set<BackendId>, k: nat, up: seq<Request>, b: BackendId)
    requires Reopening(log, k, up, b) && Extends(log, log', asked) && !Unsettled(log') && b !in asked
    ensures Reopening(log', k, up, b)
  {
    hide PendingOpen, PendingSnapshot, Extends, Unsettled, LogRegistry;
    forall j | k <= j < |log'| && ClosesAt(log', j, b) && b in LogRegistry(log'[..j])
      ensures Sub(b) in up || PendingOpen(log', j + 1, b) || PendingSnapshot(log', j + 1)
    {
      Prefix(log, log', asked);
      if j < |log| {
        assert log'[..j] == log[..j];
        assert ClosesAt(log, j, b);
        GrownPending(log, log', j + 1, b);
      } else {
        NewCloseFollowed(log, log', asked, j, b);
      }
    }
  }

  lemma Prefix(log: seq<Msg>, log': seq<Msg>, asked: set<BackendId>)
    requires Extends(log, log', asked)
    ensures log <= log'
  {
  }

  lemma GrownTended(r: Store.Record, log: seq<Msg>, log': seq<Msg>, asked: set<BackendId>, k: nat, up: seq<Request>,
                    b: BackendId)
    requires Tended(r, log, k, up, b) && Extends(log, log', asked) && !Unsettled(log') && b !in asked
    ensures Tended(r, log', k, up, b)
  {
    hide PendingOpen, PendingSnapshot, PendingLoss, Reopening, Resubscribing, Extends;
    Prefix(log, log', asked);
    GrownPending(log, log', k, b);
    GrownReopening(log, log', asked, k, up, b);
  }

  /** The gateway's log of p grows, and p did not ask for it. */
  lemma ForeignKeepsClient(c: Client, log: seq<Msg>, log': seq<Msg>, k: nat, up: seq<Request>)
    requires ClientOk(c, log, k, up) && Extends(log, log', {}) && !Unsettled(log')
    ensures ClientOk(c, log', k, up)
  {
    hide Tended, Core, Extends;
    Prefix(log, log', {});
    GrownCore(c.records, log, log', k, up);
    forall b | b in c.desired && Present(c.records, b) ensures Tended(c.records[b], log', k, up, b) {
      GrownTended(c.records[b], log, log', {}, k, up, b);
    }
  }

  // ---------------------------------------------------------------- the gateway reads a request

  lemma Dequeued(up: seq<Request>, b: BackendId)
    requires up != []
    ensures Sub(b) in up && up[0] != Sub(b) ==> Sub(b) in up[1..]
    ensures Unsub(b) in up && up[0] != Unsub(b) ==> Unsub(b) in up[1..]
    ensures Resubscribing(up, b) ==> Resubscribing(up[1..], b)
    ensures Resubscribing(up, b) && up[0] == Unsub(b) ==> Sub(b) in up[1..]
  {
  }

  /** Requests about other backends change nothing for b. */
  lemma OtherRequest(r: Store.Record, log: seq<Msg>, k: nat, up: seq<Request>, b: BackendId)
    requires up != [] && Tended(r, log, k, up, b) && up[0] != Sub(b)
    ensures Tended(r, log, k, up[1..], b)
  {
  }

  /** A later opening or snapshot is one from any earlier point on. */
  lemma EarlierOpen(log: seq<Msg>, n: nat, b: BackendId)
    requires PendingOpen(log, n, b)
    ensures forall k: nat :: k <= n ==> PendingOpen(log, k, b)
  {
  }

  /** A granted subscribe opens b after everything already written. */
  lemma SubscribeGranted(r: Store.Record, log: seq<Msg>, log': seq<Msg>, k: nat, up: seq<Request>, b: BackendId)
    requires up != [] && up[0] == Sub(b) && k <= |log| && Tended(r, log, k, up, b)
    requires Extends(log, log', {}) && !Unsettled(log') && PendingOpen(log', |log|, b)
    ensures Tended(r, log', k, up[1..], b)
  {
    hide PendingOpen, PendingSnapshot, PendingLoss, Resubscribing, LogRegistry, Extends, Unsettled;
    Dequeued(up, b);
    EarlierOpen(log', |log|, b);
    forall j | k <= j < |log'| && ClosesAt(log', j, b) && b in LogRegistry(log'[..j])
      ensures PendingOpen(log', j + 1, b) || PendingSnapshot(log', j + 1)
    {
      if j >= |log| { NewCloseFollowed(log, log', {}, j, b); }
    }
  }

  /** A refused subscribe means a snapshot without b is still unread. */
  lemma LossUnread(log: seq<Msg>, k: nat, b: BackendId)
    requires Readable(log) && 0 < k <= |log| && b in LogRegistry(log[..k]) && b !in LogRegistry(log)
    ensures PendingLoss(log, k, b) && PendingSnapshot(log, k)
  {
    RegistryChangedBetween(log, b, k);
    var j :| k <= j < |log| && log[j].RegistrySnapshot? && b !in log[j].items;
  }

  lemma ReopeningRefused(log: seq<Msg>, k: nat, up: seq<Request>, b: BackendId)
    requires Readable(log) && 0 < k <= |log| && b !in LogRegistry(log)
    ensures Reopening(log, k, up, b)
  {
    hide Readable, LogRegistry, PendingLoss;
    forall j | k <= j < |log| && ClosesAt(log, j, b) && b in LogRegistry(log[..j]) ensures PendingSnapshot(log, j + 1) {
      LossUnread(log, j, b);
      SnapshotIsLater(log, j);
    }
  }

  lemma SubscribeRefused(r: Store.Record, log: seq<Msg>, k: nat, up: seq<Request>, b: BackendId)
    requires up != [] && up[0] == Sub(b) && Tended(r, log, k, up, b)
    requires Readable(log) && 0 < k <= |log| && b in LogRegistry(log[..k]) && b !in LogRegistry(log)
    ensures Tended(r, log, k, up[1..], b)
  {
    hide PendingOpen, PendingSnapshot, PendingLoss, Resubscribing, LogRegistry, Readable, Reopening;
    Dequeued(up, b);
    LossUnread(log, k, b);
    ReopeningRefused(log, k, up[1..], b);
  }

  lemma DequeuedCore(records: Store.Records, log: seq<Msg>, k: nat, up: seq<Request>)
    requires up != [] && Core(records, log, k, up)
    requires forall b :: up[0] == Unsub(b) ==> PendingClose(log, k, b)
    ensures Core(records, log, k, up[1..])
  {
  }

  /** The gateway answers a subscribe: by opening b, or, when b is not in its registry, without it. */
  lemma SubKeepsClient(c: Client, log: seq<Msg>, log': seq<Msg>, k: nat, up: seq<Request>, b: BackendId)
    requires ClientOk(c, log, k, up) && up != [] && up[0] == Sub(b)
    requires Readable(log) && Extends(log, log', {}) && !Unsettled(log')
    requires b in LogRegistry(log) ==> PendingOpen(log', |log|, b)
    ensures ClientOk(c, log', k, up[1..])
  {
    hide Tended, Readable, Extends, Believed, Recorded, PendingOpen, LogRegistry, Unsettled;
    Prefix(log, log', {});
    GrownCore(c.records, log, log', k, up);
    DequeuedCore(c.records, log', k, up);
    forall d | d in c.desired && Present(c.records, d) ensures Tended(c.records[d], log', k, up[1..], d) {
      if d != b {
        OtherRequest(c.records[d], log, k, up, d);
        GrownTended(c.records[d], log, log', {}, k, up[1..], d);
      } else if b in LogRegistry(log) {
        SubscribeGranted(c.records[b], log, log', k, up, b);
      } else {
        MirrorsAt(c.records, LogRegistry(log[..k]), b);
        SubscribeRefused(c.records[b], log, k, up, b);
        GrownTended(c.records[b], log, log', {}, k, up[1..], b);
      }
    }
  }

  lemma Unsubscribed(r: Store.Record, log: seq<Msg>, log': seq<Msg>, k: nat, up: seq<Request>, b: BackendId)
    requires up != [] && up[0] == Unsub(b) && Tended(r, log, k, up, b)
    ensures Tended(r, log', k, up[1..], b)
  {
  }

  /** The gateway answers an unsubscribe. */
  lemma UnsubKeepsClient(c: Client, log: seq<Msg>, log': seq<Msg>, k: nat, up: seq<Request>, b: BackendId)
    requires ClientOk(c, log, k, up) && up != [] && up[0] == Unsub(b)
    requires Extends(log, log', {b}) && !Unsettled(log') && PendingClose(log', k, b)
    ensures ClientOk(c, log', k, up[1..])
  {
    hide Tended, Extends, Core, PendingClose, Unsettled;
    Prefix(log, log', {b});
    GrownCore(c.records, log, log', k, up);
    DequeuedCore(c.records, log', k, up);
    forall d | d in c.desired && Present(c.records, d) ensures Tended(c.records[d], log', k, up[1..], d) {
      if d != b {
        OtherRequest(c.records[d], log, k, up, d);
        GrownTended(c.records[d], log, log', {b}, k, up[1..], d);
      } else {
        Unsubscribed(c.records[b], log, log', k, up, b);
      }
    }
  }

  // ---------------------------------------------------------------- the system

  /** The gateway, the client behind connection p with its streams, how much of its log it has read, and its uplink. */
  datatype System = System(g: State, p: PeerId, client: Client, streams: Streams.Manager, read: nat, up: seq<Request>)

  datatype Action =
    | GatewayStep(ev: Event)
    | GatewayReads
    | ClientReads(order: seq<BackendId>, arrival: Arrival)
    | UserOpens(b: BackendId)
    | UserCloses(b: BackendId, now: Time)
    | StreamRequested(op: Streams.Op)
    | ClientCollects(now: Time)

  /** The stream operations that come neither from the gateway nor from the collector. */
  predicate IsStreamRequest(op: Streams.Op) {
    op.RequestOpen? || op.RequestClose? || op.SessionClosed?
  }

  /** What the gateway has written and the client has not read. */
  function Unread(s: System): seq<Msg> {
    if s.read <= |Log(s.g.sent, s.p)| then Log(s.g.sent, s.p)[s.read..] else []
  }

  /** A request of p's own that must come through its uplink. */
  predicate OwnRequest(ev: Event, p: PeerId) {
    (ev.EvSubscribe? || ev.EvUnsubscribe?) && ev.p == p
  }

  function RequestEvent(p: PeerId, x: Request): Event {
    match x
    case Sub(b) => EvSubscribe(p, b)
    case Unsub(b) => EvUnsubscribe(p, b)
  }

  /** p stays connected; `order` is the order in which the client meets the backends it reopens. */
  ghost predicate CanAct(s: System, a: Action) {
    && IsOpen(s.g.peers, s.p)
    && match a
       case GatewayStep(ev) => Enabled(s.g, ev) && !OwnRequest(ev, s.p) && IsOpen(Step(s.g, ev).peers, s.p)
       case GatewayReads => s.up != []
       case ClientReads(order, _) => Unread(s) != [] && ReadsInOrder(s.client, Unread(s)[0], order)
       case StreamRequested(op) => IsStreamRequest(op)
       case _ => true
  }

  ghost function Act(s: System, a: Action): System
    requires CanAct(s, a)
  {
    match a
    case GatewayStep(ev) => s.(g := Step(s.g, ev))
    case GatewayReads => s.(g := Step(s.g, RequestEvent(s.p, s.up[0])), up := s.up[1..])
    case ClientReads(order, arrival) =>
      var m := Unread(s)[0];
      s.(client := Handle(s.client, m), streams := Streamed(s.client, m, arrival, s.streams),
         read := s.read + 1, up := s.up + SubAll(order))
    case UserOpens(b) => s.(client := OpenBackend(s.client, b), up := s.up + OpenRequests(s.client, b))
    case UserCloses(b, now) =>
      s.(client := CloseBackend(s.client, b), streams := StreamsClosed(s.client, b, now, s.streams),
         up := s.up + CloseRequests(s.client, b))
    case StreamRequested(op) => s.(streams := Streams.Step(s.streams, op))
    case ClientCollects(now) =>
      s.(client := s.client.(records := Store.Collect(s.client.records)),
         streams := Streams.Step(s.streams, Streams.CollectGarbage(now)))
  }

  ghost predicate CanRun(s: System, actions: seq<Action>)
    decreases |actions|
  {
    actions == [] || (CanAct(s, actions[0]) && CanRun(Act(s, actions[0]), actions[1..]))
  }

  ghost function Run(s: System, actions: seq<Action>): System
    requires CanRun(s, actions)
    decreases |actions|
  {
    if actions == [] then s else Run(Act(s, actions[0]), actions[1..])
  }

  /** The client starts from a bootstrap that lists what the first `read` messages told its adapter. */
  ghost predicate Start(s: System, items: seq<Presence>) {
    && Reachable(s.g) && IsOpen(s.g.peers, s.p)
    && 0 < s.read <= |Log(s.g.sent, s.p)|
    && Store.ListsRegistry(items, LogRegistry(Log(s.g.sent, s.p)[..s.read]))
    && s.client == Client(Store.Bootstrap(items, Subscribed(items, Log(s.g.sent, s.p)[..s.read])), {})
    && s.streams == Streams.EMPTY && s.up == []
  }

  function Subscribed(items: seq<Presence>, log: seq<Msg>): set<BackendId> {
    set i | 0 <= i < |items| && Belief(log, items[i].backendId).Some? :: items[i].backendId
  }

  /** A stream is open only while the client has read that its backend is subscribed. */
  ghost predicate StreamsFollow(streams: Streams.Manager, read: seq<Msg>) {
    && Streams.Valid(streams)
    && forall key :: key in streams.streams && streams.streams[key].state.Open? ==> Belief(read, key.backendId).Some?
  }

  ghost predicate StreamsOk(s: System) {
    s.read <= |Log(s.g.sent, s.p)| && StreamsFollow(s.streams, Log(s.g.sent, s.p)[..s.read])
  }

  ghost predicate SystemOk(s: System) {
    Inv(s.g) && IsOpen(s.g.peers, s.p) && ClientOk(s.client, Log(s.g.sent, s.p), s.read, s.up) && StreamsOk(s)
  }

  // ---------------------------------------------------------------- the start

  /** A reader is only ever subscribed to backends it has been shown, at the epoch shown. */
  lemma {:induction false} BeliefShown(log: seq<Msg>, granted: map<Epoch, (BackendId, PeerId)>)
    requires GoodLog(log, granted)
    ensures Consistent(log, LogRegistry(log))
  {
    if log != [] {
      BeliefShown(Front(log), granted);
    }
  }

  lemma {:induction false} DefaultsListed(items: seq<Presence>, before: Store.Records)
    requires Store.DistinctIds(items)
    ensures Store.UpsertDefaults(before, items).Keys == before.Keys + Store.Ids(items)
    ensures forall b :: b in before && b !in Store.Ids(items) ==> Store.UpsertDefaults(before, items)[b] == before[b]
    ensures forall i :: 0 <= i < |items| ==>
              Store.UpsertDefaults(before, items)[items[i].backendId] == Store.DefaultRecord(items[i])
    decreases |items|
  {
    if items != [] {
      var rest := items[1..];
      assert forall i :: 0 <= i < |rest| ==> rest[i] == items[i + 1];
      Store.IdsStep(items);
      DefaultsListed(rest, before[items[0].backendId := Store.DefaultRecord(items[0])]);
      assert items[0].backendId !in Store.Ids(rest);
      forall i | 0 <= i < |items|
        ensures Store.UpsertDefaults(before, items)[items[i].backendId] == Store.DefaultRecord(items[i])
      {
        if i > 0 { assert items[i] == rest[i - 1]; }
      }
    }
  }

  lemma BootstrapRecord(items: seq<Presence>, registry: map<BackendId, Presence>, log: seq<Msg>, b: BackendId)
    requires Store.ListsRegistry(items, registry)
    ensures var records := Store.Bootstrap(items, Subscribed(items, log));
            && (b in records <==> b in registry)
            && (b in registry ==>
                  records[b] == if Belief(log, b).Some?
                                then Store.Updated(Store.DefaultRecord(registry[b]).(subscribed := true, openState := Store.Open))
                                else Store.DefaultRecord(registry[b]))
  {
    hide Belief, Store.DefaultRecord, Store.Updated, Store.UpsertDefaults;
    DefaultsListed(items, map[]);
    Store.ListedIds(items, registry);
    if b in registry {
      var i :| 0 <= i < |items| && items[i].backendId == b;
    }
  }

  /** The bootstrap records agree with what the reader of the log's first k messages believes. */
  lemma BootstrapCore(items: seq<Presence>, log: seq<Msg>, k: nat)
    requires 0 < k <= |log| && Store.ListsRegistry(items, LogRegistry(log[..k]))
    requires Consistent(log[..k], LogRegistry(log[..k]))
    ensures Core(Store.Bootstrap(items, Subscribed(items, log[..k])), log, k, [])
  {
    hide Store.Bootstrap, Store.ListsRegistry, LogRegistry, Belief, Subscribed;
    var read := log[..k];
    var registry := LogRegistry(read);
    var records := Store.Bootstrap(items, Subscribed(items, read));
    forall b
      ensures RecordMirrors(Lookup(records, b), Lookup(registry, b))
      ensures IsSubscribed(records, b) <==> b in registry && Belief(read, b).Some?
      ensures IsSubscribed(records, b) ==> records[b].currentEpoch.Some? && Belief(read, b) == records[b].currentEpoch
    {
      BootstrapRecord(items, registry, read, b);
    }
  }

  lemma StartOk(s: System, items: seq<Presence>)
    requires Inv(s.g) && Start(s, items)
    ensures SystemOk(s)
  {
    hide Inv, Reachable, Store.Bootstrap, Store.ListsRegistry, LogRegistry, Belief, Subscribed, GoodLog, Core;
    var log := Log(s.g.sent, s.p);
    LogIsGood(s.g, s.p);
    GoodPrefix(log, s.g.granted, s.read);
    BeliefShown(log[..s.read], s.g.granted);
    BootstrapCore(items, log, s.read);
  }

  lemma VacateConnects(g: State, b: BackendId)
    ensures Vacate(g, b).peers.Keys == g.peers.Keys
  {
    hide Deliver, Put, Count, Subs;
  }

  lemma GreetedBackend(g: State, p: PeerId, h: BackendHello, now: Time)
    requires p !in g.peers
    ensures var g' := HelloBackend(g, p, h, now);
            && IsOpen(g'.peers, p)
            && Log(g'.sent, p) == [PeerReady(p, Some(Grant(ClaimedBackend(g, h), g.identities.maxEpoch + 1)), g'.registry)]
  {
    hide HelloBackend, Deliver, NewPresence, ClaimedBackend, Vacate;
    VacateConnects(g, ClaimedBackend(g, h));
    HelloBackendParts(g, p, h, now);
    HelloBackendSent(g, p, h, now);
  }

  lemma GreetedClient(g: State, p: PeerId)
    ensures var g' := HelloClient(g, p);
            && IsOpen(g'.peers, p) && Log(g'.sent, p) == [PeerReady(p, None, g'.registry)]
  {
    assert [] + [PeerReady(p, None, g.registry)] == [PeerReady(p, None, g.registry)];
  }

  /** The peer that a hello connects, and what it has been written. */
  lemma GreetedLog(g: State, ev: Event)
    requires Inv(g) && Enabled(g, ev) && (ev.EvHelloClient? || ev.EvHelloBackend?)
    ensures var g' := Step(g, ev);
            && IsOpen(g'.peers, ev.p)
            && exists grant :: Log(g'.sent, ev.p) == [PeerReady(ev.p, grant, g'.registry)]
  {
    hide Inv, HelloBackend, HelloClient;
    match ev
    case EvHelloClient(p) => GreetedClient(g, p);
    case EvHelloBackend(p, h, now) =>
      NeverConnected(g, p);
      GreetedBackend(g, p, h, now);
  }

  lemma NeverConnected(g: State, p: PeerId)
    requires Inv(g) && p !in g.sent
    ensures p !in g.peers
  {
  }

  lemma GreetingFolds(greeting: Msg)
    requires greeting.PeerReady?
    ensures LogRegistry([greeting]) == greeting.items && forall b :: Belief([greeting], b) == None
  {
    assert [greeting] == [] + [greeting];
    Appended([], greeting);
  }

  /** Any newly connected peer that has read its greeting and lists the registry it shows is at a start. */
  lemma GreetingStarts(g: State, ev: Event, items: seq<Presence>)
    requires Reachable(g) && Enabled(g, ev) && (ev.EvHelloClient? || ev.EvHelloBackend?)
    requires Store.ListsRegistry(items, Step(g, ev).registry)
    ensures Start(System(Step(g, ev), ev.p, Client(Store.Bootstrap(items, {}), {}), Streams.EMPTY, 1, []), items)
  {
    hide Step, Enabled, Inv, Reachable, Store.Bootstrap, Store.ListsRegistry, Belief, LogRegistry;
    var g' := Step(g, ev);
    ReachableInv(g);
    ReachableStep(g, ev);
    GreetedLog(g, ev);
    var grant :| Log(g'.sent, ev.p) == [PeerReady(ev.p, grant, g'.registry)];
    var read := Log(g'.sent, ev.p)[..1];
    assert read == [PeerReady(ev.p, grant, g'.registry)];
    GreetingFolds(PeerReady(ev.p, grant, g'.registry));
    assert Subscribed(items, read) == {};
  }

  lemma LogIsGood(g: State, p: PeerId)
    requires Inv(g) && IsOpen(g.peers, p)
    ensures p in g.sent && GoodLog(Log(g.sent, p), g.granted) && Readable(Log(g.sent, p))
    ensures LogRegistry(Log(g.sent, p)) == g.registry && !Unsettled(Log(g.sent, p))
    ensures forall b :: Belief(Log(g.sent, p), b) == Listed(g.subscriptions, g.leases, p, b)
    ensures g.registry.Keys == g.leases.Keys
    ensures forall b :: b in g.registry ==> g.registry[b].epoch == g.leases[b].epoch
  {
    hide Mirrored, Counted, GrantsOk, IdentitiesOk, ProxyOk, DemandTold, GoodLog, Belief, LogRegistry, Unsettled,
         Readable;
    GoodIsReadable(Log(g.sent, p), g.granted);
  }

  // ---------------------------------------------------------------- one action

  lemma StaysOpen(g: State, p: PeerId, x: Request)
    requires IsOpen(g.peers, p) && p in g.sent
    ensures IsOpen(Step(g, RequestEvent(p, x)).peers, p)
    ensures Enabled(g, RequestEvent(p, x))
  {
    hide Subscribe, Unsubscribe;
    match x
    case Sub(b) =>
      if b in g.registry && b in g.leases { SubscribeLog(g, p, b, p); } else { RefusedSubscribe(g, p, b); }
    case Unsub(b) => UnsubscribeLog(g, p, b, p);
  }

  lemma GatewayReadsOk(s: System)
    requires SystemOk(s) && CanAct(s, GatewayReads)
    ensures SystemOk(Act(s, GatewayReads))
  {
    hide Inv, Step, Progress, Mirrors, Believed, Recorded, Readable, Unsettled, LogRegistry, Belief, GoodLog;
    var ev := RequestEvent(s.p, s.up[0]);
    var g' := Step(s.g, ev);
    var log := Log(s.g.sent, s.p);
    var log' := Log(g'.sent, s.p);
    StaysOpen(s.g, s.p, s.up[0]);
    LogIsGood(s.g, s.p);
    StepKeepsInv(s.g, ev);
    LogIsGood(g', s.p);
    StepExtends(s.g, ev, s.p);
    StreamsUnread(s, ev);
    match s.up[0]
    case Sub(b) =>
      if b in s.g.registry { GrantedSubscribe(s.g, s.p, b); }
      SubKeepsClient(s.client, log, log', s.read, s.up, b);
    case Unsub(b) =>
      GrantedUnsubscribe(s.g, s.p, b, s.read);
      UnsubKeepsClient(s.client, log, log', s.read, s.up, b);
  }

  lemma GrantedSubscribe(g: State, p: PeerId, b: BackendId)
    requires b in g.registry && b in g.leases && IsOpen(g.peers, p) && p in g.sent
    ensures PendingOpen(Log(Step(g, EvSubscribe(p, b)).sent, p), |Log(g.sent, p)|, b)
  {
    hide Subscribe, Owner, Subs, Log;
    SubscribeLog(g, p, b, p);
    var log, log' := Log(g.sent, p), Log(Subscribe(g, p, b).sent, p);
    var n := if Subs(g.subscriptions, b) == {} then |Given(Owner(g.peers, g.leases, b), g.peers, p, StreamDemand(true))| else 0;
    assert OpensAt(log', |log| + n, b);
  }

  lemma GrantedUnsubscribe(g: State, p: PeerId, b: BackendId, k: nat)
    requires IsOpen(g.peers, p) && p in g.sent && k <= |Log(g.sent, p)|
    ensures PendingClose(Log(Step(g, EvUnsubscribe(p, b)).sent, p), k, b)
  {
    hide Unsubscribe, Owner, Subs, Log;
    UnsubscribeLog(g, p, b, p);
    assert ClosesAt(Log(Unsubscribe(g, p, b).sent, p), |Log(g.sent, p)|, b);
  }

  lemma GatewayStepOk(s: System, ev: Event)
    requires SystemOk(s) && CanAct(s, GatewayStep(ev))
    ensures SystemOk(Act(s, GatewayStep(ev)))
  {
    hide Inv, Step, ClientOk, Readable, Unsettled, LogRegistry, Belief, GoodLog, Extends;
    LogIsGood(s.g, s.p);
    StepKeepsInv(s.g, ev);
    LogIsGood(Step(s.g, ev), s.p);
    StepExtends(s.g, ev, s.p);
    ForeignKeepsClient(s.client, Log(s.g.sent, s.p), Log(Step(s.g, ev).sent, s.p), s.read, s.up);
    StreamsUnread(s, ev);
  }

  /** What the client has read does not change when the gateway writes more. */
  lemma StreamsUnread(s: System, ev: Event)
    requires StreamsOk(s) && Enabled(s.g, ev) && s.p in s.g.sent
    ensures StreamsOk(s.(g := Step(s.g, ev)))
  {
    hide Step, Enabled, StreamsFollow;
    StepExtends(s.g, ev, s.p);
    var log, log' := Log(s.g.sent, s.p), Log(Step(s.g, ev).sent, s.p);
    assert log'[..s.read] == log[..s.read];
  }

  // ---------------------------------------------------------------- streams

  /** Only a patch or a run event opens a stream, and only its own. */
  lemma OnlyArrivalsOpen(c: Streams.Cell, op: Streams.Op, key: Streams.Key)
    ensures Streams.React(c, op, key).stream.Some? && Streams.React(c, op, key).stream.value.state.Open? ==>
              || (c.stream.Some? && c.stream.value.state.Open?)
              || ((op.PatchArrived? || op.RunArrived?) && op.key == key)
  {
  }

  /** Operations that open no stream, or only streams of a subscribed backend. */
  lemma StreamsStep(streams: Streams.Manager, read: seq<Msg>, op: Streams.Op)
    requires StreamsFollow(streams, read)
    requires op.PatchArrived? || op.RunArrived? ==> Belief(read, op.key.backendId).Some?
    ensures StreamsFollow(Streams.Step(streams, op), read)
  {
    hide Streams.Step, Streams.React, Belief, Streams.Valid;
    var streams' := Streams.Step(streams, op);
    Streams.StepKeepsValid(streams, op);
    forall key | key in streams'.streams && streams'.streams[key].state.Open? ensures Belief(read, key.backendId).Some? {
      Streams.StepAt(streams, op, key);
      OnlyArrivalsOpen(Streams.At(streams, key), op, key);
    }
  }

  lemma StreamsLose(streams: Streams.Manager, read: seq<Msg>, m: Msg, willAutoRecover: bool, now: Time)
    requires StreamsFollow(streams, read) && m.BackendUnsubscribed?
    ensures StreamsFollow(Streams.Step(streams, Streams.Unsubscribed(m.backendId, ReasonText(m.reason), willAutoRecover, now)),
                          read + [m])
  {
    hide Streams.Step, Belief, Streams.Valid;
    var op := Streams.Unsubscribed(m.backendId, ReasonText(m.reason), willAutoRecover, now);
    var streams' := Streams.Step(streams, op);
    Streams.StepKeepsValid(streams, op);
    Appended(read, m);
    forall key | key in streams'.streams && streams'.streams[key].state.Open? ensures Belief(read + [m], key.backendId).Some? {
      Streams.StepAt(streams, op, key);
    }
  }

  /** A message that ends no subscription keeps the open streams' backends subscribed. */
  lemma StreamsKeep(streams: Streams.Manager, read: seq<Msg>, m: Msg)
    requires StreamsFollow(streams, read) && !m.BackendUnsubscribed?
    ensures StreamsFollow(streams, read + [m])
  {
    hide Belief, Streams.Valid;
    Appended(read, m);
  }

  lemma StreamsRead(c: Client, m: Msg, arrival: Arrival, streams: Streams.Manager, read: seq<Msg>)
    requires StreamsFollow(streams, read) && (m.Relayed? ==> Belief(read, m.backendId).Some?)
    ensures StreamsFollow(Streamed(c, m, arrival, streams), read + [m])
  {
    hide StreamsFollow, Streams.Step, Absorb, Belief;
    if m.BackendUnsubscribed? {
      StreamsLose(streams, read, m, m.backendId !in c.records || Present(c.records, m.backendId), arrival.now);
    } else {
      StreamsKeep(streams, read, m);
      Appended(read, m);
      if m.Relayed? {
        var b := m.backendId;
        StreamsStep(streams, read + [m], Streams.BecameReady(b, arrival.now));
        StreamsStep(streams, read + [m], Streams.PatchArrived(Streams.Key(b, arrival.session), arrival.offset, arrival.now));
        StreamsStep(streams, read + [m], Streams.RunArrived(Streams.Key(b, arrival.session), arrival.now));
      }
    }
  }

  lemma RelaySubscribed(g: State, p: PeerId, k: nat)
    requires Inv(g) && IsOpen(g.peers, p) && k < |Log(g.sent, p)| && Log(g.sent, p)[k].Relayed?
    ensures Belief(Log(g.sent, p)[..k], Log(g.sent, p)[k].backendId).Some?
  {
    hide Inv, GoodLog, Belief, Readable;
    LogIsGood(g, p);
    GoodPrefix(Log(g.sent, p), g.granted, k);
  }

  /** Whatever the client does keeps its streams in line with what it has read. */
  lemma ClientKeepsStreams(s: System, a: Action)
    requires SystemOk(s) && CanAct(s, a) && !a.GatewayStep? && !a.GatewayReads?
    ensures StreamsOk(Act(s, a))
  {
    hide Inv, ClientOk, StreamsFollow, Streams.Step, Streamed, Handle, ReadsInOrder, Belief, OpenBackend, CloseBackend;
    var log := Log(s.g.sent, s.p);
    var read := log[..s.read];
    match a
    case ClientReads(_, arrival) =>
      var m := Unread(s)[0];
      assert m == log[s.read] && log[..s.read + 1] == read + [m];
      if m.Relayed? { RelaySubscribed(s.g, s.p, s.read); }
      StreamsRead(s.client, m, arrival, s.streams, read);
    case UserOpens(_) =>
    case UserCloses(b, now) => StreamsStep(s.streams, read, Streams.Unsubscribed(b, "user_closed", false, now));
    case StreamRequested(op) => StreamsStep(s.streams, read, op);
    case ClientCollects(now) => StreamsStep(s.streams, read, Streams.CollectGarbage(now));
  }

  /** Every action of the gateway, the client, its user or the queues keeps the system in order. */
  lemma ActKeepsOk(s: System, a: Action)
    requires SystemOk(s) && CanAct(s, a)
    ensures SystemOk(Act(s, a))
  {
    hide Inv, Step, ClientOk, Readable, Unsettled, LogRegistry, Belief, GoodLog, Handle, ReadsInOrder, OpenBackend,
         CloseBackend, StreamsOk, Streamed, StreamsClosed, Streams.Step;
    var log := Log(s.g.sent, s.p);
    if !a.GatewayStep? && !a.GatewayReads? { ClientKeepsStreams(s, a); }
    match a
    case GatewayStep(ev) => GatewayStepOk(s, ev);
    case GatewayReads => GatewayReadsOk(s);
    case ClientReads(order, _) =>
      LogIsGood(s.g, s.p);
      ReadKeepsClient(s.client, log, s.read, s.up, order);
    case UserOpens(b) => OpenKeepsClient(s.client, log, s.read, s.up, b);
    case UserCloses(b, _) => CloseKeepsClient(s.client, log, s.read, s.up, b);
    case StreamRequested(_) =>
    case ClientCollects(_) => CollectKeepsClient(s.client, log, s.read, s.up);
  }

  lemma {:induction false} RunKeepsOk(s: System, actions: seq<Action>)
    requires SystemOk(s) && CanRun(s, actions)
    ensures SystemOk(Run(s, actions))
    decreases |actions|
  {
    hide SystemOk, CanAct, Act;
    if actions != [] {
      ActKeepsOk(s, actions[0]);
      RunKeepsOk(Act(s, actions[0]), actions[1..]);
    }
  }

  // ---------------------------------------------------------------- main results

  /** What the client's records become once it has read everything written to it. */
  function CaughtUp(records: Store.Records, log: seq<Msg>): Store.Records
    decreases |log|
  {
    if log == [] then records else CaughtUp(Absorb(records, log[0]), log[1..])
  }

  lemma {:induction false} CatchUpKeepsCore(records: Store.Records, log: seq<Msg>, k: nat, up: seq<Request>)
    requires Core(records, log, k, up) && Readable(log)
    ensures Core(CaughtUp(records, log[k..]), log, |log|, up)
    decreases |log| - k
  {
    hide Absorb, Readable, Mirrors, Believed, Recorded;
    if k < |log| {
      ConsumeCore(records, log, k, up);
      CatchUpKeepsCore(Absorb(records, log[k]), log, k + 1, up);
      assert log[k..][0] == log[k] && log[k..][1..] == log[k + 1..];
    }
  }

  /** The gateway and a client's records agree about b. */
  ghost predicate AgreeOn(g: State, p: PeerId, records: Store.Records, b: BackendId) {
    && (IsSubscribed(records, b) <==> p in Subs(g.subscriptions, b))
    && (b in g.registry ==> b in g.leases && b in records && records[b].presence == Some(g.registry[b])
                            && records[b].currentEpoch == Some(g.leases[b].epoch))
    && (b !in g.registry ==> !Present(records, b))
  }

  lemma CoreAgrees(g: State, p: PeerId, records: Store.Records, up: seq<Request>, b: BackendId)
    requires Inv(g) && IsOpen(g.peers, p) && Core(records, Log(g.sent, p), |Log(g.sent, p)|, up) && Unsub(b) !in up
    ensures AgreeOn(g, p, records, b)
  {
    hide LogRegistry, Belief, Readable, GoodLog, Unsettled;
    var log := Log(g.sent, p);
    LogIsGood(g, p);
    assert log[..|log|] == log;
    MirrorsAt(records, g.registry, b);
    SubscribersLeased(g, p, b);
    assert Belief(log, b) == Listed(g.subscriptions, g.leases, p, b);
    hide Mirrors, Inv;
  }

  lemma SubscribersLeased(g: State, p: PeerId, b: BackendId)
    requires Inv(g)
    ensures p in Subs(g.subscriptions, b) ==> b in g.leases
  {
  }

  lemma RunOk(s: System, items: seq<Presence>, actions: seq<Action>)
    requires Start(s, items) && CanRun(s, actions)
    ensures SystemOk(Run(s, actions))
  {
    hide SystemOk, CanRun, Reachable, Store.Bootstrap, Store.ListsRegistry, Run;
    ReachableInv(s.g);
    StartOk(s, items);
    RunKeepsOk(s, actions);
  }

  /**
   * End-to-end agreement: at every moment of every run, either an unsubscribe of b is still in flight, or
   * folding the unread messages into the client's records gives the gateway's subscription, presence and epoch of b.
   */
  lemma Agreement(s: System, items: seq<Presence>, actions: seq<Action>, b: BackendId)
    requires Start(s, items) && CanRun(s, actions)
    ensures var t := Run(s, actions);
            Unsub(b) in t.up || AgreeOn(t.g, t.p, CaughtUp(t.client.records, Unread(t)), b)
  {
    hide Inv, Start, CanRun, Run, CaughtUp, AgreeOn, Readable, LogRegistry, GoodLog, Unsettled, Belief, Progress,
         Mirrors, Believed, Recorded;
    RunOk(s, items, actions);
    var t := Run(s, actions);
    LogIsGood(t.g, t.p);
    CatchUpKeepsCore(t.client.records, Log(t.g.sent, t.p), t.read, t.up);
    if Unsub(b) !in t.up {
      CoreAgrees(t.g, t.p, CaughtUp(t.client.records, Unread(t)), t.up, b);
    }
  }

  /** Nothing is in flight in either direction. */
  predicate Drained(s: System) {
    s.up == [] && s.read == |Log(s.g.sent, s.p)|
  }

  /** With both queues empty the two sides agree about every backend. */
  lemma DrainedAgreement(s: System, items: seq<Presence>, actions: seq<Action>)
    requires Start(s, items) && CanRun(s, actions) && Drained(Run(s, actions))
    ensures var t := Run(s, actions); forall b :: AgreeOn(t.g, t.p, t.client.records, b)
  {
    hide Start, CanRun, Run, AgreeOn;
    var t := Run(s, actions);
    forall b ensures AgreeOn(t.g, t.p, t.client.records, b) {
      Agreement(s, items, actions, b);
      assert Unread(t) == [];
    }
  }

  lemma NothingUnread(log: seq<Msg>, b: BackendId)
    ensures !PendingOpen(log, |log|, b) && !PendingLoss(log, |log|, b) && !PendingSnapshot(log, |log|)
  {
  }

  /** In an orderly drained state every backend that is open and registered is subscribed on both sides. */
  ghost predicate Converged(s: System, b: BackendId) {
    && IsSubscribed(s.client.records, b)
    && s.p in Subs(s.g.subscriptions, b)
    && b in s.g.leases && s.client.records[b].currentEpoch == Some(s.g.leases[b].epoch)
  }

  lemma DrainedConverges(s: System, b: BackendId)
    requires SystemOk(s) && Drained(s) && b in s.client.desired && b in s.g.registry
    ensures Converged(s, b)
  {
    hide Inv, Core, PendingOpen, PendingLoss, PendingSnapshot, Reopening, Resubscribing, StreamsOk;
    CoreAgrees(s.g, s.p, s.client.records, s.up, b);
    NothingUnread(Log(s.g.sent, s.p), b);
    assert Tended(s.client.records[b], Log(s.g.sent, s.p), s.read, s.up, b);
  }

  /**
   * Convergence: whatever happened before, once both queues are empty every backend the user has open
   * and the registry shows is subscribed on both sides.
   */
  lemma Convergence(s: System, items: seq<Presence>, actions: seq<Action>, b: BackendId)
    requires Start(s, items) && CanRun(s, actions) && Drained(Run(s, actions))
    requires b in Run(s, actions).client.desired && b in Run(s, actions).g.registry
    ensures Converged(Run(s, actions), b)
  {
    hide SystemOk, Start, CanRun, Run, Converged;
    RunOk(s, items, actions);
    DrainedConverges(Run(s, actions), b);
  }

  /**
   * Streams: in every run an open stream's backend is subscribed in what the client has read, so it is
   * subscribed in the client's records or an unsubscribe of it is in flight; drained, the gateway lists the client.
   */
  lemma OpenStreamsSubscribed(s: System, items: seq<Presence>, actions: seq<Action>, key: Streams.Key)
    requires Start(s, items) && CanRun(s, actions)
    requires var m := Run(s, actions).streams; key in m.streams && m.streams[key].state.Open?
    ensures var t := Run(s, actions);
            var log := Log(t.g.sent, t.p);
            && t.read <= |log| && Belief(log[..t.read], key.backendId).Some?
            && (IsSubscribed(t.client.records, key.backendId) || Unsub(key.backendId) in t.up
                || PendingClose(log, t.read, key.backendId))
            && (Drained(t) ==> t.p in Subs(t.g.subscriptions, key.backendId))
  {
    hide Inv, Start, CanRun, Run, Progress, Mirrors, Believed, Belief, Streams.Valid, PendingClose, GoodLog, Readable,
         Unsettled, LogRegistry;
    RunOk(s, items, actions);
    var t := Run(s, actions);
    LogIsGood(t.g, t.p);
    var log := Log(t.g.sent, t.p);
    assert log[..|log|] == log;
  }

  /** Every stream of b the user wants is open or on its way. */
  ghost predicate Resumed(m: Streams.Manager, b: BackendId) {
    forall key :: key in m.desired && key.backendId == b && m.desired[key].shouldBeOpen && m.desired[key].autoResume ==>
      key in m.streams && (m.streams[key].state.Open? || m.streams[key].state.Opening?)
  }

  lemma ReadyResumes(m: Streams.Manager, b: BackendId, now: Time)
    ensures Resumed(Streams.Step(m, Streams.BecameReady(b, now)), b)
  {
    hide Streams.Step;
    var m' := Streams.Step(m, Streams.BecameReady(b, now));
    forall key | key in m'.desired && key.backendId == b && m'.desired[key].shouldBeOpen && m'.desired[key].autoResume
      ensures key in m'.streams && (m'.streams[key].state.Open? || m'.streams[key].state.Opening?)
    {
      Streams.StepAt(m, Streams.BecameReady(b, now), key);
    }
  }

  /** Only a visible backend is subscribed in the client's records. */
  lemma SubscribedVisible(records: Store.Records, log: seq<Msg>, k: nat, up: seq<Request>, b: BackendId)
    requires Core(records, log, k, up) && Consistent(log[..k], LogRegistry(log[..k])) && IsSubscribed(records, b)
    ensures Present(records, b)
  {
    hide LogRegistry, Belief, Recorded;
    assert RecordMirrors(Lookup(records, b), Lookup(LogRegistry(log[..k]), b));
  }

  lemma InitializedReady(c: Client, m: Msg)
    requires m.Relayed? && m.kind.DataSnapshot? && Present(c.records, m.backendId) && IsSubscribed(c.records, m.backendId)
    ensures var r := Lookup(Absorb(c.records, m), m.backendId); r.Some? && r.value.runtimeState.Ready? && r.value.subscribed
  {
  }

  /**
   * Resuming: in every run, reading the data snapshot of a subscribed backend makes its record ready and leaves every
   * stream of it that the user wants open or on its way.
   */
  lemma DataResumesStreams(s: System, items: seq<Presence>, actions: seq<Action>, a: Action)
    requires Start(s, items) && CanRun(s, actions) && CanAct(Run(s, actions), a) && a.ClientReads?
    requires var m := Unread(Run(s, actions))[0];
             m.Relayed? && m.kind.DataSnapshot? && IsSubscribed(Run(s, actions).client.records, m.backendId)
    ensures var b, t := Unread(Run(s, actions))[0].backendId, Act(Run(s, actions), a);
            && b in t.client.records && t.client.records[b].runtimeState.Ready?
            && Resumed(t.streams, b)
  {
    hide Inv, Start, CanRun, Run, Mirrors, Believed, Recorded, Progress, StreamsOk, GoodLog, Readable, LogRegistry,
         Belief, Absorb, Streams.Step, Resumed, ReadsInOrder, Consistent;
    var t := Run(s, actions);
    var m := Unread(t)[0];
    var log := Log(t.g.sent, t.p);
    RunOk(s, items, actions);
    LogIsGood(t.g, t.p);
    GoodPrefix(log, t.g.granted, t.read);
    BeliefShown(log[..t.read], t.g.granted);
    SubscribedVisible(t.client.records, log, t.read, t.up, m.backendId);
    InitializedReady(t.client, m);
    ReadyResumes(t.streams, m.backendId, a.arrival.now);
  }

  /**
   * End-to-end fencing: a broadcast relay the client reads for b comes from the peer that was granted
   * the epoch the client's record of b shows.
   */
  lemma ReadsFenced(s: System, items: seq<Presence>, actions: seq<Action>)
    requires Start(s, items) && CanRun(s, actions)
    requires Unread(Run(s, actions)) != [] && Unread(Run(s, actions))[0].Relayed?
    ensures var t := Run(s, actions);
            var m := Unread(t)[0];
            IsSubscribed(t.client.records, m.backendId) ==>
              && t.client.records[m.backendId].currentEpoch.Some?
              && Lookup(t.g.granted, t.client.records[m.backendId].currentEpoch.value) == Some((m.backendId, m.sender))
  {
    hide Inv, Start, CanRun, Run, Mirrors, Recorded, Progress, GoodLog, Readable, LogRegistry, Belief;
    var t := Run(s, actions);
    RunOk(s, items, actions);
    LogIsGood(t.g, t.p);
    GoodPrefix(Log(t.g.sent, t.p), t.g.granted, t.read);
  }
}
