/**
 * The invariant of the gateway: its indexes agree with each other and with what has been written to
 * every connection.  Each part is a predicate over the components it reads.
 */
module GatewayInvariants {
  import opened Options
  import opened Storage
  import opened Gateway
  import opened GatewayLogs

  type Peers = map<PeerId, Peer>
  type Leases = map<BackendId, Lease>
  type Registry = map<BackendId, Presence>
  type Subscriptions = map<BackendId, set<PeerId>>
  type Demands = map<BackendId, Demand>
  type Sent = map<PeerId, seq<Msg>>
  type Granted = map<Epoch, (BackendId, PeerId)>

  /** The subscription index and the per-peer sets say the same. */
  ghost predicate Mirrored(subscriptions: Subscriptions, peers: Peers) {
    forall b, p :: p in Subs(subscriptions, b) <==> p in peers && b in peers[p].subscribed
  }

  /** No empty subscriber set is kept, and the demand counters count the subscribers. */
  ghost predicate Counted(subscriptions: Subscriptions, demand: Demands) {
    && (forall b :: b in subscriptions ==> subscriptions[b] != {} && b in demand)
    && (forall b :: b in demand ==> demand[b] == DemandOf(Subs(subscriptions, b)))
  }

  ghost predicate SubscriptionsOk(subscriptions: Subscriptions, peers: Peers, demand: Demands) {
    Mirrored(subscriptions, peers) && Counted(subscriptions, demand)
  }

  /** Leases, registry and demand have the same keys and epochs, and leases name connected peers. */
  ghost predicate LeasesOk(peers: Peers, leases: Leases, registry: Registry, demand: Demands) {
    && demand.Keys == leases.Keys == registry.Keys
    && (forall b :: b in registry ==> registry[b].backendId == b && registry[b].epoch == leases[b].epoch)
    && (forall b :: b in leases ==> leases[b].owner in peers)
  }

  /** A peer carries (b, e) iff it holds b's lease at e. */
  ghost predicate GrantsOk(peers: Peers, leases: Leases, except: set<PeerId>) {
    && (forall p {:trigger IsOwner(peers, leases, p)} ::
          p in peers && p !in except && peers[p].grant.Some? ==> IsOwner(peers, leases, p))
    && (forall b :: b in leases && leases[b].owner in peers ==>
          leases[b].owner !in except && peers[leases[b].owner].grant == Some(Grant(b, leases[b].epoch)))
  }

  /** The stored identities match the registry, and epochs are the ones handed out. */
  ghost predicate IdentitiesOk(identities: Identities, registry: Registry, leases: Leases, granted: Granted) {
    && Storage.Valid(identities)
    && (forall b :: b in registry ==> Lookup(identities.instances, registry[b].instanceId) == Some(b))
    && (forall b :: b in leases ==> Lookup(granted, leases[b].epoch) == Some((b, leases[b].owner)))
    && (forall e :: e in granted ==> e <= identities.maxEpoch)
  }

  /** A request is in at most one table, and a pending one names a backend that holds a lease. */
  ghost predicate ProxyOk(proxy: Proxy, leases: Leases) {
    && proxy.pending.Keys !! proxy.streaming.Keys
    && proxy.pending.Keys !! proxy.settled.Keys
    && proxy.streaming.Keys !! proxy.settled.Keys
    && (forall r :: r in proxy.pending ==> proxy.pending[r] in leases)
    && (forall r :: r in proxy.streaming ==> proxy.streaming[r] in leases)
  }

  /** `except` holds a peer in the middle of leaving: it may still carry a grant whose lease is gone. */
  ghost predicate IndexesOk(g: State, except: set<PeerId>) {
    && SubscriptionsOk(g.subscriptions, g.peers, g.demand)
    && LeasesOk(g.peers, g.leases, g.registry, g.demand)
    && GrantsOk(g.peers, g.leases, except)
    && IdentitiesOk(g.identities, g.registry, g.leases, g.granted)
    && ProxyOk(g.proxy, g.leases)
    && g.peers.Keys <= g.sent.Keys
  }

  /** The epoch under which the gateway lists q as a subscriber of b. */
  function Listed(subscriptions: Subscriptions, leases: Leases, q: PeerId, b: BackendId): Option<Epoch> {
    if q in Subs(subscriptions, b) && b in leases then Some(leases[b].epoch) else None
  }

  /** Every connected reader believes exactly the subscriptions the gateway lists for it. */
  ghost predicate BeliefsOk(peers: Peers, subscriptions: Subscriptions, leases: Leases, sent: Sent) {
    forall q, b :: IsOpen(peers, q) ==> Belief(Log(sent, q), b) == Listed(subscriptions, leases, q, b)
  }

  /** Every connected reader has been shown the current registry. */
  ghost predicate RegistryShown(peers: Peers, registry: Registry, sent: Sent, except: set<PeerId>) {
    forall q :: IsOpen(peers, q) && q !in except ==>
      LogRegistry(Log(sent, q)) == registry && !Unsettled(Log(sent, q))
  }

  /** Every connected owner has been told whether its backend has subscribers. */
  ghost predicate DemandTold(peers: Peers, leases: Leases, subscriptions: Subscriptions, sent: Sent,
                             except: set<BackendId>) {
    forall q :: IsOpen(peers, q) && IsOwner(peers, leases, q) && peers[q].grant.value.backendId !in except ==>
      DemandView(Log(sent, q)) == (Subs(subscriptions, peers[q].grant.value.backendId) != {})
  }

  /** Everything ever written, on any connection, was fit to be written. */
  ghost predicate HistoryOk(sent: Sent, granted: Granted) {
    forall q :: q in sent ==> sent[q] != [] && GoodLog(sent[q], granted)
  }

  ghost predicate LogsOk(g: State, except: set<PeerId>) {
    && BeliefsOk(g.peers, g.subscriptions, g.leases, g.sent)
    && RegistryShown(g.peers, g.registry, g.sent, except)
    && DemandTold(g.peers, g.leases, g.subscriptions, g.sent, {})
    && HistoryOk(g.sent, g.granted)
  }

  ghost predicate Inv(g: State) {
    IndexesOk(g, {}) && LogsOk(g, {})
  }
}

/** How sending moves the log part of the invariant. */
module GatewaySending {
  import opened Options
  import opened Storage
  import opened Gateway
  import opened GatewayLogs
  import opened GatewayInvariants

  /** Does a message to `targets` reach q? */
  predicate Reaches(sent: Sent, peers: Peers, targets: set<PeerId>, q: PeerId) {
    q in sent && q in targets && IsOpen(peers, q)
  }

  /** One more message, on the folds of one connection. */
  lemma Delivered(sent: Sent, peers: Peers, targets: set<PeerId>, m: Msg, q: PeerId)
    ensures var log := Log(sent, q);
            var log' := Log(Deliver(sent, peers, targets, m), q);
            if Reaches(sent, peers, targets, q) then
              && log' == log + [m]
              && (forall b :: Belief(log', b) == BeliefAfter(Belief(log, b), m, b))
              && LogRegistry(log') == (if m.RegistrySnapshot? || m.PeerReady? then m.items else LogRegistry(log))
              && DemandView(log') == (if m.StreamDemand? || m.HeartbeatAck? then m.active else DemandView(log))
              && (Unsettled(log') <==> !m.RegistrySnapshot? &&
                                       ((m.BackendUnsubscribed? && m.reason != ClientUnsubscribed) || Unsettled(log)))
            else log' == log
  {
  }

  lemma DeliverHistory(sent: Sent, granted: Granted, peers: Peers, targets: set<PeerId>, m: Msg)
    requires HistoryOk(sent, granted)
    requires forall q :: Reaches(sent, peers, targets, q) ==> GoodNext(Log(sent, q), m, granted)
    requires m.RegistrySnapshot? ==> forall q :: Reaches(sent, peers, targets, q) ==> Consistent(Log(sent, q), m.items)
    ensures HistoryOk(Deliver(sent, peers, targets, m), granted)
  {
    var sent' := Deliver(sent, peers, targets, m);
    forall q | q in sent' ensures sent'[q] != [] && GoodLog(sent'[q], granted) {
      assert Log(sent, q) == sent[q];
      if Reaches(sent, peers, targets, q) { Appended(sent[q], m); }
    }
  }

  /** A message about no subscription leaves every belief alone. */
  lemma DeliverBeliefs(peers: Peers, subscriptions: Subscriptions, leases: Leases, sent: Sent, targets: set<PeerId>,
                       m: Msg)
    requires BeliefsOk(peers, subscriptions, leases, sent)
    requires !m.BackendSubscribed? && !m.BackendUnsubscribed?
    ensures BeliefsOk(peers, subscriptions, leases, Deliver(sent, peers, targets, m))
  {
  }

  /** A message about no registry and no taken-away subscription leaves the shown registry alone. */
  lemma DeliverRegistry(peers: Peers, registry: Registry, sent: Sent, targets: set<PeerId>, m: Msg, except: set<PeerId>)
    requires RegistryShown(peers, registry, sent, except)
    requires !m.RegistrySnapshot? && !m.PeerReady?
    requires m.BackendUnsubscribed? ==> m.reason == ClientUnsubscribed
    ensures RegistryShown(peers, registry, Deliver(sent, peers, targets, m), except)
  {
  }

  /** A message about no demand leaves every owner's view alone. */
  lemma DeliverDemand(peers: Peers, leases: Leases, subscriptions: Subscriptions, sent: Sent, targets: set<PeerId>,
                      m: Msg, except: set<BackendId>)
    requires DemandTold(peers, leases, subscriptions, sent, except)
    requires !m.StreamDemand? && !m.HeartbeatAck?
    ensures DemandTold(peers, leases, subscriptions, Deliver(sent, peers, targets, m), except)
  {
  }

  /** Whoever a snapshot reaches has been shown the registry. */
  lemma DeliverSnapshot(peers: Peers, registry: Registry, sent: Sent, targets: set<PeerId>, except: set<PeerId>)
    requires peers.Keys <= sent.Keys
    requires peers.Keys <= targets + except || RegistryShown(peers, registry, sent, except)
    ensures RegistryShown(peers, registry, Deliver(sent, peers, targets, RegistrySnapshot(registry)), except)
  {
  }

  /** A snapshot that shows every backend somebody is subscribed to is consistent with every reader. */
  lemma SnapshotConsistent(peers: Peers, subscriptions: Subscriptions, leases: Leases, sent: Sent, items: Registry,
                           q: PeerId)
    requires BeliefsOk(peers, subscriptions, leases, sent) && IsOpen(peers, q)
    requires forall b :: b in leases && Subs(subscriptions, b) != {} ==> b in items && items[b].epoch == leases[b].epoch
    ensures Consistent(Log(sent, q), items)
  {
  }

  /** A message that is neither about a subscription, nor a registry, nor a demand. */
  predicate Plain(m: Msg) {
    !m.BackendSubscribed? && !m.BackendUnsubscribed? && !m.RegistrySnapshot? && !m.PeerReady? &&
    !m.StreamDemand? && !m.HeartbeatAck?
  }

  /** Sending a plain message keeps the invariant; a relay must be fenced. */
  lemma SendPlain(g: State, targets: set<PeerId>, m: Msg)
    requires Inv(g) && Plain(m)
    requires m.Relayed? ==> forall q :: Reaches(g.sent, g.peers, targets, q) ==> GoodNext(Log(g.sent, q), m, g.granted)
    ensures Inv(SendAll(g, targets, m))
  {
    DeliverHistory(g.sent, g.granted, g.peers, targets, m);
    DeliverBeliefs(g.peers, g.subscriptions, g.leases, g.sent, targets, m);
    DeliverRegistry(g.peers, g.registry, g.sent, targets, m, {});
    DeliverDemand(g.peers, g.leases, g.subscriptions, g.sent, targets, m, {});
  }

  /** Showing the current registry again, to anyone, keeps the invariant. */
  lemma SendRegistry(g: State, targets: set<PeerId>)
    requires Inv(g)
    ensures Inv(SendAll(g, targets, RegistrySnapshot(g.registry)))
  {
    var m := RegistrySnapshot(g.registry);
    forall q | Reaches(g.sent, g.peers, targets, q) ensures Consistent(Log(g.sent, q), g.registry) {
      SnapshotConsistent(g.peers, g.subscriptions, g.leases, g.sent, g.registry, q);
    }
    DeliverHistory(g.sent, g.granted, g.peers, targets, m);
    DeliverBeliefs(g.peers, g.subscriptions, g.leases, g.sent, targets, m);
    DeliverDemand(g.peers, g.leases, g.subscriptions, g.sent, targets, m, {});
    DeliverSnapshot(g.peers, g.registry, g.sent, targets, {});
  }
}
