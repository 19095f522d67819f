/** A peer comes in; the smaller handlers; and the invariant over all runs. */
module GatewayJoining {
  import opened Options
  import opened Storage
  import opened Gateway
  import opened GatewayLogs
  import opened GatewayInvariants
  import opened GatewaySending
  import opened GatewaySteps

  // ---------------------------------------------------------------- one more session

  lemma JoinMirrored(subscriptions: Subscriptions, peers: Peers, p: PeerId, grant: Option<Grant>)
    requires Mirrored(subscriptions, peers) && p !in peers
    ensures Mirrored(subscriptions, peers[p := Peer(true, grant, {})])
  {
  }

  lemma JoinBeliefs(peers: Peers, subscriptions: Subscriptions, leases: Leases, sent: Sent, sent': Sent, p: PeerId,
                    grant: Option<Grant>, hello: Msg)
    requires BeliefsOk(peers, subscriptions, leases, sent) && Mirrored(subscriptions, peers) && p !in peers
    requires hello.PeerReady? && sent' == sent[p := [hello]]
    ensures BeliefsOk(peers[p := Peer(true, grant, {})], subscriptions, leases, sent')
  {
  }

  lemma JoinHistory(sent: Sent, granted: Granted, p: PeerId, hello: Msg)
    requires HistoryOk(sent, granted) && hello.PeerReady?
    ensures HistoryOk(sent[p := [hello]], granted)
  {
    Appended([], hello);
    assert [] + [hello] == [hello];
  }

  /** The folds of a fresh connection's log. */
  lemma JoinedLog(sent: Sent, p: PeerId, hello: Msg)
    requires hello.PeerReady?
    ensures LogRegistry(Log(sent[p := [hello]], p)) == hello.items
    ensures !DemandView(Log(sent[p := [hello]], p)) && !Unsettled(Log(sent[p := [hello]], p))
  {
  }

  lemma JoinSent(sent: Sent, peers: Peers, p: PeerId, grant: Option<Grant>, hello: Msg)
    ensures Deliver(sent[p := []], peers[p := Peer(true, grant, {})], {p}, hello) == sent[p := [hello]]
  {
    assert [] + [hello] == [hello];
  }

  /** A session without a grant joins. */
  lemma JoinSessions(peers: Peers, leases: Leases, registry: Registry, demand: Demands, p: PeerId)
    requires p !in peers && LeasesOk(peers, leases, registry, demand)
    ensures var peers' := peers[p := Peer(true, None, {})];
            && LeasesOk(peers', leases, registry, demand)
            && (forall q :: IsOwner(peers', leases, q) <==> IsOwner(peers, leases, q))
            && (GrantsOk(peers, leases, {}) ==> GrantsOk(peers', leases, {}))
  {
  }

  lemma JoinDemand(peers: Peers, leases: Leases, subscriptions: Subscriptions, sent: Sent, p: PeerId, hello: Msg)
    requires DemandTold(peers, leases, subscriptions, sent, {})
    requires p !in peers && hello.PeerReady? && !IsOwner(peers[p := Peer(true, None, {})], leases, p)
    ensures DemandTold(peers[p := Peer(true, None, {})], leases, subscriptions, sent[p := [hello]], {})
  {
  }

  lemma HelloClientIndexes(g: State, p: PeerId)
    requires IndexesOk(g, {}) && p !in g.sent
    ensures IndexesOk(HelloClient(g, p), {})
  {
    hide Mirrored, Counted, LeasesOk, GrantsOk, IdentitiesOk, ProxyOk, BeliefsOk, RegistryShown, DemandTold, HistoryOk;
    JoinMirrored(g.subscriptions, g.peers, p, None);
    JoinSessions(g.peers, g.leases, g.registry, g.demand, p);
  }

  lemma HelloClientLogs(g: State, p: PeerId)
    requires Mirrored(g.subscriptions, g.peers) && LogsOk(g, {}) && p !in g.peers
    ensures LogsOk(HelloClient(g, p), {})
  {
    hide Mirrored, Counted, LeasesOk, GrantsOk, IdentitiesOk, ProxyOk, BeliefsOk, RegistryShown, DemandTold, HistoryOk;
    var hello := PeerReady(p, None, g.registry);
    JoinSent(g.sent, g.peers, p, None, hello);
    JoinBeliefs(g.peers, g.subscriptions, g.leases, g.sent, g.sent[p := [hello]], p, None, hello);
    JoinHistory(g.sent, g.granted, p, hello);
    JoinRegistry(g.peers, g.registry, g.sent, p, None, hello);
    JoinDemand(g.peers, g.leases, g.subscriptions, g.sent, p, hello);
  }

  lemma HelloClientKeepsInv(g: State, p: PeerId)
    requires Inv(g) && p !in g.sent
    ensures Inv(HelloClient(g, p))
  {
    hide Mirrored, Counted, LeasesOk, GrantsOk, IdentitiesOk, ProxyOk, BeliefsOk, RegistryShown, DemandTold, HistoryOk;
    HelloClientIndexes(g, p);
    HelloClientLogs(g, p);
  }

  // ---------------------------------------------------------------- taking over a backend

  /** Sessions after the previous owner lost its grant and its socket. */
  function Dethrone(peers: Peers, previous: PeerId): Peers {
    if previous in peers then peers[previous := peers[previous].(grant := None, open := false)] else peers
  }

  lemma DethroneMirrored(subscriptions: Subscriptions, peers: Peers, previous: PeerId)
    requires Mirrored(subscriptions, peers)
    ensures Mirrored(subscriptions, Dethrone(peers, previous))
  {
  }

  lemma DethroneGrants(peers: Peers, leases: Leases, b: BackendId)
    requires GrantsOk(peers, leases, {}) && b in leases
    ensures GrantsOk(Dethrone(peers, leases[b].owner), leases - {b}, {})
  {
    LoseGrants(peers, leases, b);
    var peers' := Dethrone(peers, leases[b].owner);
    forall q | q in peers' && peers'[q].grant.Some? ensures IsOwner(peers', leases - {b}, q) {
      assert IsOwner(peers, leases - {b}, q);
    }
  }

  lemma DethroneLogs(peers: Peers, leases: Leases, subscriptions: Subscriptions, sent: Sent, previous: PeerId)
    requires BeliefsOk(peers, subscriptions, leases, sent)
    requires DemandTold(peers, leases, subscriptions, sent, {})
    ensures BeliefsOk(Dethrone(peers, previous), subscriptions, leases, sent)
    ensures DemandTold(Dethrone(peers, previous), leases, subscriptions, sent, {})
  {
  }

  ghost predicate VacantLogs(g: State) {
    && BeliefsOk(g.peers, g.subscriptions, g.leases, g.sent)
    && DemandTold(g.peers, g.leases, g.subscriptions, g.sent, {})
    && HistoryOk(g.sent, g.granted)
  }

  lemma UnleasedEmpty(subscriptions: Subscriptions, demand: Demands, b: BackendId)
    requires Counted(subscriptions, demand) && b !in demand
    ensures Subs(subscriptions, b) == {}
  {
  }

  lemma VacateSubscriptions(g: State, b: BackendId)
    requires SubscriptionsOk(g.subscriptions, g.peers, g.demand) && (b in g.demand <==> b in g.leases)
    ensures var g' := Vacate(g, b);
            && Mirrored(g'.subscriptions, g'.peers)
            && Counted(g'.subscriptions, g'.demand)
            && Subs(g'.subscriptions, b) == {}
            && g'.demand.Keys == g.demand.Keys && g'.peers.Keys == g.peers.Keys && g'.sent.Keys == g.sent.Keys
  {
    hide Mirrored, Counted, GrantsOk, IdentitiesOk, ProxyOk, BeliefsOk, RegistryShown, DemandTold, HistoryOk;
    if b in g.leases {
      var g1 := SendAll(g, Subs(g.subscriptions, b), BackendUnsubscribed(b, EpochChanged));
      SetSubscribersIndexes(g1, b, {});
      DethroneMirrored(Put(g.subscriptions, b, {}), Resubscribe(g.peers, b, {}), g.leases[b].owner);
    } else {
      UnleasedEmpty(g.subscriptions, g.demand, b);
    }
  }

  lemma VacateGrants(g: State, b: BackendId)
    requires IndexesOk(g, {})
    ensures GrantsOk(Vacate(g, b).peers, g.leases - {b}, {})
    ensures Vacate(g, b).leases == g.leases - {b}
  {
    hide Mirrored, Counted, GrantsOk, IdentitiesOk, ProxyOk, BeliefsOk, RegistryShown, DemandTold, HistoryOk;
    if b in g.leases {
      var peers1 := Resubscribe(g.peers, b, {});
      SessionsCarryLeases(g.peers, peers1, g.leases, g.registry, g.demand, g.demand, {});
      DethroneGrants(peers1, g.leases, b);
    } else {
      assert g.leases - {b} == g.leases;
    }
  }

  lemma VacateLogs(g: State, b: BackendId)
    requires g.peers.Keys <= g.sent.Keys && LogsOk(g, {})
    ensures VacantLogs(Vacate(g, b))
  {
    if b in g.leases {
      var g1 := NotifyGone(g, b, EpochChanged);
      NotifyGoneLogs(g, b, EpochChanged);
      LoseBeliefs(g1.peers, g1.subscriptions, g.leases, g1.sent, b);
      LoseDemand(g1.peers, g.leases, g1.subscriptions, g1.sent, b);
      DethroneLogs(g1.peers, g.leases - {b}, g1.subscriptions, g1.sent, g.leases[b].owner);
    }
  }

  /** The lease and session of a new owner. */
  lemma EnterGrants(peers: Peers, leases: Leases, p: PeerId, b: BackendId, lease: Lease)
    requires GrantsOk(peers, leases, {}) && b !in leases && p !in peers && lease.owner == p
    requires forall c :: c in leases ==> leases[c].owner in peers
    ensures GrantsOk(peers[p := Peer(true, Some(Grant(b, lease.epoch)), {})], leases[b := lease], {})
  {
    var peers' := peers[p := Peer(true, Some(Grant(b, lease.epoch)), {})];
    forall q | q in peers' && peers'[q].grant.Some? ensures IsOwner(peers', leases[b := lease], q) {
      if q != p { assert IsOwner(peers, leases, q); }
    }
  }

  lemma EnterBeliefs(peers: Peers, subscriptions: Subscriptions, leases: Leases, sent: Sent, b: BackendId, lease: Lease)
    requires BeliefsOk(peers, subscriptions, leases, sent) && Subs(subscriptions, b) == {}
    ensures BeliefsOk(peers, subscriptions, leases[b := lease], sent)
  {
  }

  lemma EnterDemand(peers: Peers, leases: Leases, subscriptions: Subscriptions, sent: Sent, p: PeerId, b: BackendId,
                    lease: Lease, hello: Msg)
    requires DemandTold(peers, leases, subscriptions, sent, {}) && Subs(subscriptions, b) == {}
    requires p !in peers && lease.owner == p && hello.PeerReady?
    ensures DemandTold(peers[p := Peer(true, Some(Grant(b, lease.epoch)), {})], leases[b := lease], subscriptions,
                       sent[p := [hello]], {})
  {
    var peers' := peers[p := Peer(true, Some(Grant(b, lease.epoch)), {})];
    var leases' := leases[b := lease];
    var sent' := sent[p := [hello]];
    JoinedLog(sent, p, hello);
    forall q | IsOpen(peers', q) && IsOwner(peers', leases', q)
      ensures DemandView(Log(sent', q)) == (Subs(subscriptions, peers'[q].grant.value.backendId) != {})
    {
      if q != p {
        assert IsOpen(peers, q) && IsOwner(peers, leases, q) && Log(sent', q) == Log(sent, q);
      }
    }
  }

  lemma EnterHistory(sent: Sent, granted: Granted, e: Epoch, to: (BackendId, PeerId))
    requires HistoryOk(sent, granted) && e !in granted
    ensures HistoryOk(sent, granted[e := to])
  {
    forall q | q in sent ensures GoodLog(sent[q], granted[e := to]) {
      GrantsOnlyGrow(sent[q], granted, e, to);
    }
  }

  lemma EnterInstances(identities: Identities, claimed: Identities, registry: Registry, b: BackendId, presence: Presence)
    requires forall c :: c in registry ==> Lookup(identities.instances, registry[c].instanceId) == Some(c)
    requires forall i :: i in identities.instances ==> Lookup(claimed.instances, i) == Some(identities.instances[i])
    requires Lookup(claimed.instances, presence.instanceId) == Some(b)
    ensures var registry' := registry[b := presence];
            forall c :: c in registry' ==> Lookup(claimed.instances, registry'[c].instanceId) == Some(c)
  {
  }

  lemma EnterGranted(leases: Leases, granted: Granted, latest: Epoch, b: BackendId, lease: Lease)
    requires forall c :: c in leases ==> Lookup(granted, leases[c].epoch) == Some((c, leases[c].owner))
    requires (forall e :: e in granted ==> e <= latest) && lease.epoch == latest + 1
    ensures var leases', granted' := (leases - {b})[b := lease], granted[lease.epoch := (b, lease.owner)];
            && lease.epoch !in granted
            && (forall c :: c in leases' ==> Lookup(granted', leases'[c].epoch) == Some((c, leases'[c].owner)))
            && (forall e :: e in granted' ==> e <= lease.epoch)
  {
    var leases', granted' := (leases - {b})[b := lease], granted[lease.epoch := (b, lease.owner)];
    forall c | c in leases' ensures Lookup(granted', leases'[c].epoch) == Some((c, leases'[c].owner)) {
      if c != b { assert Lookup(granted, leases[c].epoch) == Some((c, leases[c].owner)); }
    }
  }

  lemma EnterIdentities(g: State, p: PeerId, h: BackendHello, lease: Lease, presence: Presence)
    requires IdentitiesOk(g.identities, g.registry, g.leases, g.granted) && h.generated !in Used(g.identities)
    requires lease.epoch == g.identities.maxEpoch + 1 && lease.owner == p && presence.instanceId == h.instance
    ensures var b := ClaimedBackend(g, h);
            var claimed := Claim(g.identities, h.instance, h.device, h.channel, h.generated);
            && IdentitiesOk(claimed.(maxEpoch := lease.epoch), g.registry[b := presence],
                            (g.leases - {b})[b := lease], g.granted[lease.epoch := (b, p)])
            && lease.epoch !in g.granted
  {
    hide BackendFor, Used;
    var claimed := Claim(g.identities, h.instance, h.device, h.channel, h.generated);
    ClaimKeepsIdentity(g.identities, h.instance, h.device, h.channel, h.generated);
    EnterInstances(g.identities, claimed, g.registry, ClaimedBackend(g, h), presence);
    EnterGranted(g.leases, g.granted, g.identities.maxEpoch, ClaimedBackend(g, h), lease);
  }

  lemma EnterCounted(subscriptions: Subscriptions, demand: Demands, b: BackendId)
    requires Counted(subscriptions, demand) && Subs(subscriptions, b) == {}
    ensures Counted(subscriptions, demand[b := Demand(0, false)])
  {
  }

  lemma EnterLeases(peers: Peers, leases: Leases, registry: Registry, demand: Demands, b: BackendId, p: PeerId,
                    lease: Lease, presence: Presence, peer: Peer)
    requires leases.Keys == demand.Keys - {b} == registry.Keys - {b}
    requires forall c :: c in leases ==> registry[c].backendId == c && registry[c].epoch == leases[c].epoch
    requires forall c :: c in leases ==> leases[c].owner in peers
    requires lease.owner == p && presence.backendId == b && presence.epoch == lease.epoch
    ensures LeasesOk(peers[p := peer], leases[b := lease], registry[b := presence], demand[b := Demand(0, false)])
  {
  }

  lemma EnterProxy(proxy: Proxy, leases: Leases, b: BackendId, lease: Lease)
    requires ProxyOk(proxy, leases)
    ensures ProxyOk(proxy, (leases - {b})[b := lease])
  {
  }

  /** The tables of the vacated state fit the lease about to be written. */
  lemma VacatedTables(g: State, b: BackendId)
    requires IndexesOk(g, {})
    ensures var g1 := Vacate(g, b);
            && g1.leases.Keys == g1.demand.Keys - {b} == g.registry.Keys - {b}
            && (forall c :: c in g1.leases ==> g.registry[c].backendId == c && g.registry[c].epoch == g1.leases[c].epoch)
            && (forall c :: c in g1.leases ==> g1.leases[c].owner in g1.peers)
  {
    hide Mirrored, Counted, GrantsOk, IdentitiesOk, ProxyOk;
    VacateSubscriptions(g, b);
    VacateGrants(g, b);
  }

  lemma HelloBackendIndexes(g: State, p: PeerId, h: BackendHello, now: Time)
    requires IndexesOk(g, {}) && p !in g.sent && h.generated !in Used(g.identities)
    ensures IndexesOk(HelloBackend(g, p, h, now), {})
  {
    hide Mirrored, Counted, LeasesOk, GrantsOk, IdentitiesOk, ProxyOk, BeliefsOk, RegistryShown, DemandTold,
         HistoryOk, HelloBackend, Vacate;
    var b := ClaimedBackend(g, h);
    var e := g.identities.maxEpoch + 1;
    var lease := Lease(e, p, now);
    var grant := Some(Grant(b, e));
    var g1 := Vacate(g, b);
    HelloBackendParts(g, p, h, now);
    HelloBackendRest(g, p, h, now);
    VacateKeeps(g, b);
    LeasedDemand(g.peers, g.leases, g.registry, g.demand, b);
    VacateSubscriptions(g, b);
    VacateGrants(g, b);
    VacatedTables(g, b);
    JoinMirrored(g1.subscriptions, g1.peers, p, grant);
    EnterCounted(g1.subscriptions, g1.demand, b);
    EnterGrants(g1.peers, g1.leases, p, b, lease);
    EnterLeases(g1.peers, g1.leases, g.registry, g1.demand, b, p, lease, NewPresence(g, h), Peer(true, grant, {}));
    EnterIdentities(g, p, h, lease, NewPresence(g, h));
    EnterProxy(g.proxy, g.leases, b, lease);
  }

  /** Greeting the new owner and showing everyone else the new registry. */
  lemma GreetAndBroadcast(sent: Sent, peers: Peers, p: PeerId, grant: Option<Grant>, hello: Msg, m: Msg,
                          targets: set<PeerId>)
    requires p !in targets
    ensures var peers' := peers[p := Peer(true, grant, {})];
            Deliver(Deliver(sent[p := []], peers', {p}, hello), peers', targets, m) ==
            Deliver(sent, peers, targets, m)[p := [hello]]
  {
    JoinSent(sent, peers, p, grant, hello);
  }

  /** A client+backend hello, component by component. */
  lemma HelloBackendParts(g: State, p: PeerId, h: BackendHello, now: Time)
    requires p !in g.peers
    ensures var b := ClaimedBackend(g, h);
            var e := g.identities.maxEpoch + 1;
            var g1 := Vacate(g, b);
            var grant := Some(Grant(b, e));
            var registry := g.registry[b := NewPresence(g, h)];
            var g' := HelloBackend(g, p, h, now);
            && g'.peers == g1.peers[p := Peer(true, grant, {})]
            && g'.subscriptions == g1.subscriptions
            && g'.leases == g1.leases[b := Lease(e, p, now)]
            && g'.registry == registry
            && g'.granted == g1.granted[e := (b, p)]
  {
    hide Mirrored, Counted, LeasesOk, GrantsOk, IdentitiesOk, ProxyOk, BeliefsOk, RegistryShown, DemandTold,
         HistoryOk, Subs;
  }

  lemma HelloBackendRest(g: State, p: PeerId, h: BackendHello, now: Time)
    requires p !in g.peers
    ensures var b := ClaimedBackend(g, h);
            var g' := HelloBackend(g, p, h, now);
            && g'.demand == Vacate(g, b).demand[b := Demand(0, false)]
            && g'.identities == Claim(g.identities, h.instance, h.device, h.channel, h.generated).(maxEpoch := g.identities.maxEpoch + 1)
            && g'.proxy == g.proxy
            && g'.sent.Keys == g.sent.Keys + {p}
  {
    hide Vacate;
    VacateKeeps(g, ClaimedBackend(g, h));
  }

  lemma VacateKeeps(g: State, b: BackendId)
    ensures var g1 := Vacate(g, b);
            && g1.proxy == g.proxy && g1.identities == g.identities && g1.granted == g.granted
            && g1.registry == g.registry && g1.sent.Keys == g.sent.Keys
  {
  }

  lemma HelloBackendSent(g: State, p: PeerId, h: BackendHello, now: Time)
    requires p !in Vacate(g, ClaimedBackend(g, h)).peers
    ensures var g1 := Vacate(g, ClaimedBackend(g, h));
            var grant := Some(Grant(ClaimedBackend(g, h), g.identities.maxEpoch + 1));
            var registry := g.registry[ClaimedBackend(g, h) := NewPresence(g, h)];
            HelloBackend(g, p, h, now).sent ==
              Deliver(g1.sent, g1.peers, g1.peers.Keys, RegistrySnapshot(registry))[p := [PeerReady(p, grant, registry)]]
  {
    hide Mirrored, Counted, LeasesOk, GrantsOk, IdentitiesOk, ProxyOk, BeliefsOk, RegistryShown, DemandTold,
         HistoryOk, Vacate;
    VacateKeeps(g, ClaimedBackend(g, h));
    var g1 := Vacate(g, ClaimedBackend(g, h));
    var registry := g.registry[ClaimedBackend(g, h) := NewPresence(g, h)];
    var grant := Some(Grant(ClaimedBackend(g, h), g.identities.maxEpoch + 1));
    assert g1.peers[p := Peer(true, grant, {})].Keys - {p} == g1.peers.Keys;
    GreetAndBroadcast(g1.sent, g1.peers, p, grant, PeerReady(p, grant, registry), RegistrySnapshot(registry),
                      g1.peers.Keys);
  }

  /** The logs after the hello, from what Vacate and the claim provide. */
  lemma HelloBackendAssembled(g: State, p: PeerId, h: BackendHello, now: Time)
    requires var g1 := Vacate(g, ClaimedBackend(g, h));
             && VacantLogs(g1)
             && g1.peers.Keys <= g1.sent.Keys && Mirrored(g1.subscriptions, g1.peers)
             && Subs(g1.subscriptions, ClaimedBackend(g, h)) == {} && p !in g1.peers
             && (forall c :: c in g1.leases ==>
                   c != ClaimedBackend(g, h) && c in g.registry && g.registry[c].epoch == g1.leases[c].epoch)
    requires p !in g.peers && g.identities.maxEpoch + 1 !in Vacate(g, ClaimedBackend(g, h)).granted
    ensures LogsOk(HelloBackend(g, p, h, now), {})
  {
    var b := ClaimedBackend(g, h);
    var g1 := Vacate(g, b);
    HelloBackendParts(g, p, h, now);
    HelloBackendSent(g, p, h, now);
    EnterVacated(g1.peers, g1.subscriptions, g1.leases, g1.granted, g1.sent,
                 g.registry[b := NewPresence(g, h)], p, b, Lease(g.identities.maxEpoch + 1, p, now));
  }

  lemma HelloBackendLogs(g: State, p: PeerId, h: BackendHello, now: Time)
    requires Inv(g) && p !in g.sent && h.generated !in Used(g.identities)
    ensures LogsOk(HelloBackend(g, p, h, now), {})
  {
    hide Mirrored, Counted, GrantsOk, ProxyOk, BeliefsOk, RegistryShown, DemandTold, HistoryOk, HelloBackend;
    var b := ClaimedBackend(g, h);
    VacateKeeps(g, b);
    VacateGrants(g, b);
    VacateSubscriptions(g, b);
    VacateLogs(g, b);
    EnterIdentities(g, p, h, Lease(g.identities.maxEpoch + 1, p, now), NewPresence(g, h));
    HelloBackendAssembled(g, p, h, now);
  }

  lemma HelloBackendKeepsInv(g: State, p: PeerId, h: BackendHello, now: Time)
    requires Inv(g) && p !in g.sent && h.generated !in Used(g.identities)
    ensures Inv(HelloBackend(g, p, h, now))
  {
    HelloBackendIndexes(g, p, h, now);
    HelloBackendLogs(g, p, h, now);
  }

  lemma EnterVacated(peers: Peers, subscriptions: Subscriptions, leases: Leases, granted: Granted, sent: Sent,
                     registry: Registry, p: PeerId, b: BackendId, lease: Lease)
    requires BeliefsOk(peers, subscriptions, leases, sent) && DemandTold(peers, leases, subscriptions, sent, {})
    requires HistoryOk(sent, granted) && peers.Keys <= sent.Keys
    requires Mirrored(subscriptions, peers) && Subs(subscriptions, b) == {} && p !in peers
    requires lease.owner == p && lease.epoch !in granted
    requires forall c :: c in leases ==> c in registry && registry[c].epoch == leases[c].epoch
    ensures var grant := Some(Grant(b, lease.epoch));
            var peers' := peers[p := Peer(true, grant, {})];
            var sent' := Deliver(sent, peers, peers.Keys, RegistrySnapshot(registry))[p := [PeerReady(p, grant, registry)]];
            && BeliefsOk(peers', subscriptions, leases[b := lease], sent')
            && RegistryShown(peers', registry, sent', {})
            && DemandTold(peers', leases[b := lease], subscriptions, sent', {})
            && HistoryOk(sent', granted[lease.epoch := (b, p)])
  {
    BroadcastNewOwner(peers, subscriptions, leases, granted, sent, registry, b, lease, peers.Keys);
    EnterLogs(peers, subscriptions, leases, granted, Deliver(sent, peers, peers.Keys, RegistrySnapshot(registry)),
              registry, p, b, lease, PeerReady(p, Some(Grant(b, lease.epoch)), registry));
  }

  /** The broadcast that announces the new owner, before its session exists. */
  lemma BroadcastNewOwner(peers: Peers, subscriptions: Subscriptions, leases: Leases, granted: Granted, sent: Sent,
                          registry: Registry, b: BackendId, lease: Lease, targets: set<PeerId>)
    requires BeliefsOk(peers, subscriptions, leases, sent) && DemandTold(peers, leases, subscriptions, sent, {})
    requires HistoryOk(sent, granted) && peers.Keys <= sent.Keys && targets == peers.Keys
    requires forall c :: c in leases ==> c in registry && registry[c].epoch == leases[c].epoch
    ensures var sent' := Deliver(sent, peers, targets, RegistrySnapshot(registry));
            && BeliefsOk(peers, subscriptions, leases, sent')
            && DemandTold(peers, leases, subscriptions, sent', {})
            && HistoryOk(sent', granted)
            && RegistryShown(peers, registry, sent', {})
  {
    var m := RegistrySnapshot(registry);
    forall q | Reaches(sent, peers, targets, q) ensures Consistent(Log(sent, q), registry) {
      SnapshotConsistent(peers, subscriptions, leases, sent, registry, q);
    }
    DeliverHistory(sent, granted, peers, targets, m);
    DeliverBeliefs(peers, subscriptions, leases, sent, targets, m);
    DeliverDemand(peers, leases, subscriptions, sent, targets, m, {});
    DeliverSnapshot(peers, registry, sent, targets, {});
  }

  lemma EnterLogs(peers: Peers, subscriptions: Subscriptions, leases: Leases, granted: Granted, sent: Sent,
                  registry: Registry, p: PeerId, b: BackendId, lease: Lease, hello: Msg)
    requires BeliefsOk(peers, subscriptions, leases, sent) && DemandTold(peers, leases, subscriptions, sent, {})
    requires HistoryOk(sent, granted) && RegistryShown(peers, registry, sent, {})
    requires Mirrored(subscriptions, peers) && Subs(subscriptions, b) == {} && p !in peers
    requires lease.owner == p && lease.epoch !in granted && hello.PeerReady? && hello.items == registry
    ensures var peers' := peers[p := Peer(true, Some(Grant(b, lease.epoch)), {})];
            var sent' := sent[p := [hello]];
            && BeliefsOk(peers', subscriptions, leases[b := lease], sent')
            && RegistryShown(peers', registry, sent', {})
            && DemandTold(peers', leases[b := lease], subscriptions, sent', {})
            && HistoryOk(sent', granted[lease.epoch := (b, p)])
  {
    var grant := Some(Grant(b, lease.epoch));
    EnterBeliefs(peers, subscriptions, leases, sent, b, lease);
    JoinBeliefs(peers, subscriptions, leases[b := lease], sent, sent[p := [hello]], p, grant, hello);
    EnterDemand(peers, leases, subscriptions, sent, p, b, lease, hello);
    EnterHistory(sent, granted, lease.epoch, (b, p));
    JoinHistory(sent, granted[lease.epoch := (b, p)], p, hello);
    JoinRegistry(peers, registry, sent, p, grant, hello);
  }

  lemma JoinRegistry(peers: Peers, registry: Registry, sent: Sent, p: PeerId, grant: Option<Grant>, hello: Msg)
    requires RegistryShown(peers, registry, sent, {}) && hello.PeerReady? && hello.items == registry
    ensures RegistryShown(peers[p := Peer(true, grant, {})], registry, sent[p := [hello]], {})
  {
    var peers' := peers[p := Peer(true, grant, {})];
    JoinedLog(sent, p, hello);
    forall q | IsOpen(peers', q)
      ensures LogRegistry(Log(sent[p := [hello]], q)) == registry && !Unsettled(Log(sent[p := [hello]], q))
    {
      if q != p { assert IsOpen(peers, q) && Log(sent[p := [hello]], q) == Log(sent, q); }
    }
  }
}

/** The handlers that neither add nor remove a session. */
module GatewayHandling {
  import opened Options
  import opened Storage
  import opened Gateway
  import opened GatewayLogs
  import opened GatewayInvariants
  import opened GatewaySending
  import opened GatewaySteps

  /** A renewed lease is the same lease to everyone but the lease timer. */
  ghost predicate SameLeases(leases: Leases, leases': Leases) {
    && leases.Keys == leases'.Keys
    && forall b :: b in leases ==> leases[b].epoch == leases'[b].epoch && leases[b].owner == leases'[b].owner
  }

  lemma SameLeasesIndexes(g: State, leases': Leases)
    requires IndexesOk(g, {}) && SameLeases(g.leases, leases')
    ensures IndexesOk(g.(leases := leases'), {})
  {
    hide Mirrored, Counted, LeasesOk, GrantsOk, IdentitiesOk, ProxyOk, BeliefsOk, RegistryShown, DemandTold, HistoryOk;
    SameLeasesGrants(g.peers, g.leases, leases');
    SameLeasesRest(g, leases');
  }

  lemma SameLeasesGrants(peers: Peers, leases: Leases, leases': Leases)
    requires SameLeases(leases, leases')
    ensures forall q :: IsOwner(peers, leases', q) <==> IsOwner(peers, leases, q)
    ensures GrantsOk(peers, leases, {}) ==> GrantsOk(peers, leases', {})
  {
  }

  lemma SameLeasesRest(g: State, leases': Leases)
    requires SameLeases(g.leases, leases')
    ensures LeasesOk(g.peers, g.leases, g.registry, g.demand) ==> LeasesOk(g.peers, leases', g.registry, g.demand)
    ensures IdentitiesOk(g.identities, g.registry, g.leases, g.granted) ==>
              IdentitiesOk(g.identities, g.registry, leases', g.granted)
    ensures ProxyOk(g.proxy, g.leases) ==> ProxyOk(g.proxy, leases')
  {
  }

  lemma SameLeasesLogs(g: State, leases': Leases)
    requires LogsOk(g, {}) && SameLeases(g.leases, leases')
    ensures LogsOk(g.(leases := leases'), {})
  {
  }

  /** A heartbeat_ack repeats what its reader has been told. */
  lemma AckLogs(g: State, p: PeerId, epoch: Epoch)
    requires LogsOk(g, {}) && IsOwner(g.peers, g.leases, p)
    requires Counted(g.subscriptions, g.demand) && g.peers[p].grant.value.backendId in g.demand
    ensures LogsOk(Send(g, p, HeartbeatAck(epoch, IsActive(g.demand, g.peers[p].grant.value.backendId))), {})
  {
    var m := HeartbeatAck(epoch, IsActive(g.demand, g.peers[p].grant.value.backendId));
    DeliverBeliefs(g.peers, g.subscriptions, g.leases, g.sent, {p}, m);
    DeliverRegistry(g.peers, g.registry, g.sent, {p}, m, {});
    DeliverHistory(g.sent, g.granted, g.peers, {p}, m);
    AckDemand(g.peers, g.leases, g.subscriptions, g.sent, p, m);
  }

  lemma AckDemand(peers: Peers, leases: Leases, subscriptions: Subscriptions, sent: Sent, p: PeerId, m: Msg)
    requires DemandTold(peers, leases, subscriptions, sent, {}) && IsOwner(peers, leases, p)
    requires m.HeartbeatAck? && m.active == (Subs(subscriptions, peers[p].grant.value.backendId) != {})
    ensures DemandTold(peers, leases, subscriptions, Deliver(sent, peers, {p}, m), {})
  {
  }

  lemma HeartbeatKeepsInv(g: State, p: PeerId, epoch: Epoch, now: Time)
    requires Inv(g)
    ensures Inv(Heartbeat(g, p, epoch, now))
  {
    hide Mirrored, Counted, GrantsOk, IdentitiesOk, ProxyOk, BeliefsOk, RegistryShown, DemandTold, HistoryOk;
    if IsOwner(g.peers, g.leases, p) && g.peers[p].grant.value.epoch == epoch {
      var b := g.peers[p].grant.value.backendId;
      var leases' := g.leases[b := g.leases[b].(lastHeartbeatAt := now)];
      SameLeasesIndexes(g, leases');
      SameLeasesLogs(g, leases');
      AckLogs(g.(leases := leases'), p, epoch);
    }
  }

  lemma RelayKeepsInv(g: State, p: PeerId, kind: RelayKind, claimed: BackendId, payload: Payload)
    requires Inv(g)
    ensures Inv(Relay(g, p, kind, claimed, payload))
  {
    hide Mirrored, Counted, LeasesOk, GrantsOk, ProxyOk, RegistryShown, DemandTold, HistoryOk;
    if IsOwner(g.peers, g.leases, p) && (ChecksClaim(kind) ==> claimed == g.peers[p].grant.value.backendId) {
      var b := g.peers[p].grant.value.backendId;
      var m := Relayed(b, kind, payload, p);
      forall q | Reaches(g.sent, g.peers, Subs(g.subscriptions, b), q) ensures GoodNext(Log(g.sent, q), m, g.granted) {
        assert Belief(Log(g.sent, q), b) == Listed(g.subscriptions, g.leases, q, b);
      }
      SendPlain(g, Subs(g.subscriptions, b), m);
    }
  }

  lemma TargetedKeepsInv(g: State, p: PeerId, claimed: BackendId, target: PeerId, payload: Payload)
    requires Inv(g)
    ensures Inv(SendTargeted(g, p, claimed, target, payload))
  {
    hide Inv, SendAll, IsOwner;
    SendPlain(g, {target}, TargetedMessage(claimed, payload));
  }

  lemma ForwardKeepsInv(g: State, p: PeerId, b: BackendId, m: Msg)
    requires Inv(g) && (m.ClientMessage? || m.CatchUp?)
    ensures Inv(Forward(g, p, b, m))
  {
    hide Mirrored, Counted, LeasesOk, GrantsOk, IdentitiesOk, ProxyOk, BeliefsOk, RegistryShown, DemandTold, HistoryOk;
    if p !in Subs(g.subscriptions, b) {
      SendPlain(g, {p}, GatewayError(NotSubscribedError));
    } else {
      match Owner(g.peers, g.leases, b)
      case None => SendPlain(g, {p}, GatewayError(OfflineError));
      case Some(owner) => SendPlain(g, {owner}, m);
    }
  }

  lemma RequestSnapshotKeepsInv(g: State, p: PeerId, b: BackendId)
    requires Inv(g)
    ensures Inv(RequestSnapshot(g, p, b))
  {
    hide Mirrored, Counted, LeasesOk, GrantsOk, IdentitiesOk, ProxyOk, BeliefsOk, RegistryShown, DemandTold, HistoryOk;
    match Owner(g.peers, g.leases, b)
    case None => SendPlain(g, {p}, GatewayError(OfflineError));
    case Some(owner) => SendPlain(g, {owner}, RequestDataSnapshot(b, None));
  }

  lemma ShutMirrored(subscriptions: Subscriptions, peers: Peers, p: PeerId)
    requires Mirrored(subscriptions, peers)
    ensures Mirrored(subscriptions, Shut(peers, p))
  {
  }

  lemma ShutSessions(peers: Peers, leases: Leases, p: PeerId)
    ensures forall q :: IsOpen(Shut(peers, p), q) ==> IsOpen(peers, q) && Shut(peers, p)[q] == peers[q]
    ensures forall q :: IsOwner(Shut(peers, p), leases, q) <==> IsOwner(peers, leases, q)
    ensures GrantsOk(peers, leases, {}) ==> GrantsOk(Shut(peers, p), leases, {})
  {
  }

  lemma CloseSocketIndexes(g: State, p: PeerId)
    requires IndexesOk(g, {})
    ensures IndexesOk(CloseSocket(g, p), {})
  {
    hide Mirrored, Counted, GrantsOk, IdentitiesOk, ProxyOk, BeliefsOk, RegistryShown, DemandTold, HistoryOk;
    ShutMirrored(g.subscriptions, g.peers, p);
    ShutSessions(g.peers, g.leases, p);
  }

  lemma CloseSocketLogs(g: State, p: PeerId)
    requires LogsOk(g, {})
    ensures LogsOk(CloseSocket(g, p), {})
  {
    ShutSessions(g.peers, g.leases, p);
  }

  lemma CloseSocketKeepsInv(g: State, p: PeerId)
    requires Inv(g)
    ensures Inv(CloseSocket(g, p))
  {
    CloseSocketIndexes(g, p);
    CloseSocketLogs(g, p);
  }

  /** Moving requests between the tables keeps them disjoint and named after leased backends. */
  lemma ProxyMoves(proxy: Proxy, leases: Leases, r: RequestId, b: BackendId, outcome: Outcome)
    requires ProxyOk(proxy, leases)
    ensures r !in proxy.pending && r !in proxy.streaming && r !in proxy.settled && b in leases ==>
              ProxyOk(proxy.(pending := proxy.pending[r := b]), leases)
    ensures r in proxy.pending || r in proxy.streaming ==> ProxyOk(Settle(proxy, {r}, outcome), leases)
    ensures r in proxy.pending ==>
              ProxyOk(proxy.(pending := proxy.pending - {r}, streaming := proxy.streaming[r := proxy.pending[r]]), leases)
  {
  }

  lemma IssueKeepsInv(g: State, r: RequestId, b: BackendId)
    requires Inv(g) && r !in g.proxy.pending && r !in g.proxy.streaming && r !in g.proxy.settled
    ensures Inv(Issue(g, r, b))
  {
    hide Mirrored, Counted, LeasesOk, GrantsOk, IdentitiesOk, ProxyOk, BeliefsOk, RegistryShown, DemandTold, HistoryOk;
    match Owner(g.peers, g.leases, b)
    case None =>
    case Some(owner) =>
      ProxyMoves(g.proxy, g.leases, r, b, TimedOut);
      SendPlain(g.(proxy := g.proxy.(pending := g.proxy.pending[r := b])), {owner}, ProxyRequest(r));
  }

  lemma SettlingKeepsInv(g: State, r: RequestId, outcome: Outcome)
    requires Inv(g)
    ensures Inv(SettlePending(g, r, outcome)) && Inv(SettleStreaming(g, r, outcome))
  {
    hide Mirrored, Counted, LeasesOk, GrantsOk, IdentitiesOk, ProxyOk, BeliefsOk, RegistryShown, DemandTold,
         HistoryOk, Settle;
    ProxyMoves(g.proxy, g.leases, r, 0, outcome);
  }

  lemma StartStreamingKeepsInv(g: State, r: RequestId)
    requires Inv(g)
    ensures Inv(StartStreaming(g, r))
  {
    hide Mirrored, Counted, LeasesOk, GrantsOk, IdentitiesOk, ProxyOk, BeliefsOk, RegistryShown, DemandTold, HistoryOk;
    ProxyMoves(g.proxy, g.leases, r, 0, TimedOut);
  }

  // ---------------------------------------------------------------- subscribe and unsubscribe

  /** In a state with no peer leaving, the owner of a leased backend is connected and carries its grant. */
  lemma OwnerIsOwner(peers: Peers, leases: Leases, registry: Registry, demand: Demands, b: BackendId)
    requires LeasesOk(peers, leases, registry, demand) && GrantsOk(peers, leases, {}) && b in leases
    ensures Owner(peers, leases, b) == Some(leases[b].owner)
    ensures forall q :: IsOwner(peers, leases, q) && peers[q].grant.value.backendId == b <==> q == leases[b].owner
  {
  }

  lemma SubscribersConnected(subscriptions: Subscriptions, peers: Peers, b: BackendId)
    requires Mirrored(subscriptions, peers)
    ensures Subs(subscriptions, b) <= peers.Keys
  {
  }

  lemma ResubscribeIndexes(g: State, b: BackendId, s: set<PeerId>)
    requires IndexesOk(g, {}) && s <= g.peers.Keys && b in g.leases
    ensures IndexesOk(SetSubscribers(g, b, s), {})
  {
    var g1 := SetSubscribers(g, b, s);
    SetSubscribersIndexes(g, b, s);
    SessionsCarryLeases(g.peers, g1.peers, g.leases, g.registry, g.demand, g1.demand, {});
  }

  /** Changing who subscribes to b, on the demand and belief side: everything but b and p is as before. */
  ghost predicate BeliefsOkBut(peers: Peers, subscriptions: Subscriptions, leases: Leases, sent: Sent, p: PeerId,
                               b: BackendId) {
    forall q, c :: IsOpen(peers, q) && !(q == p && c == b) ==> Belief(Log(sent, q), c) == Listed(subscriptions, leases, q, c)
  }

  lemma ResubscribeBeliefs(peers: Peers, peers': Peers, subscriptions: Subscriptions, leases: Leases, sent: Sent,
                           p: PeerId, b: BackendId, s: set<PeerId>)
    requires BeliefsOk(peers, subscriptions, leases, sent) && SameSessions(peers, peers')
    requires s == Subs(subscriptions, b) + {p} || s == Subs(subscriptions, b) - {p}
    ensures BeliefsOkBut(peers', Put(subscriptions, b, s), leases, sent, p, b)
  {
  }

  lemma ResubscribeDemand(peers: Peers, peers': Peers, leases: Leases, subscriptions: Subscriptions, sent: Sent,
                          b: BackendId, s: set<PeerId>)
    requires DemandTold(peers, leases, subscriptions, sent, {}) && SameSessions(peers, peers')
    ensures DemandTold(peers', leases, Put(subscriptions, b, s), sent, {b})
  {
  }

  lemma ResubscribeLogs(g: State, p: PeerId, b: BackendId, s: set<PeerId>)
    requires LogsOk(g, {}) && (s == Subs(g.subscriptions, b) + {p} || s == Subs(g.subscriptions, b) - {p})
    ensures var g1 := SetSubscribers(g, b, s);
            && BeliefsOkBut(g1.peers, g1.subscriptions, g1.leases, g.sent, p, b)
            && RegistryShown(g1.peers, g.registry, g.sent, {})
            && DemandTold(g1.peers, g1.leases, g1.subscriptions, g.sent, {b})
  {
    hide BeliefsOk, DemandTold, HistoryOk, BeliefsOkBut, Put;
    var peers' := Resubscribe(g.peers, b, s);
    assert SameSessions(g.peers, peers');
    ResubscribeBeliefs(g.peers, peers', g.subscriptions, g.leases, g.sent, p, b, s);
    ResubscribeDemand(g.peers, peers', g.leases, g.subscriptions, g.sent, b, s);
    SameSessionsOpen(g.peers, peers', g.leases);
  }

  /** The answer to p about b completes p's belief. */
  lemma AnswerBeliefs(peers: Peers, subscriptions: Subscriptions, leases: Leases, sent: Sent, p: PeerId, b: BackendId,
                      m: Msg)
    requires BeliefsOkBut(peers, subscriptions, leases, sent, p, b) && peers.Keys <= sent.Keys
    requires m.BackendSubscribed? || m.BackendUnsubscribed?
    requires m.backendId == b
    requires Listed(subscriptions, leases, p, b) == if m.BackendSubscribed? then Some(m.epoch) else None
    ensures BeliefsOk(peers, subscriptions, leases, Deliver(sent, peers, {p}, m))
  {
  }

  /** A message about no subscription keeps the incomplete beliefs as they are. */
  lemma DeliverBeliefsBut(peers: Peers, subscriptions: Subscriptions, leases: Leases, sent: Sent, targets: set<PeerId>,
                          m: Msg, p: PeerId, b: BackendId)
    requires BeliefsOkBut(peers, subscriptions, leases, sent, p, b)
    requires !m.BackendSubscribed? && !m.BackendUnsubscribed?
    ensures BeliefsOkBut(peers, subscriptions, leases, Deliver(sent, peers, targets, m), p, b)
  {
  }

  /** Telling the owner of b completes the demand side. */
  lemma TellOwner(peers: Peers, leases: Leases, registry: Registry, demand: Demands, subscriptions: Subscriptions,
                  sent: Sent, b: BackendId)
    requires LeasesOk(peers, leases, registry, demand) && GrantsOk(peers, leases, {}) && b in leases
    requires peers.Keys <= sent.Keys
    requires DemandTold(peers, leases, subscriptions, sent, {b})
    ensures DemandTold(peers, leases, subscriptions,
                       Deliver(sent, peers, {leases[b].owner}, StreamDemand(Subs(subscriptions, b) != {})), {})
  {
  }

  /** When nothing flips between none and some subscribers, the owner's view is already right. */
  lemma NoFlip(g: State, b: BackendId, s: set<PeerId>)
    requires DemandTold(g.peers, g.leases, g.subscriptions, g.sent, {})
    requires (s != {}) == (Subs(g.subscriptions, b) != {})
    ensures var g1 := SetSubscribers(g, b, s);
            DemandTold(g1.peers, g1.leases, g1.subscriptions, g.sent, {})
  {
  }

  /** Subscribing up to and including the demand notice. */
  function Subscribed(g: State, p: PeerId, b: BackendId): State {
    var g1 := SetSubscribers(g, b, Subs(g.subscriptions, b) + {p});
    if Subs(g.subscriptions, b) == {} then SendTo(g1, Owner(g1.peers, g1.leases, b), StreamDemand(true)) else g1
  }

  /** The log part of the invariant while p has not been answered about b, nor the owners in `untold` told. */
  ghost predicate LogsOkBut(g: State, p: PeerId, b: BackendId, untold: set<BackendId>) {
    && BeliefsOkBut(g.peers, g.subscriptions, g.leases, g.sent, p, b)
    && RegistryShown(g.peers, g.registry, g.sent, {})
    && DemandTold(g.peers, g.leases, g.subscriptions, g.sent, untold)
    && HistoryOk(g.sent, g.granted)
  }

  /** The log part of the invariant while the owners in `untold` have not been told. */
  ghost predicate LogsOkUntold(g: State, untold: set<BackendId>) {
    && BeliefsOk(g.peers, g.subscriptions, g.leases, g.sent)
    && RegistryShown(g.peers, g.registry, g.sent, {})
    && DemandTold(g.peers, g.leases, g.subscriptions, g.sent, untold)
    && HistoryOk(g.sent, g.granted)
  }

  lemma SubscribedLogs(g: State, p: PeerId, b: BackendId)
    requires Inv(g) && p in g.peers && b in g.leases
    ensures LogsOkBut(Subscribed(g, p, b), p, b, {})
    ensures IndexesOk(Subscribed(g, p, b), {})
    ensures Subscribed(g, p, b).leases == g.leases && Subscribed(g, p, b).registry == g.registry
    ensures Subs(Subscribed(g, p, b).subscriptions, b) == Subs(g.subscriptions, b) + {p}
  {
    hide Mirrored, Counted, GrantsOk, IdentitiesOk, ProxyOk, BeliefsOk, RegistryShown, DemandTold, HistoryOk;
    var s := Subs(g.subscriptions, b) + {p};
    var g1 := SetSubscribers(g, b, s);
    SubscribersConnected(g.subscriptions, g.peers, b);
    ResubscribeIndexes(g, b, s);
    ResubscribeLogs(g, p, b, s);
    PutSubs(g.subscriptions, b, s, b);
    OwnerIsOwner(g1.peers, g1.leases, g1.registry, g1.demand, b);
    if Subs(g.subscriptions, b) == {} {
      FlipLogs(g1, p, b);
    } else {
      NoFlip(g, b, s);
    }
  }

  /** Sending the flipped demand to the owner of b. */
  lemma FlipLogs(g: State, p: PeerId, b: BackendId)
    requires IndexesOk(g, {}) && b in g.leases
    requires BeliefsOkBut(g.peers, g.subscriptions, g.leases, g.sent, p, b)
    requires RegistryShown(g.peers, g.registry, g.sent, {})
    requires DemandTold(g.peers, g.leases, g.subscriptions, g.sent, {b})
    requires HistoryOk(g.sent, g.granted)
    ensures LogsOkBut(Send(g, g.leases[b].owner, StreamDemand(Subs(g.subscriptions, b) != {})), p, b, {})
  {
    hide Mirrored, Counted, LeasesOk, GrantsOk, IdentitiesOk, ProxyOk, BeliefsOk, RegistryShown, DemandTold;
    var m := StreamDemand(Subs(g.subscriptions, b) != {});
    var owner := g.leases[b].owner;
    DeliverBeliefsBut(g.peers, g.subscriptions, g.leases, g.sent, {owner}, m, p, b);
    DeliverRegistry(g.peers, g.registry, g.sent, {owner}, m, {});
    TellOwner(g.peers, g.leases, g.registry, g.demand, g.subscriptions, g.sent, b);
    DeliverHistory(g.sent, g.granted, g.peers, {owner}, m);
  }

  /** Answering p about b completes the log part. */
  lemma AnswerLogs(g: State, p: PeerId, b: BackendId, m: Msg, untold: set<BackendId>)
    requires LogsOkBut(g, p, b, untold) && g.peers.Keys <= g.sent.Keys
    requires m.BackendSubscribed? || (m.BackendUnsubscribed? && m.reason == ClientUnsubscribed)
    requires m.backendId == b
    requires Listed(g.subscriptions, g.leases, p, b) == if m.BackendSubscribed? then Some(m.epoch) else None
    requires Reaches(g.sent, g.peers, {p}, p) ==> GoodNext(Log(g.sent, p), m, g.granted)
    ensures LogsOkUntold(Send(g, p, m), untold)
  {
    hide Mirrored, Counted, LeasesOk, GrantsOk, IdentitiesOk, ProxyOk, BeliefsOk, RegistryShown, DemandTold;
    AnswerBeliefs(g.peers, g.subscriptions, g.leases, g.sent, p, b, m);
    DeliverRegistry(g.peers, g.registry, g.sent, {p}, m, {});
    DeliverDemand(g.peers, g.leases, g.subscriptions, g.sent, {p}, m, untold);
    DeliverHistory(g.sent, g.granted, g.peers, {p}, m);
  }

  /** What p believed about b before being answered fits the answer. */
  lemma AnswerFits(g: State, p: PeerId, b: BackendId)
    requires LogsOk(g, {}) && IsOpen(g.peers, p) && b in g.leases
    requires b in g.registry && g.registry[b].epoch == g.leases[b].epoch
    ensures GoodNext(Log(Subscribed(g, p, b).sent, p),
                     BackendSubscribed(b, g.leases[b].epoch, g.registry[b].capabilities), g.granted)
  {
    hide Subscribed, DemandTold, HistoryOk;
    assert Belief(Log(g.sent, p), b) == Listed(g.subscriptions, g.leases, p, b);
    DemandNoticeKeepsFolds(g, p, b);
  }

  lemma DemandNoticeKeepsFolds(g: State, p: PeerId, b: BackendId)
    ensures Belief(Log(Subscribed(g, p, b).sent, p), b) == Belief(Log(g.sent, p), b)
    ensures LogRegistry(Log(Subscribed(g, p, b).sent, p)) == LogRegistry(Log(g.sent, p))
  {
    var g1 := SetSubscribers(g, b, Subs(g.subscriptions, b) + {p});
    if Owner(g1.peers, g1.leases, b).Some? {
      Delivered(g.sent, g1.peers, {Owner(g1.peers, g1.leases, b).value}, StreamDemand(true), p);
    }
  }

  /** The subscribe answered, before the request for a data snapshot. */
  lemma SubscribeAnswered(g: State, p: PeerId, b: BackendId)
    requires Inv(g) && p in g.peers && b in g.leases && b in g.registry
    ensures Inv(Send(Subscribed(g, p, b), p, BackendSubscribed(b, g.leases[b].epoch, g.registry[b].capabilities)))
  {
    hide Mirrored, Counted, GrantsOk, IdentitiesOk, ProxyOk, BeliefsOk, RegistryShown, DemandTold, HistoryOk,
         Subscribed, GoodNext, BeliefsOkBut;
    SubscribedLogs(g, p, b);
    assert g.registry[b].epoch == g.leases[b].epoch;
    if IsOpen(g.peers, p) { AnswerFits(g, p, b); }
    SubscribedOpen(g, p, b);
    AnswerLogs(Subscribed(g, p, b), p, b, BackendSubscribed(b, g.leases[b].epoch, g.registry[b].capabilities), {});
  }

  lemma SendToKeepsSessions(g: State, to: Option<PeerId>, m: Msg)
    ensures var g' := SendTo(g, to, m);
            g'.peers == g.peers && g'.granted == g.granted && g'.sent.Keys == g.sent.Keys
  {
  }

  lemma SubscribedOpen(g: State, p: PeerId, b: BackendId)
    ensures IsOpen(Subscribed(g, p, b).peers, p) <==> IsOpen(g.peers, p)
    ensures Subscribed(g, p, b).granted == g.granted && Subscribed(g, p, b).sent.Keys == g.sent.Keys
    ensures Subscribed(g, p, b).peers.Keys == g.peers.Keys
  {
    hide Put, Count, SendTo, Subs, Owner;
    var g1 := SetSubscribers(g, b, Subs(g.subscriptions, b) + {p});
    SendToKeepsSessions(g1, Owner(g1.peers, g1.leases, b), StreamDemand(true));
  }

  lemma SubscribeKeepsInv(g: State, p: PeerId, b: BackendId)
    requires Inv(g)
    ensures Inv(Subscribe(g, p, b))
  {
    if b !in g.registry || b !in g.leases || p !in g.peers {
      SendPlain(g, {p}, GatewayError(OfflineError));
    } else {
      SubscribeAnswered(g, p, b);
      var g3 := Send(Subscribed(g, p, b), p, BackendSubscribed(b, g.leases[b].epoch, g.registry[b].capabilities));
      if b !in g.peers[p].subscribed && Owner(g3.peers, g3.leases, b).Some? {
        SendPlain(g3, {Owner(g3.peers, g3.leases, b).value}, RequestDataSnapshot(b, Some(p)));
      }
    }
  }

  /** Unsubscribing, up to the answer. */
  function Removed(g: State, p: PeerId, b: BackendId): State {
    if p in Subs(g.subscriptions, b) then SetSubscribers(g, b, Subs(g.subscriptions, b) - {p}) else g
  }

  lemma RemovedIndexes(g: State, p: PeerId, b: BackendId)
    requires IndexesOk(g, {})
    ensures IndexesOk(Removed(g, p, b), {})
    ensures Subs(Removed(g, p, b).subscriptions, b) == Subs(g.subscriptions, b) - {p}
  {
    if p in Subs(g.subscriptions, b) {
      SubscribersConnected(g.subscriptions, g.peers, b);
      ResubscribeIndexes(g, b, Subs(g.subscriptions, b) - {p});
      PutSubs(g.subscriptions, b, Subs(g.subscriptions, b) - {p}, b);
    }
  }

  /** Who is still to be told that b has lost its last subscriber. */
  function Untold(g: State, p: PeerId, b: BackendId): set<BackendId> {
    if Subs(g.subscriptions, b) == {p} then {b} else {}
  }

  lemma RemovedLogs(g: State, p: PeerId, b: BackendId)
    requires LogsOk(g, {})
    ensures LogsOkBut(Removed(g, p, b), p, b, Untold(g, p, b))
  {
    if p in Subs(g.subscriptions, b) {
      var s := Subs(g.subscriptions, b) - {p};
      ResubscribeLogs(g, p, b, s);
      if s != {} { NoFlip(g, b, s); }
      assert s == {} <==> Subs(g.subscriptions, b) == {p};
    }
  }

  lemma UnsubscribeAnswered(g: State, p: PeerId, b: BackendId)
    requires Inv(g)
    ensures LogsOkUntold(Send(Removed(g, p, b), p, BackendUnsubscribed(b, ClientUnsubscribed)), Untold(g, p, b))
  {
    hide Mirrored, Counted, LeasesOk, GrantsOk, IdentitiesOk, ProxyOk, BeliefsOk, RegistryShown, DemandTold;
    RemovedIndexes(g, p, b);
    RemovedLogs(g, p, b);
    AnswerLogs(Removed(g, p, b), p, b, BackendUnsubscribed(b, ClientUnsubscribed), Untold(g, p, b));
  }

  lemma TellDeparture(g: State, p: PeerId, b: BackendId, untold: set<BackendId>)
    requires IndexesOk(g, {}) && LogsOkUntold(g, untold) && b in g.leases
    ensures LogsOkUntold(Send(g, g.leases[b].owner, SubscriberDisconnected(b, p)), untold)
  {
    hide Mirrored, Counted, LeasesOk, GrantsOk, IdentitiesOk, ProxyOk, BeliefsOk, RegistryShown, DemandTold;
    var m := SubscriberDisconnected(b, p);
    var owner := g.leases[b].owner;
    DeliverBeliefs(g.peers, g.subscriptions, g.leases, g.sent, {owner}, m);
    DeliverRegistry(g.peers, g.registry, g.sent, {owner}, m, {});
    DeliverDemand(g.peers, g.leases, g.subscriptions, g.sent, {owner}, m, untold);
    DeliverHistory(g.sent, g.granted, g.peers, {owner}, m);
  }

  lemma TellNoDemand(g: State, b: BackendId)
    requires IndexesOk(g, {}) && LogsOkUntold(g, {b}) && b in g.leases && Subs(g.subscriptions, b) == {}
    ensures LogsOk(Send(g, g.leases[b].owner, StreamDemand(false)), {})
  {
    hide Mirrored, Counted, LeasesOk, GrantsOk, IdentitiesOk, ProxyOk, BeliefsOk, RegistryShown, DemandTold;
    var m := StreamDemand(false);
    var owner := g.leases[b].owner;
    DeliverBeliefs(g.peers, g.subscriptions, g.leases, g.sent, {owner}, m);
    DeliverRegistry(g.peers, g.registry, g.sent, {owner}, m, {});
    TellOwner(g.peers, g.leases, g.registry, g.demand, g.subscriptions, g.sent, b);
    DeliverHistory(g.sent, g.granted, g.peers, {owner}, m);
  }

  lemma UnsubscribeIndexes(g: State, p: PeerId, b: BackendId)
    requires IndexesOk(g, {})
    ensures IndexesOk(Unsubscribe(g, p, b), {})
  {
    hide Mirrored, Counted, LeasesOk, GrantsOk, IdentitiesOk, ProxyOk, BeliefsOk, RegistryShown, DemandTold, HistoryOk;
    RemovedIndexes(g, p, b);
  }

  lemma LastSubscriberLeased(g: State, p: PeerId, b: BackendId)
    requires IndexesOk(g, {}) && p in Subs(g.subscriptions, b)
    ensures b in g.leases
  {
  }

  lemma UnsubscribeLogs(g: State, p: PeerId, b: BackendId)
    requires Inv(g)
    ensures LogsOk(Unsubscribe(g, p, b), {})
  {
    hide Mirrored, Counted, LeasesOk, GrantsOk, IdentitiesOk, ProxyOk, BeliefsOk, RegistryShown, DemandTold, HistoryOk;
    var g1 := Removed(g, p, b);
    var g2 := Send(g1, p, BackendUnsubscribed(b, ClientUnsubscribed));
    RemovedIndexes(g, p, b);
    UnsubscribeAnswered(g, p, b);
    if p in Subs(g.subscriptions, b) { LastSubscriberLeased(g, p, b); }
    if b in g.leases {
      OwnerIsOwner(g1.peers, g1.leases, g1.registry, g1.demand, b);
      TellDeparture(g2, p, b, Untold(g, p, b));
      if Subs(g.subscriptions, b) == {p} {
        TellNoDemand(Send(g2, g.leases[b].owner, SubscriberDisconnected(b, p)), b);
      }
    }
  }

  lemma UnsubscribeKeepsInv(g: State, p: PeerId, b: BackendId)
    requires Inv(g)
    ensures Inv(Unsubscribe(g, p, b))
  {
    UnsubscribeIndexes(g, p, b);
    UnsubscribeLogs(g, p, b);
  }
}

/** The invariant over every run of the gateway. */
module GatewayRuns {
  import opened Options
  import opened Storage
  import opened Gateway
  import opened GatewayLogs
  import opened GatewayInvariants
  import opened GatewaySending
  import opened GatewaySteps
  import opened GatewayJoining
  import opened GatewayHandling

  /** Every handler keeps the whole invariant. */
  lemma StepKeepsInv(g: State, ev: Event)
    requires Inv(g) && Enabled(g, ev)
    ensures Inv(Step(g, ev))
  {
    hide Inv, HelloClient, HelloBackend, Subscribe, Unsubscribe, Disconnect, Expire, Heartbeat, Relay, SendTargeted,
         RequestSnapshot, Forward, SendAll, CloseSocket, Issue, SettlePending, StartStreaming, SettleStreaming;
    match ev
    case EvHelloClient(p) => HelloClientKeepsInv(g, p);
    case EvHelloBackend(p, h, now) => HelloBackendKeepsInv(g, p, h, now);
    case EvHeartbeat(p, e, now) => HeartbeatKeepsInv(g, p, e, now);
    case EvRelay(p, kind, b, payload) => RelayKeepsInv(g, p, kind, b, payload);
    case EvTargeted(p, b, target, payload) => TargetedKeepsInv(g, p, b, target, payload);
    case EvRequestRegistry(p) => SendRegistry(g, {p});
    case EvRequestSnapshot(p, b) => RequestSnapshotKeepsInv(g, p, b);
    case EvSubscribe(p, b) => SubscribeKeepsInv(g, p, b);
    case EvUnsubscribe(p, b) => UnsubscribeKeepsInv(g, p, b);
    case EvClientMessage(p, b, payload) => ForwardKeepsInv(g, p, b, ClientMessage(b, payload, p));
    case EvCatchUp(p, b, payload) => ForwardKeepsInv(g, p, b, CatchUp(b, payload));
    case EvPoll => SendRegistry(g, g.peers.Keys - {});
    case EvCloseSocket(p) => CloseSocketKeepsInv(g, p);
    case EvDisconnect(p) => DisconnectKeepsInv(g, p);
    case EvExpire(b, now) => ExpireKeepsInv(g, b, now);
    case EvProxyIssue(r, b) => IssueKeepsInv(g, r, b);
    case EvProxyPending(r, outcome) => SettlingKeepsInv(g, r, outcome);
    case EvProxyStart(r) => StartStreamingKeepsInv(g, r);
    case EvProxyStreaming(r, outcome) => SettlingKeepsInv(g, r, outcome);
  }

  /** Gateway indexes, beliefs, demand, fencing and proxy tables, in every reachable state. */
  lemma {:induction false} RunKeepsInv(g: State, events: seq<Event>)
    requires Inv(g) && AllEnabled(g, events)
    ensures Inv(RunFrom(g, events))
    decreases |events|
  {
    if events != [] {
      StepKeepsInv(g, events[0]);
      RunKeepsInv(Step(g, events[0]), events[1..]);
    }
  }

  // ---------------------------------------------------------------- reachable states

  lemma StartedOk(identities: Identities)
    requires Storage.Valid(identities)
    ensures Inv(Started(identities))
  {
  }

  /** Some run leads here, from a start on whatever identities the storage kept. */
  ghost predicate Reachable(g: State) {
    exists identities, events :: Leads(identities, events, g)
  }

  ghost predicate Leads(identities: Identities, events: seq<Event>, g: State) {
    && Storage.Valid(identities)
    && AllEnabled(Started(identities), events) && RunFrom(Started(identities), events) == g
  }

  lemma ReachableInv(g: State)
    requires Reachable(g)
    ensures Inv(g)
  {
    var identities, events :| Leads(identities, events, g);
    StartedOk(identities);
    RunKeepsInv(Started(identities), events);
  }

  lemma {:induction false} RunOneMore(g: State, events: seq<Event>, ev: Event)
    requires AllEnabled(g, events) && Enabled(RunFrom(g, events), ev)
    ensures AllEnabled(g, events + [ev]) && RunFrom(g, events + [ev]) == Step(RunFrom(g, events), ev)
    decreases |events|
  {
    hide Step, Enabled;
    var more := events + [ev];
    if events == [] {
      assert more[0] == ev && more[1..] == [];
      assert RunFrom(Step(g, ev), []) == Step(g, ev);
    } else {
      assert more[0] == events[0] && more[1..] == events[1..] + [ev];
      RunOneMore(Step(g, events[0]), events[1..], ev);
    }
  }

  lemma ReachableStep(g: State, ev: Event)
    requires Reachable(g) && Enabled(g, ev)
    ensures Reachable(Step(g, ev))
  {
    hide Step, Enabled;
    var identities, events :| Leads(identities, events, g);
    RunOneMore(Started(identities), events, ev);
    assert Leads(identities, events + [ev], Step(g, ev));
  }

  lemma StartReachable(identities: Identities)
    requires Storage.Valid(identities)
    ensures Reachable(Started(identities))
  {
    assert Leads(identities, [], Started(identities));
  }
}
