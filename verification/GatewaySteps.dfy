/** What each composite operation of the gateway does to the invariant. */
module GatewaySteps {
  import opened Options
  import opened Storage
  import opened Gateway
  import opened GatewayLogs
  import opened GatewayInvariants
  import opened GatewaySending

  // ---------------------------------------------------------------- changing subscriptions

  /** The same sessions, up to the sets of subscribed backends. */
  ghost predicate SameSessions(peers: Peers, peers': Peers) {
    && peers.Keys == peers'.Keys
    && forall q :: q in peers ==> peers[q].open == peers'[q].open && peers[q].grant == peers'[q].grant
  }

  lemma PutSubs(subscriptions: Subscriptions, b: BackendId, s: set<PeerId>, c: BackendId)
    ensures Subs(Put(subscriptions, b, s), c) == if c == b then s else Subs(subscriptions, c)
  {
  }

  lemma PutMirrored(subscriptions: Subscriptions, peers: Peers, b: BackendId, s: set<PeerId>)
    requires Mirrored(subscriptions, peers) && s <= peers.Keys
    ensures Mirrored(Put(subscriptions, b, s), Resubscribe(peers, b, s))
  {
    forall c, p
      ensures p in Subs(Put(subscriptions, b, s), c) <==>
              p in Resubscribe(peers, b, s) && c in Resubscribe(peers, b, s)[p].subscribed
    {
      PutSubs(subscriptions, b, s, c);
      assert p in Subs(subscriptions, c) <==> p in peers && c in peers[p].subscribed;
    }
  }

  lemma PutCounted(subscriptions: Subscriptions, demand: Demands, b: BackendId, s: set<PeerId>)
    requires Counted(subscriptions, demand) && b in demand
    ensures Counted(Put(subscriptions, b, s), Count(demand, b, s))
  {
  }

  lemma SetSubscribersIndexes(g: State, b: BackendId, s: set<PeerId>)
    requires SubscriptionsOk(g.subscriptions, g.peers, g.demand) && b in g.demand && s <= g.peers.Keys
    ensures var g' := SetSubscribers(g, b, s);
            && SubscriptionsOk(g'.subscriptions, g'.peers, g'.demand)
            && SameSessions(g.peers, g'.peers)
            && g'.demand.Keys == g.demand.Keys
            && Subs(g'.subscriptions, b) == s
            && (forall c :: c != b ==> Subs(g'.subscriptions, c) == Subs(g.subscriptions, c))
  {
    PutMirrored(g.subscriptions, g.peers, b, s);
    PutCounted(g.subscriptions, g.demand, b, s);
    forall c { PutSubs(g.subscriptions, b, s, c); }
  }

  /** Lease facts do not depend on the sets of subscribed backends. */
  lemma SessionsCarryLeases(peers: Peers, peers': Peers, leases: Leases, registry: Registry, demand: Demands,
                            demand': Demands, except: set<PeerId>)
    requires SameSessions(peers, peers') && demand.Keys == demand'.Keys
    ensures LeasesOk(peers, leases, registry, demand) ==> LeasesOk(peers', leases, registry, demand')
    ensures GrantsOk(peers, leases, except) ==> GrantsOk(peers', leases, except)
  {
    if GrantsOk(peers, leases, except) {
      forall p | p in peers' && p !in except && peers'[p].grant.Some? ensures IsOwner(peers', leases, p) {
        assert IsOwner(peers, leases, p);
      }
    }
  }

  // ---------------------------------------------------------------- a backend goes away

  lemma SameSessionsOpen(peers: Peers, peers': Peers, leases: Leases)
    requires SameSessions(peers, peers')
    ensures forall q :: IsOpen(peers', q) <==> IsOpen(peers, q)
    ensures forall q :: IsOwner(peers', leases, q) <==> IsOwner(peers, leases, q)
  {
  }

  lemma GoneBeliefs(peers: Peers, peers': Peers, subscriptions: Subscriptions, leases: Leases, sent: Sent,
                    b: BackendId, reason: CloseReason)
    requires BeliefsOk(peers, subscriptions, leases, sent)
    requires peers.Keys <= sent.Keys && SameSessions(peers, peers')
    ensures BeliefsOk(peers', Put(subscriptions, b, {}), leases,
                      Deliver(sent, peers, Subs(subscriptions, b), BackendUnsubscribed(b, reason)))
  {
    var m := BackendUnsubscribed(b, reason);
    var targets := Subs(subscriptions, b);
    forall q, c | IsOpen(peers', q)
      ensures Belief(Log(Deliver(sent, peers, targets, m), q), c) == Listed(Put(subscriptions, b, {}), leases, q, c)
    {
      assert IsOpen(peers, q);
      assert Belief(Log(sent, q), c) == Listed(subscriptions, leases, q, c);
      Delivered(sent, peers, targets, m, q);
      PutSubs(subscriptions, b, {}, c);
    }
  }

  lemma GoneDemand(peers: Peers, peers': Peers, leases: Leases, subscriptions: Subscriptions, sent: Sent, b: BackendId,
                   reason: CloseReason)
    requires DemandTold(peers, leases, subscriptions, sent, {}) && SameSessions(peers, peers')
    ensures DemandTold(peers', leases, Put(subscriptions, b, {}),
                       Deliver(sent, peers, Subs(subscriptions, b), BackendUnsubscribed(b, reason)), {b})
  {
  }

  lemma NotifyGoneLogs(g: State, b: BackendId, reason: CloseReason)
    requires g.peers.Keys <= g.sent.Keys
    requires BeliefsOk(g.peers, g.subscriptions, g.leases, g.sent)
    requires DemandTold(g.peers, g.leases, g.subscriptions, g.sent, {})
    requires HistoryOk(g.sent, g.granted)
    ensures var g' := NotifyGone(g, b, reason);
            && BeliefsOk(g'.peers, g'.subscriptions, g.leases, g'.sent)
            && DemandTold(g'.peers, g.leases, g'.subscriptions, g'.sent, {b})
            && HistoryOk(g'.sent, g.granted)
            && Subs(g'.subscriptions, b) == {}
            && g'.peers.Keys == g.peers.Keys && g'.sent.Keys == g.sent.Keys
  {
    PutSubs(g.subscriptions, b, {}, b);
    var peers' := Resubscribe(g.peers, b, {});
    assert SameSessions(g.peers, peers');
    DeliverHistory(g.sent, g.granted, g.peers, Subs(g.subscriptions, b), BackendUnsubscribed(b, reason));
    GoneBeliefs(g.peers, peers', g.subscriptions, g.leases, g.sent, b, reason);
    GoneDemand(g.peers, peers', g.leases, g.subscriptions, g.sent, b, reason);
  }

  /** A lease nobody subscribes through can go: no belief changes, and its owner owns nothing now. */
  lemma LoseBeliefs(peers: Peers, subscriptions: Subscriptions, leases: Leases, sent: Sent, b: BackendId)
    requires BeliefsOk(peers, subscriptions, leases, sent) && Subs(subscriptions, b) == {}
    ensures BeliefsOk(peers, subscriptions, leases - {b}, sent)
  {
  }

  lemma LoseDemand(peers: Peers, leases: Leases, subscriptions: Subscriptions, sent: Sent, b: BackendId)
    requires DemandTold(peers, leases, subscriptions, sent, {b})
    ensures DemandTold(peers, leases - {b}, subscriptions, sent, {})
  {
  }

  lemma LoseGrants(peers: Peers, leases: Leases, b: BackendId)
    requires GrantsOk(peers, leases, {}) && b in leases
    ensures GrantsOk(peers, leases - {b}, {leases[b].owner})
  {
    var owner := leases[b].owner;
    forall p | p in peers && p != owner && peers[p].grant.Some? ensures IsOwner(peers, leases - {b}, p) {
      assert IsOwner(peers, leases, p);
    }
    forall c | c in leases - {b} && (leases - {b})[c].owner in peers
      ensures leases[c].owner != owner && peers[leases[c].owner].grant == Some(Grant(c, leases[c].epoch))
    {
      assert peers[leases[c].owner].grant == Some(Grant(c, leases[c].epoch));
    }
  }

  lemma LoseProxy(proxy: Proxy, leases: Leases, b: BackendId)
    requires ProxyOk(proxy, leases)
    ensures ProxyOk(Settle(proxy, Requests(proxy.pending, b) + Requests(proxy.streaming, b), BackendGone), leases - {b})
  {
  }

  lemma LoseIdentities(identities: Identities, registry: Registry, leases: Leases, granted: Granted, b: BackendId)
    requires IdentitiesOk(identities, registry, leases, granted)
    ensures IdentitiesOk(identities, registry - {b}, leases - {b}, granted)
  {
  }

  /** The snapshot without b, sent once nobody is subscribed to b, and the loss of b's lease. */
  lemma SnapshotThenLose(peers: Peers, subscriptions: Subscriptions, leases: Leases, registry: Registry,
                         granted: Granted,
                         sent: Sent, b: BackendId, targets: set<PeerId>)
    requires Subs(subscriptions, b) == {} && registry.Keys == leases.Keys - {b}
    requires forall c :: c in registry ==> registry[c].epoch == leases[c].epoch
    requires BeliefsOk(peers, subscriptions, leases, sent)
    requires DemandTold(peers, leases, subscriptions, sent, {b})
    requires HistoryOk(sent, granted)
    ensures var sent' := Deliver(sent, peers, targets, RegistrySnapshot(registry));
            && BeliefsOk(peers, subscriptions, leases - {b}, sent')
            && DemandTold(peers, leases - {b}, subscriptions, sent', {})
            && HistoryOk(sent', granted)
  {
    var m := RegistrySnapshot(registry);
    forall q | Reaches(sent, peers, targets, q) ensures Consistent(Log(sent, q), registry) {
      SnapshotConsistent(peers, subscriptions, leases, sent, registry, q);
    }
    DeliverHistory(sent, granted, peers, targets, m);
    DeliverBeliefs(peers, subscriptions, leases, sent, targets, m);
    DeliverDemand(peers, leases, subscriptions, sent, targets, m, {b});
    LoseBeliefs(peers, subscriptions, leases, Deliver(sent, peers, targets, m), b);
    LoseDemand(peers, leases, subscriptions, Deliver(sent, peers, targets, m), b);
  }

  lemma LoseCounted(subscriptions: Subscriptions, demand: Demands, b: BackendId)
    requires Counted(subscriptions, demand) && Subs(subscriptions, b) == {}
    ensures Counted(subscriptions, demand - {b})
  {
  }

  /** Nobody subscribes to b any more, and b is in none of the three tables. */
  lemma LoseLeases(peers: Peers, leases: Leases, registry: Registry, demand: Demands, b: BackendId)
    requires LeasesOk(peers, leases, registry, demand)
    ensures LeasesOk(peers, leases - {b}, registry - {b}, demand - {b})
  {
  }

  /** A backend going away, component by component. */
  lemma DropBackendParts(g: State, b: BackendId, exclude: set<PeerId>)
    ensures var g' := DropBackend(g, b, exclude);
            && g'.subscriptions == Put(g.subscriptions, b, {})
            && g'.peers == Resubscribe(g.peers, b, {})
            && g'.demand == Count(g.demand, b, {}) - {b}
            && g'.leases == g.leases - {b}
            && g'.registry == g.registry - {b}
            && g'.identities == g.identities && g'.granted == g.granted
            && g'.proxy == Settle(g.proxy, Requests(g.proxy.pending, b) + Requests(g.proxy.streaming, b), BackendGone)
            && g'.sent.Keys == g.sent.Keys
  {
  }

  lemma DropBackendIndexes(g: State, b: BackendId, exclude: set<PeerId>)
    requires IndexesOk(g, {}) && b in g.leases
    ensures IndexesOk(DropBackend(g, b, exclude), {g.leases[b].owner})
    ensures DropBackend(g, b, exclude).peers.Keys == g.peers.Keys
  {
    hide Mirrored, Counted, LeasesOk, GrantsOk, IdentitiesOk, ProxyOk;
    var g1 := SetSubscribers(g, b, {});
    DropBackendParts(g, b, exclude);
    LoseProxy(g.proxy, g.leases, b);
    LeasedDemand(g.peers, g.leases, g.registry, g.demand, b);
    SetSubscribersIndexes(g, b, {});
    SessionsCarryLeases(g.peers, g1.peers, g.leases, g.registry, g.demand, g1.demand, {});
    LoseLeases(g1.peers, g.leases, g.registry, g1.demand, b);
    LoseGrants(g1.peers, g1.leases, b);
    LoseIdentities(g.identities, g.registry, g.leases, g.granted, b);
    LoseCounted(g1.subscriptions, g1.demand, b);
  }

  lemma LeasedDemand(peers: Peers, leases: Leases, registry: Registry, demand: Demands, b: BackendId)
    requires LeasesOk(peers, leases, registry, demand)
    ensures b in leases <==> b in demand
  {
  }

  lemma DropBackendLogs(g: State, b: BackendId, exclude: set<PeerId>)
    requires Inv(g) && b in g.leases && exclude <= {g.leases[b].owner}
    ensures LogsOk(DropBackend(g, b, exclude), {g.leases[b].owner})
  {
    hide Mirrored, Counted, GrantsOk, IdentitiesOk, ProxyOk, BeliefsOk, RegistryShown, DemandTold, HistoryOk;
    var g1 := NotifyGone(RejectPending(g, b), b, BackendOffline);
    NotifyGoneLogs(RejectPending(g, b), b, BackendOffline);
    var targets := g1.peers.Keys - exclude;
    SnapshotThenLose(g1.peers, g1.subscriptions, g1.leases, g1.registry - {b}, g1.granted, g1.sent, b, targets);
    DeliverSnapshot(g1.peers, g1.registry - {b}, g1.sent, targets, {g.leases[b].owner});
  }

  // ---------------------------------------------------------------- a peer goes away

  lemma UnlistSubs(subscriptions: Subscriptions, p: PeerId, b: BackendId)
    ensures Subs(Unlist(subscriptions, p), b) == Subs(subscriptions, b) - {p}
  {
  }

  lemma UnlistMirrored(subscriptions: Subscriptions, peers: Peers, p: PeerId)
    requires Mirrored(subscriptions, peers)
    ensures Mirrored(Unlist(subscriptions, p), peers - {p})
  {
    forall b, q ensures q in Subs(Unlist(subscriptions, p), b) <==> q in peers - {p} && b in (peers - {p})[q].subscribed {
      UnlistSubs(subscriptions, p, b);
      assert q in Subs(subscriptions, b) <==> q in peers && b in peers[q].subscribed;
    }
  }

  lemma UnlistCounted(subscriptions: Subscriptions, demand: Demands, p: PeerId)
    requires Counted(subscriptions, demand)
    ensures Counted(Unlist(subscriptions, p), Recount(demand, Unlist(subscriptions, p)))
  {
  }

  lemma ForgetPeer(peers: Peers, leases: Leases, registry: Registry, demand: Demands, p: PeerId)
    requires LeasesOk(peers, leases, registry, demand) && GrantsOk(peers, leases, {p})
    ensures LeasesOk(peers - {p}, leases, registry, demand)
    ensures GrantsOk(peers - {p}, leases, {})
  {
    forall q | q in peers - {p} && (peers - {p})[q].grant.Some? ensures IsOwner(peers - {p}, leases, q) {
      assert IsOwner(peers, leases, q);
    }
  }

  /** What the departure of p leaves in the log of another peer, fold by fold. */
  lemma DepartureLog(log: seq<Msg>, granted: Granted, demand: Demands, b: BackendId, departed: Option<PeerId>)
    ensures var log' := log + DepartureNotice(demand, b, departed);
            && (forall c :: Belief(log', c) == Belief(log, c))
            && LogRegistry(log') == LogRegistry(log)
            && (Unsettled(log') <==> Unsettled(log))
            && (DemandView(log') <==> DemandView(log) && IsActive(demand, b))
            && (log != [] && GoodLog(log, granted) ==> GoodLog(log', granted))
  {
    var first := if departed.Some? then [SubscriberDisconnected(b, departed.value)] else [];
    var rest := if IsActive(demand, b) then [] else [StreamDemand(false)];
    assert log + DepartureNotice(demand, b, departed) == (log + first) + rest;
    assert first == [] ==> log + first == log;
    assert rest == [] ==> (log + first) + rest == log + first;
    if first != [] { Appended(log, first[0]); }
    if rest != [] { Appended(log + first, rest[0]); }
  }

  /** The peers, leases and demand DropPeer's notifications look at. */
  lemma DropPeerLog(g: State, p: PeerId, departed: Option<PeerId>, q: PeerId)
    requires p in g.peers && q in g.sent && !IsOwner(g.peers, g.leases, p)
    ensures var demand := Recount(g.demand, Unlist(g.subscriptions, p));
            DropPeer(g, p, departed).sent[q] ==
              if Told(g.peers, g.leases, g.peers[p].subscribed, q)
              then g.sent[q] + DepartureNotice(demand, g.peers[q].grant.value.backendId, departed)
              else g.sent[q]
  {
  }

  lemma DropPeerFolds(g: State, p: PeerId, departed: Option<PeerId>, q: PeerId)
    requires p in g.peers && q in g.sent && !IsOwner(g.peers, g.leases, p)
    ensures var log := Log(g.sent, q);
            var log' := Log(DropPeer(g, p, departed).sent, q);
            && (forall c :: Belief(log', c) == Belief(log, c))
            && LogRegistry(log') == LogRegistry(log)
            && (Unsettled(log') <==> Unsettled(log))
            && (DemandView(log') <==>
                  DemandView(log) && (Told(g.peers, g.leases, g.peers[p].subscribed, q) ==>
                    IsActive(Recount(g.demand, Unlist(g.subscriptions, p)), g.peers[q].grant.value.backendId)))
            && (log != [] && GoodLog(log, g.granted) ==> log' != [] && GoodLog(log', g.granted))
  {
    DropPeerLog(g, p, departed, q);
    if Told(g.peers, g.leases, g.peers[p].subscribed, q) {
      DepartureLog(Log(g.sent, q), g.granted, Recount(g.demand, Unlist(g.subscriptions, p)),
                   g.peers[q].grant.value.backendId, departed);
    }
  }

  lemma DropPeerBeliefs(g: State, p: PeerId, departed: Option<PeerId>)
    requires p in g.peers && !IsOwner(g.peers, g.leases, p) && g.peers.Keys <= g.sent.Keys
    requires BeliefsOk(g.peers, g.subscriptions, g.leases, g.sent)
    ensures BeliefsOk(g.peers - {p}, Unlist(g.subscriptions, p), g.leases, DropPeer(g, p, departed).sent)
  {
    forall q, b | IsOpen(g.peers - {p}, q)
      ensures Belief(Log(DropPeer(g, p, departed).sent, q), b) == Listed(Unlist(g.subscriptions, p), g.leases, q, b)
    {
      assert IsOpen(g.peers, q);
      assert Belief(Log(g.sent, q), b) == Listed(g.subscriptions, g.leases, q, b);
      DropPeerFolds(g, p, departed, q);
      UnlistSubs(g.subscriptions, p, b);
    }
  }

  lemma DropPeerRegistry(g: State, p: PeerId, departed: Option<PeerId>)
    requires p in g.peers && !IsOwner(g.peers, g.leases, p) && g.peers.Keys <= g.sent.Keys
    requires RegistryShown(g.peers, g.registry, g.sent, {p})
    ensures RegistryShown(g.peers - {p}, g.registry, DropPeer(g, p, departed).sent, {})
  {
    forall q | IsOpen(g.peers - {p}, q)
      ensures LogRegistry(Log(DropPeer(g, p, departed).sent, q)) == g.registry
      ensures !Unsettled(Log(DropPeer(g, p, departed).sent, q))
    {
      assert IsOpen(g.peers, q);
      DropPeerFolds(g, p, departed, q);
    }
  }

  lemma DropPeerDemand(g: State, p: PeerId, departed: Option<PeerId>)
    requires p in g.peers && !IsOwner(g.peers, g.leases, p) && g.peers.Keys <= g.sent.Keys
    requires DemandTold(g.peers, g.leases, g.subscriptions, g.sent, {})
    requires Mirrored(g.subscriptions, g.peers) && g.demand.Keys == g.leases.Keys
    ensures DemandTold(g.peers - {p}, g.leases, Unlist(g.subscriptions, p), DropPeer(g, p, departed).sent, {})
  {
    forall q | IsOpen(g.peers - {p}, q) && IsOwner(g.peers - {p}, g.leases, q)
      ensures DemandView(Log(DropPeer(g, p, departed).sent, q)) ==
              (Subs(Unlist(g.subscriptions, p), g.peers[q].grant.value.backendId) != {})
    {
      assert IsOpen(g.peers, q) && IsOwner(g.peers, g.leases, q);
      var b := g.peers[q].grant.value.backendId;
      DropPeerFolds(g, p, departed, q);
      UnlistSubs(g.subscriptions, p, b);
      assert p in Subs(g.subscriptions, b) <==> b in g.peers[p].subscribed;
    }
  }

  lemma DropPeerHistory(g: State, p: PeerId, departed: Option<PeerId>)
    requires p in g.peers && !IsOwner(g.peers, g.leases, p) && HistoryOk(g.sent, g.granted)
    ensures HistoryOk(DropPeer(g, p, departed).sent, g.granted)
  {
    var sent' := DropPeer(g, p, departed).sent;
    forall q | q in sent' ensures sent'[q] != [] && GoodLog(sent'[q], g.granted) {
      assert Log(sent', q) == sent'[q] && Log(g.sent, q) == g.sent[q];
      DropPeerFolds(g, p, departed, q);
    }
  }

  /** A peer going away, component by component. */
  lemma DropPeerParts(g: State, p: PeerId, departed: Option<PeerId>)
    requires p in g.peers
    ensures var g' := DropPeer(g, p, departed);
            && g'.subscriptions == Unlist(g.subscriptions, p)
            && g'.peers == g.peers - {p}
            && g'.demand == Recount(g.demand, Unlist(g.subscriptions, p))
            && g'.leases == g.leases && g'.registry == g.registry
            && g'.identities == g.identities && g'.granted == g.granted && g'.proxy == g.proxy
            && g'.sent.Keys == g.sent.Keys
  {
    hide Unlist, Recount, Told, DepartureNotice;
    assert g.peers[p := g.peers[p].(subscribed := {})] - {p} == g.peers - {p};
  }

  lemma RecountLeases(peers: Peers, leases: Leases, registry: Registry, demand: Demands, subscriptions: Subscriptions)
    requires LeasesOk(peers, leases, registry, demand)
    ensures LeasesOk(peers, leases, registry, Recount(demand, subscriptions))
  {
  }

  lemma DropPeerIndexes(g: State, p: PeerId, departed: Option<PeerId>)
    requires IndexesOk(g, {p}) && p in g.peers
    ensures IndexesOk(DropPeer(g, p, departed), {})
  {
    hide Mirrored, Counted, LeasesOk, GrantsOk, IdentitiesOk, ProxyOk, DropPeer;
    DropPeerParts(g, p, departed);
    UnlistMirrored(g.subscriptions, g.peers, p);
    UnlistCounted(g.subscriptions, g.demand, p);
    ForgetPeer(g.peers, g.leases, g.registry, g.demand, p);
    RecountLeases(g.peers - {p}, g.leases, g.registry, g.demand, Unlist(g.subscriptions, p));
  }

  lemma DropPeerLogs(g: State, p: PeerId, departed: Option<PeerId>)
    requires IndexesOk(g, {p}) && LogsOk(g, {p}) && p in g.peers
    ensures LogsOk(DropPeer(g, p, departed), {})
  {
    hide Mirrored, Counted, IdentitiesOk, ProxyOk, BeliefsOk, RegistryShown, DemandTold, HistoryOk;
    assert !IsOwner(g.peers, g.leases, p);
    DropPeerBeliefs(g, p, departed);
    DropPeerRegistry(g, p, departed);
    DropPeerDemand(g, p, departed);
    DropPeerHistory(g, p, departed);
    assert g.peers[p := g.peers[p].(subscribed := {})] - {p} == g.peers - {p};
  }

  /** A peer without a lease may start leaving at any time. */
  lemma MayLeave(peers: Peers, leases: Leases, registry: Registry, sent: Sent, p: PeerId)
    requires GrantsOk(peers, leases, {}) && !IsOwner(peers, leases, p) && RegistryShown(peers, registry, sent, {})
    ensures GrantsOk(peers, leases, {p}) && RegistryShown(peers, registry, sent, {p})
  {
  }

  lemma DisconnectKeepsInv(g: State, p: PeerId)
    requires Inv(g)
    ensures Inv(Disconnect(g, p))
  {
    hide Mirrored, Counted, GrantsOk, IdentitiesOk, ProxyOk, BeliefsOk, RegistryShown, DemandTold, HistoryOk;
    if p in g.peers {
      if IsOwner(g.peers, g.leases, p) {
        var b := g.peers[p].grant.value.backendId;
        DropBackendIndexes(g, b, {p});
        DropBackendLogs(g, b, {p});
        DropPeerIndexes(DropBackend(g, b, {p}), p, Some(p));
        DropPeerLogs(DropBackend(g, b, {p}), p, Some(p));
      } else {
        MayLeave(g.peers, g.leases, g.registry, g.sent, p);
        DropPeerIndexes(g, p, Some(p));
        DropPeerLogs(g, p, Some(p));
      }
    }
  }

  lemma ClearGrantMirrored(subscriptions: Subscriptions, peers: Peers, p: PeerId)
    requires Mirrored(subscriptions, peers) && p in peers
    ensures Mirrored(subscriptions, ClearGrant(peers, p))
  {
  }

  lemma ClearGrantSessions(peers: Peers, leases: Leases, p: PeerId)
    requires GrantsOk(peers, leases, {p}) && p in peers
    ensures GrantsOk(ClearGrant(peers, p), leases, {p})
    ensures forall q :: IsOwner(ClearGrant(peers, p), leases, q) <==> IsOwner(peers, leases, q)
    ensures forall q :: IsOpen(ClearGrant(peers, p), q) <==> IsOpen(peers, q)
  {
    forall q ensures IsOwner(ClearGrant(peers, p), leases, q) <==> IsOwner(peers, leases, q) {
      if q == p { assert !IsOwner(peers, leases, p); }
    }
  }

  lemma ClearGrantIndexes(g: State, p: PeerId)
    requires IndexesOk(g, {p}) && p in g.peers
    ensures IndexesOk(g.(peers := ClearGrant(g.peers, p)), {p})
  {
    hide Mirrored, Counted, GrantsOk, IdentitiesOk, ProxyOk, BeliefsOk, RegistryShown, DemandTold, HistoryOk;
    ClearGrantMirrored(g.subscriptions, g.peers, p);
    ClearGrantSessions(g.peers, g.leases, p);
  }

  lemma ClearGrantLogs(g: State, p: PeerId)
    requires GrantsOk(g.peers, g.leases, {p}) && LogsOk(g, {p}) && p in g.peers
    ensures LogsOk(g.(peers := ClearGrant(g.peers, p)), {p})
  {
  }

  /** The second half of an expiry: the owner's grant is cleared and the owner dropped. */
  lemma DropFormerOwner(g: State, p: PeerId)
    requires IndexesOk(g, {p}) && LogsOk(g, {p}) && p in g.peers
    ensures Inv(DropPeer(g.(peers := ClearGrant(g.peers, p)), p, None))
  {
    hide Mirrored, Counted, LeasesOk, GrantsOk, IdentitiesOk, ProxyOk, BeliefsOk, RegistryShown, DemandTold, HistoryOk;
    var g' := g.(peers := ClearGrant(g.peers, p));
    ClearGrantIndexes(g, p);
    ClearGrantLogs(g, p);
    DropPeerIndexes(g', p, None);
    DropPeerLogs(g', p, None);
  }

  lemma ExpireKeepsInv(g: State, b: BackendId, now: Time)
    requires Inv(g)
    ensures Inv(Expire(g, b, now))
  {
    hide Mirrored, Counted, GrantsOk, IdentitiesOk, ProxyOk, BeliefsOk, RegistryShown, DemandTold, HistoryOk;
    if b in g.leases && now - g.leases[b].lastHeartbeatAt > LEASE_TTL_MS {
      DropBackendIndexes(g, b, {});
      DropBackendLogs(g, b, {});
      DropFormerOwner(DropBackend(g, b, {}), g.leases[b].owner);
    }
  }
}
