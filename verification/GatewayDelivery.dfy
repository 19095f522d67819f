/** Who is written what: for every event, exactly what each connection's log grows by, and who stays listed and connected. */
module GatewayDelivery {
  import opened Options
  import opened Storage
  import opened Gateway
  import opened GatewayInvariants
  import opened GatewaySteps
  import opened GatewayJoining
  import opened GatewayHistory
  import opened GatewayNotices

  /** The log of q grows by `more`. */
  ghost predicate Writes(g: State, ev: Event, q: PeerId, more: seq<Msg>) {
    Log(Step(g, ev).sent, q) == Log(g.sent, q) + more
  }

  /** One message, on a condition. */
  function When(condition: bool, m: Msg): seq<Msg> {
    if condition then [m] else []
  }

  lemma SentLog(g: State, targets: set<PeerId>, m: Msg, q: PeerId)
    requires q in g.sent
    ensures Log(SendAll(g, targets, m).sent, q) == Log(g.sent, q) + When(q in targets && IsOpen(g.peers, q), m)
  {
  }

  lemma NothingSent(log: seq<Msg>)
    ensures log + [] == log
  {
  }

  /** In a valid state the peer that owns b is the one whose grant names b. */
  lemma OwnerGrant(g: State, p: PeerId, c: BackendId)
    requires Inv(g)
    ensures Owner(g.peers, g.leases, c) == Some(p) <==>
            IsOwner(g.peers, g.leases, p) && g.peers[p].grant.value.backendId == c
    ensures p in g.peers && g.peers[p].grant.Some? <==> IsOwner(g.peers, g.leases, p)
    ensures Owner(g.peers, g.leases, c) == Some(p) ==> c in g.leases && g.leases[c].owner == p
  {
    hide Mirrored, Counted, IdentitiesOk, ProxyOk, LogsOk;
    if c in g.leases {
      assert g.peers[g.leases[c].owner].grant == Some(Grant(c, g.leases[c].epoch));
    }
  }

  // ---------------------------------------------------------------- relays

  /** A relay of the owner of c reaches every connected subscriber of c, and nobody else. */
  lemma RelayReaches(g: State, p: PeerId, kind: RelayKind, claimed: BackendId, payload: Payload, c: BackendId, q: PeerId)
    requires Inv(g) && q in g.sent && Owner(g.peers, g.leases, c) == Some(p)
    requires kind.ServerMessage? || kind.ContentPatch? || kind.ContentPatchError? ==> claimed == c
    ensures Writes(g, EvRelay(p, kind, claimed, payload), q,
                   When(q in Subs(g.subscriptions, c) && IsOpen(g.peers, q), Relayed(c, kind, payload, p)))
  {
    hide Inv, SendAll, Subs, Owner, IsOwner;
    OwnerGrant(g, p, c);
    SentLog(g, Subs(g.subscriptions, c), Relayed(c, kind, payload, p), q);
  }

  /** A relay of anyone else, or of an owner that names another backend where the name is checked, reaches nobody. */
  lemma RelayRefused(g: State, p: PeerId, kind: RelayKind, claimed: BackendId, payload: Payload, q: PeerId)
    requires Inv(g)
    requires forall c :: Owner(g.peers, g.leases, c) == Some(p) ==>
               (kind.ServerMessage? || kind.ContentPatch? || kind.ContentPatchError?) && claimed != c
    ensures Writes(g, EvRelay(p, kind, claimed, payload), q, [])
  {
    hide Inv, SendAll, Subs, Owner, IsOwner, Log;
    NothingSent(Log(g.sent, q));
    if IsOwner(g.peers, g.leases, p) { OwnerGrant(g, p, OwnedBy(g, p)); }
  }

  function OwnedBy(g: State, p: PeerId): BackendId
    requires IsOwner(g.peers, g.leases, p)
  {
    g.peers[p].grant.value.backendId
  }

  /** A targeted message goes from the owner of the backend it names to the peer it names, subscribed or not. */
  lemma TargetedReaches(g: State, p: PeerId, claimed: BackendId, target: PeerId, payload: Payload, q: PeerId)
    requires Inv(g) && q in g.sent
    ensures Writes(g, EvTargeted(p, claimed, target, payload), q,
                   When(Owner(g.peers, g.leases, claimed) == Some(p) && q == target && IsOpen(g.peers, q),
                        TargetedMessage(claimed, payload)))
  {
    hide Inv, SendAll, Owner, IsOwner, Log;
    OwnerGrant(g, p, claimed);
    SentLog(g, {target}, TargetedMessage(claimed, payload), q);
    NothingSent(Log(g.sent, q));
  }

  // ---------------------------------------------------------------- messages of a client

  /** Who a client's message for b is for: b's owner when the client is subscribed, and otherwise the client itself. */
  function ForwardWrites(g: State, p: PeerId, b: BackendId, m: Msg, q: PeerId): seq<Msg> {
    if p !in Subs(g.subscriptions, b) then When(q == p && IsOpen(g.peers, q), GatewayError(NotSubscribedError))
    else if Owner(g.peers, g.leases, b) == None then When(q == p && IsOpen(g.peers, q), GatewayError(OfflineError))
    else When(Owner(g.peers, g.leases, b) == Some(q) && IsOpen(g.peers, q), m)
  }

  lemma ForwardLog(g: State, p: PeerId, b: BackendId, m: Msg, q: PeerId)
    requires q in g.sent
    ensures Log(Forward(g, p, b, m).sent, q) == Log(g.sent, q) + ForwardWrites(g, p, b, m, q)
  {
    hide SendAll, Owner, Log, Subs;
    SentLog(g, {p}, GatewayError(NotSubscribedError), q);
    SentLog(g, {p}, GatewayError(OfflineError), q);
    var owner := Owner(g.peers, g.leases, b);
    if owner.Some? { SentLog(g, {owner.value}, m, q); }
  }

  /** A subscriber's message and its catch-up request reach the owner alone, with the sender named on the message. */
  lemma ForwardReaches(g: State, p: PeerId, b: BackendId, payload: Payload, q: PeerId)
    requires q in g.sent
    ensures Writes(g, EvClientMessage(p, b, payload), q, ForwardWrites(g, p, b, ClientMessage(b, payload, p), q))
    ensures Writes(g, EvCatchUp(p, b, payload), q, ForwardWrites(g, p, b, CatchUp(b, payload), q))
  {
    hide Forward, Log, ForwardWrites;
    ForwardLog(g, p, b, ClientMessage(b, payload, p), q);
    ForwardLog(g, p, b, CatchUp(b, payload), q);
  }

  /** A request for a backend's data goes to its owner, or back as an error; one for the registry is answered. */
  lemma RequestsReach(g: State, p: PeerId, b: BackendId, q: PeerId)
    requires q in g.sent
    ensures Writes(g, EvRequestSnapshot(p, b), q,
                   if Owner(g.peers, g.leases, b) == None then When(q == p && IsOpen(g.peers, q), GatewayError(OfflineError))
                   else When(Owner(g.peers, g.leases, b) == Some(q) && IsOpen(g.peers, q), RequestDataSnapshot(b, None)))
    ensures Writes(g, EvRequestRegistry(p), q, When(q == p && IsOpen(g.peers, q), RegistrySnapshot(g.registry)))
  {
    hide SendAll, Owner, Log;
    SentLog(g, {p}, GatewayError(OfflineError), q);
    SentLog(g, {p}, RegistrySnapshot(g.registry), q);
    var owner := Owner(g.peers, g.leases, b);
    if owner.Some? { SentLog(g, {owner.value}, RequestDataSnapshot(b, None), q); }
  }

  /** The periodic push shows the registry to every connection. */
  lemma PollReaches(g: State, q: PeerId)
    requires q in g.sent
    ensures Writes(g, EvPoll, q, When(IsOpen(g.peers, q), RegistrySnapshot(g.registry)))
  {
    hide SendAll, Log;
    SentLog(g, g.peers.Keys - {}, RegistrySnapshot(g.registry), q);
  }

  /** A heartbeat of an owner at its epoch is acknowledged, with whether its backend has subscribers. */
  lemma HeartbeatReaches(g: State, p: PeerId, e: Epoch, now: Time, c: BackendId, q: PeerId)
    requires Inv(g) && q in g.sent && Owner(g.peers, g.leases, c) == Some(p)
    ensures Writes(g, EvHeartbeat(p, e, now), q,
                   When(q == p && IsOpen(g.peers, q) && e == g.leases[c].epoch, HeartbeatAck(e, Subs(g.subscriptions, c) != {})))
  {
    hide Inv, SendAll, Owner, IsOwner, Log, Subs, IsActive;
    OwnerGrant(g, p, c);
    LeaseHolder(g, c, p);
    DemandCounts(g, c);
    NothingSent(Log(g.sent, q));
    HeartbeatSends(g, p, e, now, q);
  }

  lemma HeartbeatSends(g: State, p: PeerId, e: Epoch, now: Time, q: PeerId)
    requires q in g.sent
    ensures Log(Heartbeat(g, p, e, now).sent, q) == Log(g.sent, q) +
            (if IsOwner(g.peers, g.leases, p) && g.peers[p].grant.value.epoch == e
             then When(q == p && IsOpen(g.peers, q), HeartbeatAck(e, IsActive(g.demand, g.peers[p].grant.value.backendId)))
             else [])
  {
  }

  lemma DemandCounts(g: State, c: BackendId)
    requires Inv(g) && c in g.leases
    ensures IsActive(g.demand, c) <==> Subs(g.subscriptions, c) != {}
    ensures Owner(g.peers, g.leases, c) == Some(g.leases[c].owner)
  {
    hide Mirrored, GrantsOk, IdentitiesOk, ProxyOk, LogsOk;
  }

  /** A heartbeat of a peer that owns nothing is not answered. */
  lemma HeartbeatRefused(g: State, p: PeerId, e: Epoch, now: Time, q: PeerId)
    requires Inv(g) && forall c :: Owner(g.peers, g.leases, c) != Some(p)
    ensures Writes(g, EvHeartbeat(p, e, now), q, [])
  {
    hide Inv, SendAll, Owner, IsOwner, Log;
    NothingSent(Log(g.sent, q));
    if IsOwner(g.peers, g.leases, p) { OwnerGrant(g, p, OwnedBy(g, p)); }
  }

  // ---------------------------------------------------------------- subscribing

  /** A granted subscribe: what SubscribeWrites says, to the subscriber and the owner. */
  lemma SubscribeReaches(g: State, p: PeerId, b: BackendId, q: PeerId)
    requires Inv(g) && p in g.peers && q in g.sent
    ensures Writes(g, EvSubscribe(p, b), q,
                   if b in g.registry
                   then When(Subs(g.subscriptions, b) == {} && Owner(g.peers, g.leases, b) == Some(q) && IsOpen(g.peers, q),
                             StreamDemand(true)) +
                        When(q == p && IsOpen(g.peers, q),
                             BackendSubscribed(b, g.registry[b].epoch, g.registry[b].capabilities)) +
                        When(p !in Subs(g.subscriptions, b) && Owner(g.peers, g.leases, b) == Some(q) && IsOpen(g.peers, q),
                             RequestDataSnapshot(b, Some(p)))
                   else When(q == p && IsOpen(g.peers, q), GatewayError(OfflineError)))
  {
    hide Subscribe, SendAll, Owner, Counted, GrantsOk, IdentitiesOk, ProxyOk, LogsOk, Log;
    if b in g.registry {
      assert p in Subs(g.subscriptions, b) <==> b in g.peers[p].subscribed;
      SubscribeLog(g, p, b, q);
    } else {
      RefusedSubscribe(g, p, b);
      SentLog(g, {p}, GatewayError(OfflineError), q);
    }
  }

  lemma UnsubscribeReaches(g: State, p: PeerId, b: BackendId, q: PeerId)
    requires q in g.sent
    ensures Writes(g, EvUnsubscribe(p, b), q,
                   When(q == p && IsOpen(g.peers, q), BackendUnsubscribed(b, ClientUnsubscribed)) +
                   When(Owner(g.peers, g.leases, b) == Some(q) && IsOpen(g.peers, q), SubscriberDisconnected(b, p)) +
                   When(Subs(g.subscriptions, b) == {p} && Owner(g.peers, g.leases, b) == Some(q) && IsOpen(g.peers, q),
                        StreamDemand(false)))
  {
    hide Unsubscribe, Owner, Log, Subs;
    UnsubscribeLog(g, p, b, q);
  }

  // ---------------------------------------------------------------- leaving

  /** What the loss of backend b writes to q. */
  function LossWrites(g: State, b: BackendId, reason: CloseReason, exclude: set<PeerId>, q: PeerId): seq<Msg> {
    When(q in Subs(g.subscriptions, b) && IsOpen(g.peers, q), BackendUnsubscribed(b, reason)) +
    When(IsOpen(g.peers, q) && q !in exclude, RegistrySnapshot(g.registry - {b}))
  }

  lemma DropBackendLog(g: State, b: BackendId, exclude: set<PeerId>, q: PeerId)
    requires q in g.sent && g.peers.Keys <= g.sent.Keys
    ensures Log(DropBackend(g, b, exclude).sent, q) == Log(g.sent, q) + LossWrites(g, b, BackendOffline, exclude, q)
    ensures IsOpen(DropBackend(g, b, exclude).peers, q) <==> IsOpen(g.peers, q)
  {
    hide SendAll, Log, Put, Count, Settle, Requests, Subs;
    var g0 := RejectPending(g, b);
    var told := SendAll(g0, Subs(g.subscriptions, b), BackendUnsubscribed(b, BackendOffline));
    var g1 := NotifyGone(g0, b, BackendOffline);
    var g2 := g1.(registry := g1.registry - {b});
    SentLog(g0, Subs(g.subscriptions, b), BackendUnsubscribed(b, BackendOffline), q);
    SendingKeeps(g0, Subs(g.subscriptions, b), BackendUnsubscribed(b, BackendOffline));
    SubscribersSilent(told, b, {}, q);
    SentLog(g2, g2.peers.Keys - exclude, RegistrySnapshot(g2.registry), q);
    SendingKeeps(g2, g2.peers.Keys - exclude, RegistrySnapshot(g2.registry));
  }

  lemma SendingKeeps(g: State, targets: set<PeerId>, m: Msg)
    ensures var g' := SendAll(g, targets, m);
            && g'.peers == g.peers && g'.registry == g.registry && g'.leases == g.leases
            && g'.subscriptions == g.subscriptions && g'.demand == g.demand && g'.sent.Keys == g.sent.Keys
  {
  }

  /** What the departure of p writes to the owner of a backend with these subscribers. */
  function DepartureWrites(c: BackendId, subscribers: set<PeerId>, p: PeerId, announced: bool): seq<Msg> {
    if p in subscribers then When(announced, SubscriberDisconnected(c, p)) + When(subscribers == {p}, StreamDemand(false)) else []
  }

  lemma DropPeerWrites(g: State, p: PeerId, departed: Option<PeerId>, q: PeerId)
    requires p in g.peers && q in g.sent && !IsOwner(g.peers, g.leases, p)
    requires departed == None || departed == Some(p)
    requires Mirrored(g.subscriptions, g.peers) && (IsOwner(g.peers, g.leases, q) ==> OwnedBy(g, q) in g.demand)
    ensures Log(DropPeer(g, p, departed).sent, q) == Log(g.sent, q) +
            if IsOpen(g.peers, q) && IsOwner(g.peers, g.leases, q)
            then DepartureWrites(OwnedBy(g, q), Subs(g.subscriptions, OwnedBy(g, q)), p, departed.Some?) else []
  {
    hide DropPeer, IsOwner, Recount, Unlist, Mirrored, Subs;
    DropPeerLog(g, p, departed, q);
    DropPeerKeepsLogs(g, p, departed, q);
    NothingSent(Log(g.sent, q));
    if IsOwner(g.peers, g.leases, q) {
      var c := OwnedBy(g, q);
      SubscribedAs(g.subscriptions, g.peers, p, c);
      UnlistSubs(g.subscriptions, p, c);
      StillActive(g.demand, Unlist(g.subscriptions, p), c);
    }
  }

  lemma SubscribedAs(subscriptions: Subscriptions, peers: Peers, p: PeerId, c: BackendId)
    requires Mirrored(subscriptions, peers) && p in peers
    ensures p in Subs(subscriptions, c) <==> c in peers[p].subscribed
  {
  }

  lemma StillActive(demand: Demands, subscriptions: Subscriptions, c: BackendId)
    requires c in demand
    ensures IsActive(Recount(demand, subscriptions), c) <==> Subs(subscriptions, c) != {}
  {
  }

  /** What the state after a backend's loss still says about another owner. */
  lemma LossLeaves(g: State, b: BackendId, exclude: set<PeerId>, q: PeerId)
    requires Inv(g) && b in g.leases
    ensures var g1 := DropBackend(g, b, exclude);
            && Mirrored(g1.subscriptions, g1.peers) && !IsOwner(g1.peers, g1.leases, g.leases[b].owner)
            && (q != g.leases[b].owner ==>
                  (IsOwner(g1.peers, g1.leases, q) <==> IsOwner(g.peers, g.leases, q))
                  && (IsOwner(g.peers, g.leases, q) ==>
                        OwnedBy(g1, q) == OwnedBy(g, q) && OwnedBy(g, q) in g1.demand
                        && Subs(g1.subscriptions, OwnedBy(g, q)) == Subs(g.subscriptions, OwnedBy(g, q))))
            && (g1.peers.Keys == g.peers.Keys)
  {
    hide Mirrored, Counted, IdentitiesOk, ProxyOk, LogsOk, DropBackend, Subs;
    DropBackendParts(g, b, exclude);
    DropBackendIndexes(g, b, exclude);
    LostItsLease(g, b, exclude);
    if IsOwner(g.peers, g.leases, q) { PutSubs(g.subscriptions, b, {}, OwnedBy(g, q)); }
  }

  /** What a disconnect of p writes to q: p's backend is lost, and the owners p subscribed to hear of it. */
  function DisconnectWrites(g: State, p: PeerId, q: PeerId): seq<Msg> {
    if p !in g.peers then []
    else
      (if g.peers[p].grant.Some? then LossWrites(g, g.peers[p].grant.value.backendId, BackendOffline, {p}, q) else []) +
      (if q != p && IsOpen(g.peers, q) && g.peers[q].grant.Some?
       then DepartureWrites(g.peers[q].grant.value.backendId, Subs(g.subscriptions, g.peers[q].grant.value.backendId), p, true)
       else [])
  }

  lemma DisconnectReaches(g: State, p: PeerId, q: PeerId)
    requires Inv(g) && q in g.sent
    ensures Writes(g, EvDisconnect(p), q, DisconnectWrites(g, p, q))
  {
    hide Inv, DropBackend, DropPeer, IsOwner, Subs, Log, LossWrites, DepartureWrites;
    NothingSent(Log(g.sent, q));
    if p in g.peers {
      ValidParts(g);
      OwnerGrant(g, p, 0);
      OwnerGrant(g, q, 0);
      if IsOwner(g.peers, g.leases, p) {
        var b := OwnedBy(g, p);
        OwnerGrant(g, p, b);
        var g1 := DropBackend(g, b, {p});
        DropBackendLog(g, b, {p}, q);
        DropBackendParts(g, b, {p});
        LossLeaves(g, b, {p}, q);
        DropPeerWrites(g1, p, Some(p), q);
      } else {
        DropPeerWrites(g, p, Some(p), q);
      }
    }
  }

  lemma ValidParts(g: State)
    requires Inv(g)
    ensures Mirrored(g.subscriptions, g.peers) && g.peers.Keys <= g.sent.Keys
    ensures forall q :: IsOwner(g.peers, g.leases, q) ==> OwnedBy(g, q) in g.demand
  {
  }

  /** What the expiry of p's lease of b writes to q: the owners p subscribed to hear of a demand that ends, at most. */
  function ExpireWrites(g: State, b: BackendId, p: PeerId, q: PeerId): seq<Msg> {
    LossWrites(g, b, BackendOffline, {}, q) +
    (if q != p && IsOpen(g.peers, q) && g.peers[q].grant.Some?
     then DepartureWrites(g.peers[q].grant.value.backendId, Subs(g.subscriptions, g.peers[q].grant.value.backendId), p, false)
     else [])
  }

  lemma ExpireReaches(g: State, b: BackendId, now: Time, q: PeerId)
    requires Inv(g) && q in g.sent
    ensures Writes(g, EvExpire(b, now), q, if RunsOut(g, b, now) then ExpireWrites(g, b, g.leases[b].owner, q) else [])
  {
    hide Inv, DropBackend, DropPeer, IsOwner, Subs, Log, LossWrites, DepartureWrites;
    NothingSent(Log(g.sent, q));
    if RunsOut(g, b, now) {
      var p := g.leases[b].owner;
      LeaseHolder(g, b, p);
      ValidParts(g);
      OwnerGrant(g, p, b);
      OwnerGrant(g, q, 0);
      var g1 := DropBackend(g, b, {});
      DropBackendLog(g, b, {}, q);
      DropBackendParts(g, b, {});
      LossLeaves(g, b, {}, q);
      var g2 := g1.(peers := ClearGrant(g1.peers, p));
      ClearedGrant(g1, p, q);
      DropPeerWrites(g2, p, None, q);
    }
  }

  lemma ClearedGrant(g: State, p: PeerId, q: PeerId)
    requires p in g.peers && Mirrored(g.subscriptions, g.peers) && !IsOwner(g.peers, g.leases, p)
    ensures var peers' := ClearGrant(g.peers, p);
            && Mirrored(g.subscriptions, peers')
            && (IsOwner(peers', g.leases, q) <==> IsOwner(g.peers, g.leases, q))
            && (IsOwner(g.peers, g.leases, q) ==> peers'[q].grant == g.peers[q].grant)
            && (IsOpen(peers', q) <==> IsOpen(g.peers, q))
            && p in peers' && !IsOwner(peers', g.leases, p)
  {
  }

  // ---------------------------------------------------------------- joining

  /** What a backend's hello, which is registered as `presence`, writes to the peers that were there. */
  function HelloWrites(g: State, presence: Presence, q: PeerId): seq<Msg> {
    var b := presence.backendId;
    When(b in g.leases && q in Subs(g.subscriptions, b) && IsOpen(g.peers, q), BackendUnsubscribed(b, EpochChanged)) +
    When(IsOpen(g.peers, q) && !(b in g.leases && g.leases[b].owner == q), RegistrySnapshot(g.registry[b := presence]))
  }

  /**
   * A backend's hello takes a fresh epoch, greets the new owner with the registry that lists it, tells the former
   * owner's subscribers, and shows that registry to everyone else but the former owner.
   */
  lemma HelloReaches(g: State, p: PeerId, h: BackendHello, now: Time, q: PeerId)
    requires Inv(g) && p !in g.sent
    ensures var b, e := ClaimedBackend(g, h), g.identities.maxEpoch + 1;
            var presence := Presence(b, h.instance, h.visible, h.capabilities, e);
            && Log(Step(g, EvHelloBackend(p, h, now)).sent, p) == [PeerReady(p, Some(Grant(b, e)), g.registry[b := presence])]
            && (q in g.sent ==> Writes(g, EvHelloBackend(p, h, now), q, HelloWrites(g, presence, q)))
  {
    hide Inv, HelloBackend, Vacate, Subs, ClaimedBackend, Deliver;
    PeersLogged(g, p);
    var b := ClaimedBackend(g, h);
    VacateLog(g, b, q);
    VacateLog(g, b, p);
    VacateKeepsKeys(g, b);
    HelloBackendSent(g, p, h, now);
    if q in g.sent { DeliveredLog(Vacate(g, b), RegistrySnapshot(g.registry[b := NewPresence(g, h)]), q); }
  }

  lemma DeliveredLog(g: State, m: Msg, q: PeerId)
    requires q in g.sent
    ensures var sent' := Deliver(g.sent, g.peers, g.peers.Keys, m);
            q in sent' && sent'[q] == Log(g.sent, q) + When(IsOpen(g.peers, q), m)
  {
  }

  lemma VacateKeepsKeys(g: State, b: BackendId)
    ensures Vacate(g, b).peers.Keys == g.peers.Keys && Vacate(g, b).sent.Keys == g.sent.Keys
  {
  }

  lemma VacateLog(g: State, b: BackendId, q: PeerId)
    ensures var g1 := Vacate(g, b);
            && (q in g.sent ==>
                  Log(g1.sent, q) == Log(g.sent, q) +
                  When(b in g.leases && q in Subs(g.subscriptions, b) && IsOpen(g.peers, q), BackendUnsubscribed(b, EpochChanged)))
            && (IsOpen(g1.peers, q) <==> IsOpen(g.peers, q) && !(b in g.leases && g.leases[b].owner == q))
  {
    hide SendAll, Log, Put, Count, Subs, Resubscribe;
    if b in g.leases {
      var told := SendAll(g, Subs(g.subscriptions, b), BackendUnsubscribed(b, EpochChanged));
      SendingKeeps(g, Subs(g.subscriptions, b), BackendUnsubscribed(b, EpochChanged));
      if q in g.sent { SentLog(g, Subs(g.subscriptions, b), BackendUnsubscribed(b, EpochChanged), q); }
      ResubscribeOpen(g.peers, b, q);
      ResubscribeOpen(g.peers, b, g.leases[b].owner);
    } else {
      NothingSent(Log(g.sent, q));
    }
  }

  /** A client's hello greets it with the registry and writes to nobody else. */
  lemma HelloClientReaches(g: State, p: PeerId, q: PeerId)
    requires p !in g.sent
    ensures Log(Step(g, EvHelloClient(p)).sent, p) == [PeerReady(p, None, g.registry)]
    ensures q in g.sent ==> Writes(g, EvHelloClient(p), q, [])
  {
    NothingSent(Log(g.sent, q));
    JoinSent(g.sent, g.peers, p, None, PeerReady(p, None, g.registry));
  }

  /** The rest writes nothing, except that an issued proxy request goes to the owner. */
  lemma OthersReach(g: State, ev: Event, q: PeerId)
    requires q in g.sent
    requires ev.EvCloseSocket? || ev.EvProxyIssue? || ev.EvProxyPending? || ev.EvProxyStart? || ev.EvProxyStreaming?
    ensures Writes(g, ev, q,
                   if ev.EvProxyIssue?
                   then When(Owner(g.peers, g.leases, ev.b) == Some(q) && IsOpen(g.peers, q), ProxyRequest(ev.r)) else [])
  {
    hide Log, SendAll, Owner, Settle;
    NothingSent(Log(g.sent, q));
    if ev.EvProxyIssue? {
      var owner := Owner(g.peers, g.leases, ev.b);
      if owner.Some? {
        SentLog(g.(proxy := g.proxy.(pending := g.proxy.pending[ev.r := ev.b])), {owner.value}, ProxyRequest(ev.r), q);
      }
    }
  }

  // ---------------------------------------------------------------- who is listed and who is connected

  /** The same registry, and the same sockets open. */
  ghost predicate SamePresence(g: State, g': State) {
    g'.registry == g.registry && g'.peers.Keys == g.peers.Keys && forall q :: q in g.peers ==> g'.peers[q].open == g.peers[q].open
  }

  lemma SendPresence(g: State, targets: set<PeerId>, m: Msg)
    ensures SamePresence(g, SendAll(g, targets, m))
  {
  }

  lemma PresentTo(g: State, to: Option<PeerId>, m: Msg)
    ensures SamePresence(g, SendTo(g, to, m))
  {
    hide Deliver;
  }

  lemma HeartbeatPresence(g: State, p: PeerId, e: Epoch, now: Time)
    ensures SamePresence(g, Heartbeat(g, p, e, now))
  {
    hide Deliver;
  }

  lemma RelaysPresence(g: State, p: PeerId, kind: RelayKind, b: BackendId, target: PeerId, payload: Payload)
    ensures SamePresence(g, Relay(g, p, kind, b, payload)) && SamePresence(g, SendTargeted(g, p, b, target, payload))
  {
    hide Deliver, Subs;
  }

  lemma ForwardPresence(g: State, p: PeerId, b: BackendId, m: Msg)
    ensures SamePresence(g, Forward(g, p, b, m))
  {
    hide SendAll, Subs, Owner, SamePresence;
    SendPresence(g, {p}, GatewayError(NotSubscribedError));
    SendPresence(g, {p}, GatewayError(OfflineError));
    var owner := Owner(g.peers, g.leases, b);
    if owner.Some? { SendPresence(g, {owner.value}, m); }
  }

  lemma RequestPresence(g: State, p: PeerId, b: BackendId)
    ensures SamePresence(g, RequestSnapshot(g, p, b))
  {
    hide SendAll, Owner, SamePresence;
    SendPresence(g, {p}, GatewayError(OfflineError));
    var owner := Owner(g.peers, g.leases, b);
    if owner.Some? { SendPresence(g, {owner.value}, RequestDataSnapshot(b, None)); }
  }

  lemma IssuePresence(g: State, r: RequestId, b: BackendId)
    ensures SamePresence(g, Issue(g, r, b))
  {
    hide SendAll, Owner;
    var owner := Owner(g.peers, g.leases, b);
    if owner.Some? {
      var g1 := g.(proxy := g.proxy.(pending := g.proxy.pending[r := b]));
      SendPresence(g1, {owner.value}, ProxyRequest(r));
    }
  }

  lemma SettlingPresence(g: State, r: RequestId, outcome: Outcome)
    ensures SamePresence(g, SettlePending(g, r, outcome)) && SamePresence(g, SettleStreaming(g, r, outcome))
    ensures SamePresence(g, StartStreaming(g, r))
  {
    hide Settle;
  }

  lemma SetSubscribersPresence(g: State, b: BackendId, s: set<PeerId>)
    ensures SamePresence(g, SetSubscribers(g, b, s))
  {
    hide Put, Count;
  }

  lemma SubscribePresence(g: State, p: PeerId, b: BackendId)
    ensures SamePresence(g, Subscribe(g, p, b))
  {
    hide SetSubscribers, Deliver, Owner, Subs;
    if b in g.registry && b in g.leases && p in g.peers {
      SetSubscribersPresence(g, b, Subs(g.subscriptions, b) + {p});
    }
  }

  lemma UnsubscribePresence(g: State, p: PeerId, b: BackendId)
    ensures SamePresence(g, Unsubscribe(g, p, b))
  {
    hide SetSubscribers, SendTo, SendAll, Owner, Subs;
    var g1 := if p in Subs(g.subscriptions, b) then SetSubscribers(g, b, Subs(g.subscriptions, b) - {p}) else g;
    var g2 := Send(g1, p, BackendUnsubscribed(b, ClientUnsubscribed));
    var g3 := SendTo(g2, Owner(g2.peers, g2.leases, b), SubscriberDisconnected(b, p));
    SetSubscribersPresence(g, b, Subs(g.subscriptions, b) - {p});
    SendPresence(g1, {p}, BackendUnsubscribed(b, ClientUnsubscribed));
    PresentTo(g2, Owner(g2.peers, g2.leases, b), SubscriberDisconnected(b, p));
    PresentTo(g3, Owner(g3.peers, g3.leases, b), StreamDemand(false));
  }

  /** Only connecting, closing, disconnecting and expiring change who is listed and who is connected. */
  predicate ChangesPresence(ev: Event) {
    ev.EvHelloClient? || ev.EvHelloBackend? || ev.EvCloseSocket? || ev.EvDisconnect? || ev.EvExpire?
  }

  lemma PresenceKept(g: State, ev: Event)
    requires !ChangesPresence(ev)
    ensures SamePresence(g, Step(g, ev))
  {
    hide SamePresence, Subscribe, Unsubscribe, Heartbeat, Relay, SendTargeted, RequestSnapshot, Forward, SendAll, Issue,
         SettlePending, StartStreaming, SettleStreaming;
    match ev
    case EvHeartbeat(p, e, now) => HeartbeatPresence(g, p, e, now);
    case EvRelay(p, kind, b, payload) => RelaysPresence(g, p, kind, b, p, payload);
    case EvTargeted(p, b, target, payload) => RelaysPresence(g, p, DataEvent, b, target, payload);
    case EvRequestRegistry(p) => SendPresence(g, {p}, RegistrySnapshot(g.registry));
    case EvRequestSnapshot(p, b) => RequestPresence(g, p, b);
    case EvSubscribe(p, b) => SubscribePresence(g, p, b);
    case EvUnsubscribe(p, b) => UnsubscribePresence(g, p, b);
    case EvClientMessage(p, b, payload) => ForwardPresence(g, p, b, ClientMessage(b, payload, p));
    case EvCatchUp(p, b, payload) => ForwardPresence(g, p, b, CatchUp(b, payload));
    case EvPoll => SendPresence(g, g.peers.Keys - {}, RegistrySnapshot(g.registry));
    case EvProxyIssue(r, b) => IssuePresence(g, r, b);
    case EvProxyPending(r, outcome) => SettlingPresence(g, r, outcome);
    case EvProxyStart(r) => SettlingPresence(g, r, Answered);
    case EvProxyStreaming(r, outcome) => SettlingPresence(g, r, outcome);
  }

  /** Is q's connection new with this event? */
  predicate Connects(ev: Event, q: PeerId) {
    (ev.EvHelloClient? || ev.EvHelloBackend?) && ev.p == q
  }

  /** Does this event remove q: its disconnect, or the expiry of a lease it holds? */
  predicate Removes(g: State, ev: Event, q: PeerId) {
    ev == EvDisconnect(q) || (ev.EvExpire? && RunsOut(g, ev.b, ev.now) && g.leases[ev.b].owner == q)
  }

  /** Does this event only shut q's socket: its own closing, or a hello that takes q's backend over? */
  predicate Shuts(g: State, ev: Event, q: PeerId) {
    ev == EvCloseSocket(q) ||
    (ev.EvHelloBackend? && ClaimedBackend(g, ev.hello) in g.leases && g.leases[ClaimedBackend(g, ev.hello)].owner == q)
  }

  /** A peer is connected from its hello until its disconnect or its expiry, and its socket open until it is shut. */
  lemma ConnectedIff(g: State, ev: Event, q: PeerId)
    requires Inv(g) && Enabled(g, ev)
    ensures var g' := Step(g, ev);
            && (q in g'.peers <==> Connects(ev, q) || (q in g.peers && !Removes(g, ev, q)))
            && (IsOpen(g'.peers, q) <==> Connects(ev, q) || (IsOpen(g.peers, q) && !Removes(g, ev, q) && !Shuts(g, ev, q)))
  {
    hide Inv, HelloBackend, HelloClient, Disconnect, Expire, ClaimedBackend, Subs, Subscribe, Unsubscribe, Heartbeat, Relay,
         SendTargeted, RequestSnapshot, Forward, SendAll, Issue, SettlePending, StartStreaming, SettleStreaming;
    match ev
    case EvHelloClient(p) => HelloClientConnects(g, p, q);
    case EvHelloBackend(p, h, now) => HelloBackendConnects(g, p, h, now, q);
    case EvCloseSocket(p) =>
    case EvDisconnect(p) => DisconnectRemoves(g, p, q);
    case EvExpire(b, now) => ExpireRemoves(g, b, now, q);
    case _ => OthersConnected(g, ev, q);
  }

  lemma OthersConnected(g: State, ev: Event, q: PeerId)
    requires !ChangesPresence(ev)
    ensures q in Step(g, ev).peers <==> q in g.peers
    ensures IsOpen(Step(g, ev).peers, q) <==> IsOpen(g.peers, q)
  {
    hide Step;
    PresenceKept(g, ev);
  }

  lemma HelloClientConnects(g: State, p: PeerId, q: PeerId)
    ensures var peers' := HelloClient(g, p).peers;
            (q in peers' <==> q == p || q in g.peers) && (IsOpen(peers', q) <==> q == p || IsOpen(g.peers, q))
  {
    hide Deliver;
  }

  lemma HelloBackendConnects(g: State, p: PeerId, h: BackendHello, now: Time, q: PeerId)
    requires Inv(g) && p !in g.sent
    ensures var peers' := HelloBackend(g, p, h, now).peers;
            var b := ClaimedBackend(g, h);
            && (q in peers' <==> q == p || q in g.peers)
            && (IsOpen(peers', q) <==> q == p || (IsOpen(g.peers, q) && !(b in g.leases && g.leases[b].owner == q)))
  {
    hide Inv, HelloBackend, Vacate, ClaimedBackend;
    PeersLogged(g, p);
    HelloBackendParts(g, p, h, now);
    VacateLog(g, ClaimedBackend(g, h), q);
    VacateKeepsKeys(g, ClaimedBackend(g, h));
  }

  lemma DisconnectRemoves(g: State, p: PeerId, q: PeerId)
    ensures var peers' := Disconnect(g, p).peers;
            (q in peers' <==> q in g.peers && q != p) && (IsOpen(peers', q) <==> IsOpen(g.peers, q) && q != p)
  {
    hide DropBackend, DropPeer, IsOwner;
    if p in g.peers {
      if IsOwner(g.peers, g.leases, p) {
        var b := OwnedBy(g, p);
        DropBackendParts(g, b, {p});
        ResubscribeOpen(g.peers, b, q);
        ResubscribeOpen(g.peers, b, p);
        DropPeerParts(DropBackend(g, b, {p}), p, Some(p));
      } else {
        DropPeerParts(g, p, Some(p));
      }
    }
  }

  lemma ResubscribeOpen(peers: Peers, b: BackendId, q: PeerId)
    ensures q in Resubscribe(peers, b, {}) <==> q in peers
    ensures IsOpen(Resubscribe(peers, b, {}), q) <==> IsOpen(peers, q)
  {
  }

  lemma ExpireRemoves(g: State, b: BackendId, now: Time, q: PeerId)
    requires Inv(g)
    ensures var peers' := Expire(g, b, now).peers;
            var gone := RunsOut(g, b, now) && g.leases[b].owner == q;
            (q in peers' <==> q in g.peers && !gone) && (IsOpen(peers', q) <==> IsOpen(g.peers, q) && !gone)
  {
    hide Inv, DropBackend, DropPeer;
    if RunsOut(g, b, now) {
      var p := g.leases[b].owner;
      LeaseHolder(g, b, p);
      DropBackendParts(g, b, {});
      ResubscribeOpen(g.peers, b, q);
      ResubscribeOpen(g.peers, b, p);
      var g1 := DropBackend(g, b, {});
      DropPeerParts(g1.(peers := ClearGrant(g1.peers, p)), p, None);
    }
  }

  /** Does this event take b out of the registry: its owner's disconnect or its expiry? */
  predicate Unlists(g: State, ev: Event, b: BackendId) {
    b in g.leases && (ev.EvDisconnect? || ev.EvExpire?) && EndsLease(g, ev, b)
  }

  /** A backend is listed as its last hello described it until it is lost. */
  lemma ListedAs(g: State, ev: Event, b: BackendId)
    requires Inv(g) && Enabled(g, ev)
    ensures Lookup(Step(g, ev).registry, b) ==
            if ev.EvHelloBackend? && ClaimedBackend(g, ev.hello) == b
            then Some(Presence(b, ev.hello.instance, ev.hello.visible, ev.hello.capabilities, g.identities.maxEpoch + 1))
            else if Unlists(g, ev, b) then None else Lookup(g.registry, b)
  {
    hide Inv, HelloBackend, HelloClient, Disconnect, Expire, ClaimedBackend, Subs, Subscribe, Unsubscribe, Heartbeat, Relay,
         SendTargeted, RequestSnapshot, Forward, SendAll, Issue, SettlePending, StartStreaming, SettleStreaming;
    match ev
    case EvHelloClient(p) => HelloClientLists(g, p);
    case EvHelloBackend(p, h, now) =>
      PeersLogged(g, p);
      HelloBackendParts(g, p, h, now);
    case EvCloseSocket(p) =>
    case EvDisconnect(p) => DisconnectUnlists(g, p, b);
    case EvExpire(c, now) => ExpireUnlists(g, c, now, b);
    case _ => OthersList(g, ev);
  }

  lemma OthersList(g: State, ev: Event)
    requires !ChangesPresence(ev)
    ensures Step(g, ev).registry == g.registry
  {
    hide Step;
    PresenceKept(g, ev);
  }

  lemma HelloClientLists(g: State, p: PeerId)
    ensures HelloClient(g, p).registry == g.registry
  {
    hide Deliver;
  }

  lemma DisconnectUnlists(g: State, p: PeerId, b: BackendId)
    requires Inv(g)
    ensures Lookup(Disconnect(g, p).registry, b) ==
            if b in g.leases && g.leases[b].owner == p then None else Lookup(g.registry, b)
  {
    hide Inv, DropBackend, DropPeer, IsOwner;
    if b in g.leases { LeaseHolder(g, b, p); }
    if p in g.peers {
      if IsOwner(g.peers, g.leases, p) {
        OwnerGrant(g, p, OwnedBy(g, p));
        DropBackendParts(g, OwnedBy(g, p), {p});
        ResubscribeOpen(g.peers, OwnedBy(g, p), p);
        DropPeerParts(DropBackend(g, OwnedBy(g, p), {p}), p, Some(p));
      } else {
        DropPeerParts(g, p, Some(p));
      }
    }
  }

  lemma ExpireUnlists(g: State, c: BackendId, now: Time, b: BackendId)
    requires Inv(g)
    ensures Lookup(Expire(g, c, now).registry, b) == if b == c && RunsOut(g, c, now) then None else Lookup(g.registry, b)
  {
    hide Inv, DropBackend, DropPeer;
    if RunsOut(g, c, now) {
      var p := g.leases[c].owner;
      LeaseHolder(g, c, p);
      DropBackendParts(g, c, {});
      ResubscribeOpen(g.peers, c, p);
      var g1 := DropBackend(g, c, {});
      DropPeerParts(g1.(peers := ClearGrant(g1.peers, p)), p, None);
    }
  }
}
