/** Who is told what, and when: consequences of single steps beyond the invariant. */
module GatewayNotices {
  import opened Options
  import opened Storage
  import opened Gateway
  import opened GatewayInvariants
  import opened GatewaySending
  import opened GatewaySteps
  import opened GatewayJoining
  import opened GatewayRuns
  import opened GatewayHistory

  /** m was appended to a log of length n. */
  ghost predicate Appends(log: seq<Msg>, n: nat, m: Msg) {
    exists j :: n <= j < |log| && log[j] == m
  }

  // ---------------------------------------------------------------- leases and subscriptions, step by step

  /** Handlers that move neither leases nor subscriptions. */
  predicate IsQuiet(ev: Event) {
    ev.EvHelloClient? || ev.EvRelay? || ev.EvTargeted? || ev.EvRequestRegistry? || ev.EvRequestSnapshot? ||
    ev.EvClientMessage? || ev.EvCatchUp? || ev.EvPoll? || ev.EvCloseSocket? ||
    ev.EvProxyIssue? || ev.EvProxyPending? || ev.EvProxyStart? || ev.EvProxyStreaming?
  }

  /** The same leases and subscriptions. */
  predicate Undisturbed(g: State, g': State) {
    g'.leases == g.leases && g'.subscriptions == g.subscriptions
  }

  lemma SendUndisturbed(g: State, targets: set<PeerId>, m: Msg)
    ensures Undisturbed(g, SendAll(g, targets, m))
  {
    hide Deliver;
  }

  lemma RelaysUndisturbed(g: State, p: PeerId, kind: RelayKind, b: BackendId, target: PeerId, payload: Payload)
    ensures Undisturbed(g, Relay(g, p, kind, b, payload)) && Undisturbed(g, SendTargeted(g, p, b, target, payload))
  {
    hide Deliver, Subs;
  }

  lemma ForwardUndisturbed(g: State, p: PeerId, b: BackendId, m: Msg)
    ensures Undisturbed(g, Forward(g, p, b, m))
  {
    hide SendAll, Subs, Owner;
    SendUndisturbed(g, {p}, GatewayError(NotSubscribedError));
    SendUndisturbed(g, {p}, GatewayError(OfflineError));
    var owner := Owner(g.peers, g.leases, b);
    if owner.Some? { SendUndisturbed(g, {owner.value}, m); }
  }

  lemma RequestUndisturbed(g: State, p: PeerId, b: BackendId)
    ensures Undisturbed(g, RequestSnapshot(g, p, b))
  {
    hide SendAll, Owner;
    SendUndisturbed(g, {p}, GatewayError(OfflineError));
    var owner := Owner(g.peers, g.leases, b);
    if owner.Some? { SendUndisturbed(g, {owner.value}, RequestDataSnapshot(b, None)); }
  }

  lemma IssueUndisturbed(g: State, r: RequestId, b: BackendId)
    ensures Undisturbed(g, Issue(g, r, b))
  {
    hide SendAll, Owner;
    var owner := Owner(g.peers, g.leases, b);
    if owner.Some? {
      SendUndisturbed(g.(proxy := g.proxy.(pending := g.proxy.pending[r := b])), {owner.value}, ProxyRequest(r));
    }
  }

  lemma SettlingUndisturbed(g: State, r: RequestId, outcome: Outcome)
    ensures Undisturbed(g, SettlePending(g, r, outcome)) && Undisturbed(g, SettleStreaming(g, r, outcome))
    ensures Undisturbed(g, StartStreaming(g, r))
  {
    hide Settle;
  }

  lemma SocketsUndisturbed(g: State, p: PeerId)
    ensures Undisturbed(g, HelloClient(g, p)) && Undisturbed(g, CloseSocket(g, p))
  {
    hide Deliver;
  }

  lemma QuietKeeps(g: State, ev: Event)
    requires IsQuiet(ev)
    ensures Undisturbed(g, Step(g, ev))
  {
    hide Undisturbed, HelloClient, CloseSocket, Relay, SendTargeted, RequestSnapshot, Forward, SendAll,
         Issue, SettlePending, StartStreaming, SettleStreaming;
    match ev
    case EvHelloClient(p) => SocketsUndisturbed(g, p);
    case EvCloseSocket(p) => SocketsUndisturbed(g, p);
    case EvRelay(p, kind, b, payload) => RelaysUndisturbed(g, p, kind, b, p, payload);
    case EvTargeted(p, b, target, payload) => RelaysUndisturbed(g, p, DataEvent, b, target, payload);
    case EvRequestRegistry(p) => SendUndisturbed(g, {p}, RegistrySnapshot(g.registry));
    case EvRequestSnapshot(p, b) => RequestUndisturbed(g, p, b);
    case EvClientMessage(p, b, payload) => ForwardUndisturbed(g, p, b, ClientMessage(b, payload, p));
    case EvCatchUp(p, b, payload) => ForwardUndisturbed(g, p, b, CatchUp(b, payload));
    case EvPoll => SendUndisturbed(g, g.peers.Keys - {}, RegistrySnapshot(g.registry));
    case EvProxyIssue(r, b) => IssueUndisturbed(g, r, b);
    case EvProxyPending(r, outcome) => SettlingUndisturbed(g, r, outcome);
    case EvProxyStart(r) => SettlingUndisturbed(g, r, Answered);
    case EvProxyStreaming(r, outcome) => SettlingUndisturbed(g, r, outcome);
  }

  lemma HeartbeatLeases(g: State, p: PeerId, e: Epoch, now: Time)
    ensures var g' := Heartbeat(g, p, e, now);
            && g'.subscriptions == g.subscriptions
            && g'.leases == if IsOwner(g.peers, g.leases, p) && g.peers[p].grant.value.epoch == e
                            then var b := g.peers[p].grant.value.backendId;
                                 g.leases[b := g.leases[b].(lastHeartbeatAt := now)]
                            else g.leases
  {
    hide Deliver;
  }

  lemma SendToUndisturbed(g: State, to: Option<PeerId>, m: Msg)
    ensures Undisturbed(g, SendTo(g, to, m))
  {
    hide Deliver;
  }

  lemma SetSubscribersSubs(g: State, b: BackendId, s: set<PeerId>, c: BackendId)
    ensures var g' := SetSubscribers(g, b, s);
            g'.leases == g.leases && Subs(g'.subscriptions, c) == if c == b then s else Subs(g.subscriptions, c)
  {
    hide Resubscribe, Count, Put, Subs;
    PutSubs(g.subscriptions, b, s, c);
  }

  lemma SubscribeSubs(g: State, q: PeerId, b: BackendId, c: BackendId)
    ensures Subscribe(g, q, b).leases == g.leases
    ensures Subs(g.subscriptions, c) <= Subs(Subscribe(g, q, b).subscriptions, c)
    ensures b in g.registry && b in g.leases && q in g.peers ==> q in Subs(Subscribe(g, q, b).subscriptions, b)
  {
    hide SetSubscribers, SendTo, SendAll, Owner, Subs;
    if b !in g.registry || b !in g.leases || q !in g.peers {
      SendUndisturbed(g, {q}, GatewayError(OfflineError));
    } else {
      var s := Subs(g.subscriptions, b) + {q};
      var g1 := SetSubscribers(g, b, s);
      var g2 := if Subs(g.subscriptions, b) == {} then SendTo(g1, Owner(g1.peers, g1.leases, b), StreamDemand(true)) else g1;
      var m := BackendSubscribed(b, g.leases[b].epoch, g.registry[b].capabilities);
      var g3 := Send(g2, q, m);
      SetSubscribersSubs(g, b, s, b);
      SetSubscribersSubs(g, b, s, c);
      SendToUndisturbed(g1, Owner(g1.peers, g1.leases, b), StreamDemand(true));
      SendUndisturbed(g2, {q}, m);
      SendToUndisturbed(g3, Owner(g3.peers, g3.leases, b), RequestDataSnapshot(b, Some(q)));
    }
  }

  lemma UnsubscribeSubs(g: State, q: PeerId, b: BackendId, c: BackendId)
    ensures var g' := Unsubscribe(g, q, b);
            && g'.leases == g.leases
            && Subs(g'.subscriptions, c) == if c == b then Subs(g.subscriptions, c) - {q} else Subs(g.subscriptions, c)
  {
    hide SetSubscribers, SendTo, SendAll, Owner, Subs;
    var s := Subs(g.subscriptions, b) - {q};
    var g1 := if q in Subs(g.subscriptions, b) then SetSubscribers(g, b, s) else g;
    var m := BackendUnsubscribed(b, ClientUnsubscribed);
    var g2 := Send(g1, q, m);
    var g3 := SendTo(g2, Owner(g2.peers, g2.leases, b), SubscriberDisconnected(b, q));
    SetSubscribersSubs(g, b, s, c);
    SendUndisturbed(g1, {q}, m);
    SendToUndisturbed(g2, Owner(g2.peers, g2.leases, b), SubscriberDisconnected(b, q));
    SendToUndisturbed(g3, Owner(g3.peers, g3.leases, b), StreamDemand(false));
  }

  lemma VacateSubs(g: State, b: BackendId)
    ensures var g' := Vacate(g, b);
            && g'.leases == g.leases - {b}
            && forall c :: c != b ==> Subs(g'.subscriptions, c) == Subs(g.subscriptions, c)
  {
    hide Deliver, Count, Resubscribe;
  }

  lemma HelloSubs(g: State, p: PeerId, h: BackendHello, now: Time)
    requires p !in g.peers
    ensures var b := ClaimedBackend(g, h);
            var g' := HelloBackend(g, p, h, now);
            && g'.leases == (g.leases - {b})[b := Lease(g.identities.maxEpoch + 1, p, now)]
            && forall c :: c != b ==> Subs(g'.subscriptions, c) == Subs(g.subscriptions, c)
  {
    hide HelloBackend, Vacate, ClaimedBackend, Subs, NewPresence;
    HelloBackendParts(g, p, h, now);
    VacateSubs(g, ClaimedBackend(g, h));
  }

  /** Disconnecting ends p's subscriptions and, when p owns a backend, that lease and its subscribers. */
  lemma DisconnectSubs(g: State, p: PeerId, c: BackendId)
    requires p in g.peers
    ensures var g' := Disconnect(g, p);
            var lost := if IsOwner(g.peers, g.leases, p) then {g.peers[p].grant.value.backendId} else {};
            && g'.leases == g.leases - lost
            && (c !in lost ==> Subs(g'.subscriptions, c) == Subs(g.subscriptions, c) - {p})
  {
    hide DropBackend, DropPeer, Unlist, Put, Count, Settle, Subs, Resubscribe;
    if IsOwner(g.peers, g.leases, p) {
      var b := g.peers[p].grant.value.backendId;
      var g1 := DropBackend(g, b, {p});
      DropBackendParts(g, b, {p});
      Resubscribed(g.peers, b, p);
      UnlistSubs(g1.subscriptions, p, c);
      PutSubs(g.subscriptions, b, {}, c);
      DropPeerParts(g1, p, Some(p));
    } else {
      UnlistSubs(g.subscriptions, p, c);
      DropPeerParts(g, p, Some(p));
    }
  }

  lemma Resubscribed(peers: Peers, b: BackendId, p: PeerId)
    requires p in peers
    ensures p in Resubscribe(peers, b, {})
  {
  }

  /** The lease timer's test. */
  predicate RunsOut(g: State, b: BackendId, now: Time) {
    b in g.leases && now - g.leases[b].lastHeartbeatAt > LEASE_TTL_MS
  }

  /** Expiring ends the lease and its subscribers, and the subscriptions of its connected owner. */
  lemma ExpireSubs(g: State, b: BackendId, now: Time, c: BackendId)
    requires RunsOut(g, b, now) && g.leases[b].owner in g.peers
    ensures var g' := Expire(g, b, now);
            && g'.leases == g.leases - {b}
            && (c != b ==> Subs(g'.subscriptions, c) == Subs(g.subscriptions, c) - {g.leases[b].owner})
  {
    hide DropBackend, DropPeer, Unlist, Put, Count, Settle, Subs, Resubscribe;
    var p := g.leases[b].owner;
    var g1 := DropBackend(g, b, {});
    DropBackendParts(g, b, {});
    Resubscribed(g.peers, b, p);
    var g2 := g1.(peers := ClearGrant(g1.peers, p));
    DropPeerParts(g2, p, None);
    UnlistSubs(g2.subscriptions, p, c);
    PutSubs(g.subscriptions, b, {}, c);
  }

  lemma ExpireWaits(g: State, b: BackendId, now: Time)
    requires !RunsOut(g, b, now)
    ensures Expire(g, b, now) == g
  {
  }

  // ---------------------------------------------------------------- how a lease ends

  /** Its owner disconnects, its timer runs out, or its instance says hello again. */
  predicate EndsLease(g: State, ev: Event, b: BackendId)
    requires b in g.leases
  {
    match ev
    case EvDisconnect(p) => p == g.leases[b].owner
    case EvExpire(c, now) => c == b && RunsOut(g, b, now)
    case EvHelloBackend(_, h, _) => ClaimedBackend(g, h) == b
    case _ => false
  }

  /** What the leases of a valid state say about one owner. */
  lemma LeaseHolder(g: State, b: BackendId, p: PeerId)
    requires Inv(g) && b in g.leases
    ensures g.leases[b].owner in g.peers && g.leases[b].owner in g.sent
    ensures p in g.peers ==>
              (p == g.leases[b].owner <==> IsOwner(g.peers, g.leases, p) && g.peers[p].grant.value.backendId == b)
    ensures g.peers[g.leases[b].owner].grant == Some(Grant(b, g.leases[b].epoch))
    ensures g.leases[b].epoch <= g.identities.maxEpoch
  {
    hide Mirrored, Counted, ProxyOk, LogsOk;
    assert g.leases[b].epoch in g.granted;
  }

  lemma DisconnectLeases(g: State, p: PeerId, b: BackendId)
    requires Inv(g) && b in g.leases
    ensures var leases' := Disconnect(g, p).leases;
            (b in leases' <==> p != g.leases[b].owner) && (b in leases' ==> leases'[b] == g.leases[b])
  {
    hide Inv, Disconnect, Subs, IsOwner;
    LeaseHolder(g, b, p);
    if p in g.peers {
      DisconnectSubs(g, p, b);
    } else {
      UnknownDisconnect(g, p);
    }
  }

  lemma ExpiryLeases(g: State, c: BackendId, now: Time, b: BackendId)
    requires Inv(g) && b in g.leases
    ensures var leases' := Expire(g, c, now).leases;
            (b in leases' <==> !(c == b && RunsOut(g, c, now))) && (b in leases' ==> leases'[b] == g.leases[b])
  {
    hide Inv, Expire, Subs, IsOwner;
    if RunsOut(g, c, now) {
      LeaseHolder(g, c, g.leases[c].owner);
      ExpireSubs(g, c, now, b);
    } else {
      ExpireWaits(g, c, now);
    }
  }

  lemma HelloLeases(g: State, p: PeerId, h: BackendHello, now: Time, b: BackendId)
    requires Inv(g) && b in g.leases && p !in g.sent
    ensures var leases' := HelloBackend(g, p, h, now).leases;
            b in leases' && if ClaimedBackend(g, h) == b then leases'[b].owner != g.leases[b].owner else leases'[b] == g.leases[b]
  {
    hide Inv, ClaimedBackend, HelloBackend, Subs;
    LeaseHolder(g, b, p);
    PeersLogged(g, p);
    HelloSubs(g, p, h, now);
  }

  lemma HeartbeatRenews(g: State, p: PeerId, e: Epoch, now: Time, b: BackendId)
    requires Inv(g) && b in g.leases && p in g.peers
    ensures var leases' := Heartbeat(g, p, e, now).leases;
            && b in leases'
            && leases'[b] == if p == g.leases[b].owner && e == g.leases[b].epoch then g.leases[b].(lastHeartbeatAt := now)
                             else g.leases[b]
  {
    hide Inv, Heartbeat;
    LeaseHolder(g, b, p);
    HeartbeatLeases(g, p, e, now);
  }

  /**
   * A lease is held on by the same owner at the same epoch until one of three things ends it, and only a heartbeat
   * of its owner at its epoch renews it.
   */
  lemma LeaseEndsIff(g: State, ev: Event, b: BackendId)
    requires Inv(g) && Enabled(g, ev) && b in g.leases
    ensures var lease, leases' := g.leases[b], Step(g, ev).leases;
            && (b in leases' && leases'[b].owner == lease.owner && leases'[b].epoch == lease.epoch <==> !EndsLease(g, ev, b))
            && (!EndsLease(g, ev, b) ==>
                  leases'[b].lastHeartbeatAt ==
                  if ev.EvHeartbeat? && ev.p == lease.owner && ev.epoch == lease.epoch then ev.now else lease.lastHeartbeatAt)
  {
    hide Inv, ClaimedBackend, IsOwner, Subs, HelloClient, HelloBackend, Subscribe, Unsubscribe, Disconnect, Expire,
         Heartbeat, Relay, SendTargeted, RequestSnapshot, Forward, SendAll, CloseSocket, Issue, SettlePending,
         StartStreaming, SettleStreaming;
    match ev
    case EvHelloBackend(p, h, now) => HelloLeases(g, p, h, now, b);
    case EvHeartbeat(p, e, now) => HeartbeatRenews(g, p, e, now, b);
    case EvSubscribe(p, c) => SubscribeSubs(g, p, c, b);
    case EvUnsubscribe(p, c) => UnsubscribeSubs(g, p, c, b);
    case EvDisconnect(p) => DisconnectLeases(g, p, b);
    case EvExpire(c, now) => ExpiryLeases(g, c, now, b);
    case _ => QuietKeeps(g, ev);
  }

  lemma PeersLogged(g: State, p: PeerId)
    requires Inv(g) && p !in g.sent
    ensures p !in g.peers
  {
  }

  lemma UnknownDisconnect(g: State, p: PeerId)
    requires p !in g.peers
    ensures Disconnect(g, p) == g
  {
  }

  // ---------------------------------------------------------------- subscribing

  /** A new subscriber makes the owner send a fresh snapshot; a repeated subscribe asks for nothing. */
  lemma SnapshotAskedOnce(g: State, p: PeerId, b: BackendId, owner: PeerId)
    requires Inv(g) && b in g.registry && p in g.peers && p != owner
    requires Owner(g.peers, g.leases, b) == Some(owner) && IsOpen(g.peers, owner)
    ensures b !in g.peers[p].subscribed ==>
              Appends(Log(Subscribe(g, p, b).sent, owner), |Log(g.sent, owner)|, RequestDataSnapshot(b, Some(p)))
    ensures b in g.peers[p].subscribed ==> Log(Subscribe(g, p, b).sent, owner) == Log(g.sent, owner)
  {
    hide Subscribe, Counted, GrantsOk, IdentitiesOk, ProxyOk, LogsOk, Appends;
    SubscribeLog(g, p, b, owner);
    assert b in g.peers[p].subscribed ==> p in Subs(g.subscriptions, b);
    var log := Log(Subscribe(g, p, b).sent, owner);
    if b !in g.peers[p].subscribed {
      LastAppended(log, |Log(g.sent, owner)|, RequestDataSnapshot(b, Some(p)));
    }
  }

  lemma LastAppended(log: seq<Msg>, n: nat, m: Msg)
    requires n < |log| && log[|log| - 1] == m
    ensures Appends(log, n, m)
  {
  }

  // ---------------------------------------------------------------- leaving

  /** What a backend's departure appends to any log. */
  lemma DropBackendAppends(g: State, b: BackendId, exclude: set<PeerId>, q: PeerId)
    ensures var log, log' := Log(g.sent, q), Log(DropBackend(g, b, exclude).sent, q);
            log <= log' && forall j :: |log| <= j < |log'| ==> log'[j].BackendUnsubscribed? || log'[j].RegistrySnapshot?
  {
    hide Put, Count, Settle, Requests;
  }

  /** The former owner of a lost lease owns nothing. */
  lemma LostItsLease(g: State, b: BackendId, exclude: set<PeerId>)
    requires Inv(g) && b in g.leases
    ensures !IsOwner(DropBackend(g, b, exclude).peers, DropBackend(g, b, exclude).leases, g.leases[b].owner)
  {
    hide Mirrored, Counted, IdentitiesOk, ProxyOk, LogsOk, DropBackend;
    DropBackendParts(g, b, exclude);
    assert g.peers[g.leases[b].owner].grant == Some(Grant(b, g.leases[b].epoch));
  }

  /** A step of p's disconnection, once p owns nothing any more. */
  lemma DepartureTold(g: State, p: PeerId, b: BackendId, owner: PeerId)
    requires p in g.peers && !IsOwner(g.peers, g.leases, p) && b in g.peers[p].subscribed
    requires IsOwner(g.peers, g.leases, owner) && g.peers[owner].grant.value.backendId == b
    requires IsOpen(g.peers, owner) && owner in g.sent
    ensures Appends(Log(DropPeer(g, p, Some(p)).sent, owner), |Log(g.sent, owner)|, SubscriberDisconnected(b, p))
  {
    hide DropPeer, Recount, Unlist, IsActive;
    DropPeerLog(g, p, Some(p), owner);
    var log := Log(DropPeer(g, p, Some(p)).sent, owner);
    DropPeerKeepsLogs(g, p, Some(p), owner);
    assert log[|Log(g.sent, owner)|] == SubscriberDisconnected(b, p);
  }

  lemma DropPeerKeepsLogs(g: State, p: PeerId, departed: Option<PeerId>, q: PeerId)
    requires p in g.peers
    ensures q in DropPeer(g, p, departed).sent <==> q in g.sent
  {
  }

  /** What p's own backend going away leaves of p's subscriptions to the others and of their owners. */
  lemma OthersUntouched(g: State, p: PeerId, b: BackendId, owner: PeerId)
    requires Inv(g) && IsOwner(g.peers, g.leases, p) && p != owner
    requires b in g.peers[p].subscribed && Owner(g.peers, g.leases, b) == Some(owner) && IsOpen(g.peers, owner)
    ensures var g1 := DropBackend(g, g.peers[p].grant.value.backendId, {p});
            && p in g1.peers && b in g1.peers[p].subscribed
            && IsOwner(g1.peers, g1.leases, owner) && g1.peers[owner].grant.value.backendId == b && IsOpen(g1.peers, owner)
  {
    hide Mirrored, Counted, IdentitiesOk, ProxyOk, LogsOk, DropBackend;
    DropBackendParts(g, g.peers[p].grant.value.backendId, {p});
    assert g.peers[owner].grant == Some(Grant(b, g.leases[b].epoch));
  }

  /** A disconnecting subscriber is announced to the connected owner of every backend it was subscribed to. */
  lemma DisconnectTellsOwners(g: State, p: PeerId, b: BackendId, owner: PeerId)
    requires Inv(g) && p in g.peers && b in g.peers[p].subscribed && p != owner
    requires Owner(g.peers, g.leases, b) == Some(owner) && IsOpen(g.peers, owner)
    ensures Appends(Log(Disconnect(g, p).sent, owner), |Log(g.sent, owner)|, SubscriberDisconnected(b, p))
  {
    hide DropBackend, DropPeer, Appends, Mirrored, Counted, IdentitiesOk, ProxyOk, LogsOk;
    if IsOwner(g.peers, g.leases, p) {
      var c := g.peers[p].grant.value.backendId;
      var g1 := DropBackend(g, c, {p});
      OthersUntouched(g, p, b, owner);
      LostItsLease(g, c, {p});
      DropBackendParts(g, c, {p});
      DropBackendAppends(g, c, {p}, owner);
      DepartureTold(g1, p, b, owner);
      EarlierToo(Log(Disconnect(g, p).sent, owner), |Log(g.sent, owner)|, |Log(g1.sent, owner)|,
                 SubscriberDisconnected(b, p));
    } else {
      assert g.peers[owner].grant == Some(Grant(b, g.leases[b].epoch));
      DepartureTold(g, p, b, owner);
    }
  }

  lemma EarlierToo(log: seq<Msg>, n: nat, later: nat, m: Msg)
    requires n <= later && Appends(log, later, m)
    ensures Appends(log, n, m)
  {
  }

  /** A peer lost to lease expiry is not announced to anyone: its subscriptions end with demand notices alone. */
  lemma ExpiryTellsNoOwner(g: State, b: BackendId, now: Time, q: PeerId)
    requires Inv(g) && q in g.sent
    ensures var log, log' := Log(g.sent, q), Log(Expire(g, b, now).sent, q);
            log <= log' && forall j :: |log| <= j < |log'| ==> !log'[j].SubscriberDisconnected?
  {
    hide DropBackend, DropPeer, Mirrored, Counted, IdentitiesOk, ProxyOk, LogsOk;
    if b in g.leases && now - g.leases[b].lastHeartbeatAt > LEASE_TTL_MS {
      var p := g.leases[b].owner;
      var g1 := DropBackend(g, b, {});
      DropBackendAppends(g, b, {}, q);
      DropBackendParts(g, b, {});
      if p in g1.peers {
        var g2 := g1.(peers := ClearGrant(g1.peers, p));
        NoGrantNoOwner(g1, p);
        SilentDeparture(g2, p, q);
      }
    }
  }

  lemma NoGrantNoOwner(g: State, p: PeerId)
    requires p in g.peers
    ensures !IsOwner(ClearGrant(g.peers, p), g.leases, p)
  {
  }

  lemma SilentDeparture(g: State, p: PeerId, q: PeerId)
    requires p in g.peers && !IsOwner(g.peers, g.leases, p) && q in g.sent
    ensures var log, log' := Log(g.sent, q), Log(DropPeer(g, p, None).sent, q);
            log <= log' && forall j :: |log| <= j < |log'| ==> log'[j] == StreamDemand(false)
  {
  }

  // ---------------------------------------------------------------- who hears that a subscriber is gone

  /** q, connected, owns c, and p, another peer, subscribes to c. */
  ghost predicate Serves(g: State, q: PeerId, c: BackendId, p: PeerId) {
    && Owner(g.peers, g.leases, c) == Some(q) && IsOpen(g.peers, q) && q != p
    && p in Subs(g.subscriptions, c)
  }

  /** q has just been told that p is no longer a subscriber of c. */
  ghost predicate Announced(g: State, g': State, q: PeerId, c: BackendId, p: PeerId) {
    Appends(Log(g'.sent, q), |Log(g.sent, q)|, SubscriberDisconnected(c, p))
  }

  /**
   * When p expires with the lease it holds, every connected owner serving it is told so exactly when nobody serves it.
   */
  lemma ExpiryAnnouncesIff(g: State, b: BackendId, now: Time)
    requires Inv(g) && RunsOut(g, b, now)
    ensures var p := g.leases[b].owner;
            (forall q, c :: Serves(g, q, c, p) ==> Announced(g, Expire(g, b, now), q, c, p)) <==>
            !exists q, c :: Serves(g, q, c, p)
  {
    hide Inv, Expire, Subs;
    var p := g.leases[b].owner;
    forall q, c | Serves(g, q, c, p) ensures !Announced(g, Expire(g, b, now), q, c, p) {
      LeaseHolder(g, c, q);
      ExpiryTellsNoOwner(g, b, now, q);
    }
  }

  lemma UnsubscribeTells(g: State, p: PeerId, c: BackendId, q: PeerId)
    requires Serves(g, q, c, p) && q in g.sent
    ensures Announced(g, Unsubscribe(g, p, c), q, c, p)
  {
    hide Unsubscribe, Subs, Owner;
    UnsubscribeLog(g, p, c, q);
    assert Log(Unsubscribe(g, p, c).sent, q)[|Log(g.sent, q)|] == SubscriberDisconnected(c, p);
  }

  lemma HelloEnds(g: State, x: PeerId, h: BackendHello, now: Time, c: BackendId)
    requires Inv(g) && x !in g.sent && ClaimedBackend(g, h) != c
    ensures Subs(HelloBackend(g, x, h, now).subscriptions, c) == Subs(g.subscriptions, c)
  {
    hide Inv, ClaimedBackend, HelloBackend, Subs;
    PeersLogged(g, x);
    HelloSubs(g, x, h, now);
  }

  lemma DisconnectEnds(g: State, x: PeerId, p: PeerId, c: BackendId)
    requires Inv(g) && c in g.leases && p in Subs(g.subscriptions, c) && x != g.leases[c].owner
    ensures p !in Subs(Disconnect(g, x).subscriptions, c) <==> x == p
  {
    hide Inv, Disconnect, Subs, IsOwner;
    SubscriberConnected(g, p, c);
    if x in g.peers {
      LeaseHolder(g, c, x);
      DisconnectSubs(g, x, c);
    } else {
      UnknownDisconnect(g, x);
    }
  }

  lemma ExpiryEnds(g: State, b: BackendId, now: Time, p: PeerId, c: BackendId)
    requires Inv(g) && c in g.leases && p in Subs(g.subscriptions, c) && !(c == b && RunsOut(g, b, now))
    ensures p !in Subs(Expire(g, b, now).subscriptions, c) <==> RunsOut(g, b, now) && g.leases[b].owner == p
  {
    hide Inv, Expire, Subs, IsOwner;
    if RunsOut(g, b, now) {
      LeaseHolder(g, b, g.leases[b].owner);
      ExpireSubs(g, b, now, c);
    } else {
      ExpireWaits(g, b, now);
    }
  }

  /** The steps that take p from c's subscribers while c stays leased: p's unsubscribe, p's disconnect and p's expiry. */
  lemma SubscriptionEnds(g: State, ev: Event, p: PeerId, c: BackendId)
    requires Inv(g) && Enabled(g, ev) && c in g.leases && p in Subs(g.subscriptions, c) && !EndsLease(g, ev, c)
    ensures p !in Subs(Step(g, ev).subscriptions, c) <==>
            || ev == EvUnsubscribe(p, c)
            || ev == EvDisconnect(p)
            || (ev.EvExpire? && RunsOut(g, ev.b, ev.now) && g.leases[ev.b].owner == p)
  {
    hide Inv, ClaimedBackend, IsOwner, Subs, HelloClient, HelloBackend, Subscribe, Unsubscribe, Disconnect, Expire,
         Heartbeat, Relay, SendTargeted, RequestSnapshot, Forward, SendAll, CloseSocket, Issue, SettlePending,
         StartStreaming, SettleStreaming;
    match ev
    case EvHelloBackend(x, h, now) => HelloEnds(g, x, h, now, c);
    case EvHeartbeat(x, e, now) => HeartbeatLeases(g, x, e, now);
    case EvSubscribe(x, b) => SubscribeSubs(g, x, b, c);
    case EvUnsubscribe(x, b) => UnsubscribeSubs(g, x, b, c);
    case EvDisconnect(x) => DisconnectEnds(g, x, p, c);
    case EvExpire(b, now) => ExpiryEnds(g, b, now, p, c);
    case _ => QuietKeeps(g, ev);
  }

  lemma SubscriberConnected(g: State, p: PeerId, c: BackendId)
    requires Inv(g) && p in Subs(g.subscriptions, c)
    ensures p in g.peers && c in g.peers[p].subscribed && p in g.sent
  {
    hide Counted, GrantsOk, IdentitiesOk, ProxyOk, LogsOk;
  }

  /**
   * Whatever takes p from the subscribers of c while c stays leased to a connected peer announces it to that peer,
   * exactly unless it is a lease expiry.
   */
  lemma LossAnnouncedIff(g: State, ev: Event, p: PeerId, c: BackendId, q: PeerId)
    requires Inv(g) && Enabled(g, ev) && Serves(g, q, c, p) && !EndsLease(g, ev, c)
    requires p !in Subs(Step(g, ev).subscriptions, c)
    ensures Announced(g, Step(g, ev), q, c, p) <==> !ev.EvExpire?
  {
    hide Inv, Unsubscribe, Disconnect, Expire, Subs, HelloBackend, Subscribe;
    LeaseHolder(g, c, q);
    SubscriptionEnds(g, ev, p, c);
    SubscriberConnected(g, p, c);
    match ev
    case EvUnsubscribe(_, _) => UnsubscribeTells(g, p, c, q);
    case EvDisconnect(_) => DisconnectTellsOwners(g, p, c, q);
    case EvExpire(b, now) => ExpiryTellsNoOwner(g, b, now, q);
    case _ =>
  }

  // ---------------------------------------------------------------- a run whose loss nobody hears of

  const NO_IDENTITIES := Identities(map[], map[], 0)

  /** A hello of an instance the storage does not know, on a channel that inherits nothing. */
  function NewInstance(i: InstanceId, b: BackendId): BackendHello {
    BackendHello(i, 0, "dev", true, [], b)
  }

  /** Peer 0 has connected as the owner of backend 10. */
  function One(): State { HelloBackend(Started(NO_IDENTITIES), 0, NewInstance(0, 10), 0) }

  /** Peer 1 has connected as the owner of backend 11. */
  function Two(): State { HelloBackend(One(), 1, NewInstance(1, 11), 1) }

  /** Peer 0 has subscribed to backend 11. */
  function Entangled(): State { Subscribe(Two(), 0, 11) }

  lemma OneIs()
    ensures Reachable(One())
    ensures var g := One();
            && g.peers == map[0 := Peer(true, Some(Grant(10, 1)), {})] && g.subscriptions == map[]
            && g.leases == map[10 := Lease(1, 0, 0)] && g.identities == Identities(map[], map[0 := 10], 1)
            && g.sent.Keys == {0}
  {
    hide HelloBackend, Reachable;
    var g := Started(NO_IDENTITIES);
    StartReachable(NO_IDENTITIES);
    ReachableStep(g, EvHelloBackend(0, NewInstance(0, 10), 0));
    HelloBackendParts(g, 0, NewInstance(0, 10), 0);
    HelloBackendRest(g, 0, NewInstance(0, 10), 0);
  }

  lemma TwoIs()
    ensures Reachable(Two())
    ensures var g := Two();
            && g.peers == map[0 := Peer(true, Some(Grant(10, 1)), {}), 1 := Peer(true, Some(Grant(11, 2)), {})]
            && g.subscriptions == map[] && g.leases == map[10 := Lease(1, 0, 0), 11 := Lease(2, 1, 1)]
            && 11 in g.registry && 1 in g.sent && |Log(g.sent, 1)| == 1 && Log(g.sent, 1)[0].PeerReady?
  {
    hide HelloBackend, Reachable, One, Deliver;
    OneIs();
    ReachableStep(One(), EvHelloBackend(1, NewInstance(1, 11), 1));
    HelloBackendParts(One(), 1, NewInstance(1, 11), 1);
    HelloBackendSent(One(), 1, NewInstance(1, 11), 1);
  }

  lemma EntangledIs()
    ensures Reachable(Entangled()) && Inv(Entangled())
    ensures Serves(Entangled(), 1, 11, 0)
    ensures Entangled().leases == map[10 := Lease(1, 0, 0), 11 := Lease(2, 1, 1)]
    ensures forall m :: m in Log(Entangled().sent, 1) ==> !m.SubscriberDisconnected?
  {
    hide Subscribe, Two, Reachable, Inv;
    TwoIs();
    ReachableStep(Two(), EvSubscribe(0, 11));
    ReachableInv(Entangled());
    SubscribeLog(Two(), 0, 11, 1);
    SubscribeSubs(Two(), 0, 11, 11);
  }

  /**
   * Peer 0 loses its own lease, and with it its subscription to 11, and peer 1, still connected as the owner of 11,
   * has not heard of it.
   */
  lemma LossUnannounced()
    ensures Reachable(Entangled()) && Serves(Entangled(), 1, 11, 0)
    ensures RunsOut(Entangled(), 10, 30_001) && Entangled().leases[10].owner == 0
    ensures var g := Expire(Entangled(), 10, 30_001);
            && Owner(g.peers, g.leases, 11) == Some(1) && 0 !in Subs(g.subscriptions, 11)
            && forall m :: m in Log(g.sent, 1) ==> !m.SubscriberDisconnected?
  {
    hide Entangled, Expire, Reachable, Inv, Subs;
    EntangledIs();
    var g := Entangled();
    var ev := EvExpire(10, 30_001);
    StepKeepsInv(g, ev);
    ExpiryLeases(g, 10, 30_001, 11);
    ExpiryEnds(g, 10, 30_001, 0, 11);
    LeaseHolder(g, 11, 1);
    ExpiryTellsNoOwner(g, 10, 30_001, 1);
    LeaseHolder(Expire(g, 10, 30_001), 11, 1);
  }
}
