/** What a single step adds to a connection's log, and the gateway's main results over runs. */
module GatewayHistory {
  import opened Options
  import opened Storage
  import opened Gateway
  import opened GatewayLogs
  import opened GatewayInvariants
  import opened GatewaySending
  import opened GatewaySteps
  import opened GatewayJoining
  import opened GatewayRuns

  // ---------------------------------------------------------------- logs only grow

  /** A message that may be appended to a log without an unsubscribe of the reader's outside `asked`. */
  predicate Unasked(m: Msg, asked: set<BackendId>) {
    !m.PeerReady? && (m.BackendUnsubscribed? && m.reason == ClientUnsubscribed ==> m.backendId in asked)
  }

  /** log' is log with messages appended, and only unsubscribes in `asked` were answered. */
  ghost predicate Extends(log: seq<Msg>, log': seq<Msg>, asked: set<BackendId>) {
    && log <= log'
    && forall j :: |log| <= j < |log'| ==> Unasked(log'[j], asked)
  }

  lemma ExtendsTrans(l1: seq<Msg>, l2: seq<Msg>, l3: seq<Msg>, asked: set<BackendId>)
    requires Extends(l1, l2, asked) && Extends(l2, l3, asked)
    ensures Extends(l1, l3, asked)
  {
  }

  lemma SendExtends(g: State, targets: set<PeerId>, m: Msg, p: PeerId, asked: set<BackendId>)
    requires Unasked(m, asked)
    ensures Extends(Log(g.sent, p), Log(SendAll(g, targets, m).sent, p), asked)
  {
  }

  lemma DropBackendExtends(g: State, b: BackendId, exclude: set<PeerId>, p: PeerId)
    ensures Extends(Log(g.sent, p), Log(DropBackend(g, b, exclude).sent, p), {})
  {
    var g0 := RejectPending(g, b);
    var g1 := NotifyGone(g0, b, BackendOffline);
    var g2 := g1.(registry := g1.registry - {b});
    SendExtends(g0, Subs(g.subscriptions, b), BackendUnsubscribed(b, BackendOffline), p, {});
    SendExtends(g2, g2.peers.Keys - exclude, RegistrySnapshot(g2.registry), p, {});
    ExtendsTrans(Log(g.sent, p), Log(g1.sent, p), Log(DropBackend(g, b, exclude).sent, p), {});
  }

  lemma DropPeerExtends(g: State, q: PeerId, departed: Option<PeerId>, p: PeerId)
    requires q in g.peers
    ensures Extends(Log(g.sent, p), Log(DropPeer(g, q, departed).sent, p), {})
  {
  }

  lemma DepartureExtends(g: State, ev: Event, p: PeerId)
    requires ev.EvDisconnect? || ev.EvExpire?
    ensures Extends(Log(g.sent, p), Log(Step(g, ev).sent, p), {})
  {
    hide DropBackend, DropPeer;
    match ev
    case EvDisconnect(q) =>
      if q in g.peers {
        var g1 := if IsOwner(g.peers, g.leases, q) then DropBackend(g, g.peers[q].grant.value.backendId, {q}) else g;
        if IsOwner(g.peers, g.leases, q) {
          DropBackendParts(g, g.peers[q].grant.value.backendId, {q});
          DropBackendExtends(g, g.peers[q].grant.value.backendId, {q}, p);
        }
        DropPeerExtends(g1, q, Some(q), p);
        ExtendsTrans(Log(g.sent, p), Log(g1.sent, p), Log(Step(g, ev).sent, p), {});
      }
    case EvExpire(b, now) =>
      if b in g.leases && now - g.leases[b].lastHeartbeatAt > LEASE_TTL_MS {
        var q := g.leases[b].owner;
        var g1 := DropBackend(g, b, {});
        DropBackendExtends(g, b, {}, p);
        if q in g1.peers {
          var g2 := g1.(peers := ClearGrant(g1.peers, q));
          DropPeerExtends(g2, q, None, p);
          ExtendsTrans(Log(g.sent, p), Log(g1.sent, p), Log(Step(g, ev).sent, p), {});
        }
      }
  }

  lemma VacateExtends(g: State, b: BackendId, p: PeerId)
    ensures Extends(Log(g.sent, p), Log(Vacate(g, b).sent, p), {})
  {
    if b in g.leases {
      SendExtends(g, Subs(g.subscriptions, b), BackendUnsubscribed(b, EpochChanged), p, {});
    }
  }

  lemma HelloBackendExtends(g: State, q: PeerId, h: BackendHello, now: Time, p: PeerId)
    requires p != q
    ensures Extends(Log(g.sent, p), Log(HelloBackend(g, q, h, now).sent, p), {})
  {
    hide Vacate, Extends;
    var b := ClaimedBackend(g, h);
    var g1 := Register(g, q, h, now);
    var g2 := WithPeer(g1, q, Some(Grant(b, g.identities.maxEpoch + 1)));
    VacateExtends(g, b, p);
    VacateKeeps(g, b);
    assert Log(g2.sent, p) == Log(g1.sent, p);
    SendExtends(g2, g2.peers.Keys - {q}, RegistrySnapshot(g2.registry), p, {});
    ExtendsTrans(Log(g.sent, p), Log(g2.sent, p), Log(HelloBackend(g, q, h, now).sent, p), {});
  }

  // ---------------------------------------------------------------- what answering a request writes

  /** What a message to `to` adds to p's log. */
  function Given(to: Option<PeerId>, peers: Peers, p: PeerId, m: Msg): seq<Msg> {
    if to == Some(p) && IsOpen(peers, p) then [m] else []
  }

  lemma SendToLog(g: State, to: Option<PeerId>, m: Msg, p: PeerId)
    requires p in g.sent
    ensures var g' := SendTo(g, to, m);
            && g'.peers == g.peers && g'.leases == g.leases && g'.registry == g.registry && p in g'.sent
            && Log(g'.sent, p) == Log(g.sent, p) + Given(to, g.peers, p, m)
  {
  }

  /** Changing the subscribers of a backend writes nothing and leaves sessions and leases alone. */
  lemma SubscribersSilent(g: State, b: BackendId, s: set<PeerId>, p: PeerId)
    ensures var g' := SetSubscribers(g, b, s);
            && g'.sent == g.sent && g'.leases == g.leases && g'.registry == g.registry
            && (IsOpen(g'.peers, p) <==> IsOpen(g.peers, p))
            && Owner(g'.peers, g'.leases, b) == Owner(g.peers, g.leases, b)
  {
    hide Put, Count;
  }

  /** What a granted subscribe of q writes to p. */
  function SubscribeWrites(g: State, q: PeerId, b: BackendId, p: PeerId): seq<Msg>
    requires b in g.registry && b in g.leases && q in g.peers
  {
    var owner := Owner(g.peers, g.leases, b);
    (if Subs(g.subscriptions, b) == {} then Given(owner, g.peers, p, StreamDemand(true)) else []) +
    Given(Some(q), g.peers, p, BackendSubscribed(b, g.leases[b].epoch, g.registry[b].capabilities)) +
    (if b in g.peers[q].subscribed then [] else Given(owner, g.peers, p, RequestDataSnapshot(b, Some(q))))
  }

  lemma SubscribeLog(g: State, q: PeerId, b: BackendId, p: PeerId)
    requires b in g.registry && b in g.leases && q in g.peers && p in g.sent
    ensures Log(Subscribe(g, q, b).sent, p) == Log(g.sent, p) + SubscribeWrites(g, q, b, p)
    ensures IsOpen(Subscribe(g, q, b).peers, p) <==> IsOpen(g.peers, p)
    ensures Subscribe(g, q, b).registry == g.registry
  {
    hide SetSubscribers, SendTo, Owner, Subs, Log;
    var s := Subs(g.subscriptions, b) + {q};
    var g1 := SetSubscribers(g, b, s);
    var owner := Owner(g.peers, g.leases, b);
    var g2 := if Subs(g.subscriptions, b) == {} then SendTo(g1, owner, StreamDemand(true)) else g1;
    var m := BackendSubscribed(b, g.leases[b].epoch, g.registry[b].capabilities);
    var g3 := Send(g2, q, m);
    SubscribersSilent(g, b, s, p);
    SendToLog(g1, owner, StreamDemand(true), p);
    SendOneLog(g2, q, m, p);
    SendToLog(g3, owner, RequestDataSnapshot(b, Some(q)), p);
  }

  lemma SendOneLog(g: State, q: PeerId, m: Msg, p: PeerId)
    requires p in g.sent
    ensures var g' := Send(g, q, m);
            && g'.peers == g.peers && g'.leases == g.leases && g'.registry == g.registry && p in g'.sent
            && Log(g'.sent, p) == Log(g.sent, p) + Given(Some(q), g.peers, p, m)
  {
    SendToLog(g, Some(q), m, p);
  }

  /** What an unsubscribe of q writes to p. */
  function UnsubscribeWrites(g: State, q: PeerId, b: BackendId, p: PeerId): seq<Msg> {
    var owner := Owner(g.peers, g.leases, b);
    Given(Some(q), g.peers, p, BackendUnsubscribed(b, ClientUnsubscribed)) +
    Given(owner, g.peers, p, SubscriberDisconnected(b, q)) +
    (if Subs(g.subscriptions, b) == {q} then Given(owner, g.peers, p, StreamDemand(false)) else [])
  }

  lemma UnsubscribeLog(g: State, q: PeerId, b: BackendId, p: PeerId)
    requires p in g.sent
    ensures Log(Unsubscribe(g, q, b).sent, p) == Log(g.sent, p) + UnsubscribeWrites(g, q, b, p)
    ensures IsOpen(Unsubscribe(g, q, b).peers, p) <==> IsOpen(g.peers, p)
    ensures Unsubscribe(g, q, b).registry == g.registry
  {
    hide SetSubscribers, SendTo, Owner, Subs, Log;
    var s := Subs(g.subscriptions, b) - {q};
    var g1 := if q in Subs(g.subscriptions, b) then SetSubscribers(g, b, s) else g;
    var m := BackendUnsubscribed(b, ClientUnsubscribed);
    var owner := Owner(g.peers, g.leases, b);
    var g2 := Send(g1, q, m);
    var g3 := SendTo(g2, owner, SubscriberDisconnected(b, q));
    SubscribersSilent(g, b, s, p);
    SendOneLog(g1, q, m, p);
    SendToLog(g2, owner, SubscriberDisconnected(b, q), p);
    SendToLog(g3, owner, StreamDemand(false), p);
  }

  lemma SubscribeExtends(g: State, q: PeerId, b: BackendId, p: PeerId)
    requires p in g.sent
    ensures Extends(Log(g.sent, p), Log(Subscribe(g, q, b).sent, p), {})
  {
    hide Subscribe, Owner, Subs;
    if b in g.registry && b in g.leases && q in g.peers {
      SubscribeLog(g, q, b, p);
    } else {
      RefusedSubscribe(g, q, b);
      SendExtends(g, {q}, GatewayError(OfflineError), p, {});
    }
  }

  lemma RefusedSubscribe(g: State, q: PeerId, b: BackendId)
    requires b !in g.registry || b !in g.leases || q !in g.peers
    ensures Subscribe(g, q, b) == Send(g, q, GatewayError(OfflineError))
  {
  }

  lemma UnsubscribeExtends(g: State, q: PeerId, b: BackendId, p: PeerId)
    requires p in g.sent
    ensures Extends(Log(g.sent, p), Log(Unsubscribe(g, q, b).sent, p), if q == p then {b} else {})
  {
    hide Unsubscribe, Owner, Subs;
    UnsubscribeLog(g, q, b, p);
  }

  /** The unsubscribe a step answers to p. */
  function Asked(ev: Event, p: PeerId): set<BackendId> {
    if ev.EvUnsubscribe? && ev.p == p then {ev.b} else {}
  }

  /** A step only appends to the log of a connection, and answers only the unsubscribe it was asked for. */
  lemma StepExtends(g: State, ev: Event, p: PeerId)
    requires Enabled(g, ev) && p in g.sent
    ensures Extends(Log(g.sent, p), Log(Step(g, ev).sent, p), Asked(ev, p))
  {
    hide Log, Extends, HelloClient, HelloBackend, Subscribe, Unsubscribe, Disconnect, Expire, Heartbeat, Relay, SendTargeted,
         RequestSnapshot, Forward, SendAll, CloseSocket, Issue, SettlePending, StartStreaming, SettleStreaming;
    match ev
    case EvHelloClient(q) => HelloClientExtends(g, q, p);
    case EvHelloBackend(q, h, now) => HelloBackendExtends(g, q, h, now, p);
    case EvSubscribe(q, b) => SubscribeExtends(g, q, b, p);
    case EvUnsubscribe(q, b) => UnsubscribeExtends(g, q, b, p);
    case EvDisconnect(_) => DepartureExtends(g, ev, p);
    case EvExpire(_, _) => DepartureExtends(g, ev, p);
    case EvProxyIssue(r, b) => IssueExtends(g, r, b, p);
    case EvProxyPending(r, outcome) => SettlingExtends(g, r, outcome, p);
    case EvProxyStart(r) => SettlingExtends(g, r, Answered, p);
    case EvProxyStreaming(r, outcome) => SettlingExtends(g, r, outcome, p);
    case EvCloseSocket(q) => CloseExtends(g, q, p);
    case _ => PlainStepExtends(g, ev, p);
  }

  lemma HelloClientExtends(g: State, q: PeerId, p: PeerId)
    requires p != q
    ensures Extends(Log(g.sent, p), Log(HelloClient(g, q).sent, p), {})
  {
  }

  /** Settling a request, or starting to stream its answer, writes nothing. */
  lemma SettlingSilent(g: State, r: RequestId, outcome: Outcome)
    ensures SettlePending(g, r, outcome).sent == g.sent && SettleStreaming(g, r, outcome).sent == g.sent
    ensures StartStreaming(g, r).sent == g.sent
  {
    hide Settle;
  }

  lemma SettlingExtends(g: State, r: RequestId, outcome: Outcome, p: PeerId)
    ensures Extends(Log(g.sent, p), Log(SettlePending(g, r, outcome).sent, p), {})
    ensures Extends(Log(g.sent, p), Log(SettleStreaming(g, r, outcome).sent, p), {})
    ensures Extends(Log(g.sent, p), Log(StartStreaming(g, r).sent, p), {})
  {
    hide SettlePending, SettleStreaming, StartStreaming, Extends, Log;
    SettlingSilent(g, r, outcome);
    SameLog(Log(g.sent, p));
  }

  lemma SameLog(log: seq<Msg>)
    ensures Extends(log, log, {})
  {
  }

  lemma CloseExtends(g: State, q: PeerId, p: PeerId)
    ensures Extends(Log(g.sent, p), Log(CloseSocket(g, q).sent, p), {})
  {
  }

  lemma IssueExtends(g: State, r: RequestId, b: BackendId, p: PeerId)
    ensures Extends(Log(g.sent, p), Log(Issue(g, r, b).sent, p), {})
  {
  }

  /** The handlers that write at most one message to anyone. */
  predicate SingleMessage(ev: Event) {
    ev.EvHeartbeat? || ev.EvRelay? || ev.EvTargeted? || ev.EvRequestRegistry? || ev.EvRequestSnapshot? ||
    ev.EvClientMessage? || ev.EvCatchUp? || ev.EvPoll?
  }

  /** g' is g after at most one message went out, apart from what a heartbeat does to its lease. */
  ghost predicate OneMessage(g: State, g': State) {
    || g'.sent == g.sent
    || exists targets, m :: Unasked(m, {}) && g'.sent == SendAll(g, targets, m).sent
  }

  lemma OneMessageSent(g: State, targets: set<PeerId>, m: Msg, g': State)
    requires Unasked(m, {}) && g'.sent == Deliver(g.sent, g.peers, targets, m)
    ensures OneMessage(g, g')
  {
    assert g'.sent == SendAll(g, targets, m).sent;
  }

  lemma HeartbeatOnce(g: State, p: PeerId, e: Epoch, now: Time)
    ensures OneMessage(g, Heartbeat(g, p, e, now))
  {
    hide Deliver, OneMessage, IsActive;
    var g' := Heartbeat(g, p, e, now);
    if IsOwner(g.peers, g.leases, p) && g.peers[p].grant.value.epoch == e {
      OneMessageSent(g, {p}, HeartbeatAck(e, IsActive(g.demand, g.peers[p].grant.value.backendId)), g');
    } else {
      NoMessageSent(g, g');
    }
  }

  lemma RelayedOnce(g: State, p: PeerId, kind: RelayKind, claimed: BackendId, target: PeerId, payload: Payload)
    ensures OneMessage(g, Relay(g, p, kind, claimed, payload))
    ensures OneMessage(g, SendTargeted(g, p, claimed, target, payload))
  {
    hide Deliver, OneMessage, Subs;
    NoMessageSent(g, g);
    if IsOwner(g.peers, g.leases, p) {
      var b := g.peers[p].grant.value.backendId;
      OneMessageSent(g, Subs(g.subscriptions, b), Relayed(b, kind, payload, p),
                     SendAll(g, Subs(g.subscriptions, b), Relayed(b, kind, payload, p)));
      OneMessageSent(g, {target}, TargetedMessage(claimed, payload),
                     Send(g, target, TargetedMessage(claimed, payload)));
    }
  }

  lemma RequestedOnce(g: State, p: PeerId, b: BackendId)
    ensures OneMessage(g, RequestSnapshot(g, p, b))
  {
    hide Deliver, OneMessage, Owner;
    match Owner(g.peers, g.leases, b)
    case None => OneMessageSent(g, {p}, GatewayError(OfflineError), RequestSnapshot(g, p, b));
    case Some(owner) => OneMessageSent(g, {owner}, RequestDataSnapshot(b, None), RequestSnapshot(g, p, b));
  }

  lemma SingleMessageStep(g: State, ev: Event)
    requires SingleMessage(ev)
    ensures OneMessage(g, Step(g, ev))
  {
    hide Deliver, OneMessage, Heartbeat, Relay, SendTargeted, RequestSnapshot, Forward;
    match ev
    case EvHeartbeat(p, e, now) => HeartbeatOnce(g, p, e, now);
    case EvRelay(p, kind, claimed, payload) => RelayedOnce(g, p, kind, claimed, p, payload);
    case EvTargeted(p, b, target, payload) => RelayedOnce(g, p, DataEvent, b, target, payload);
    case EvRequestRegistry(p) => OneMessageSent(g, {p}, RegistrySnapshot(g.registry), Step(g, ev));
    case EvRequestSnapshot(p, b) => RequestedOnce(g, p, b);
    case EvClientMessage(p, b, payload) => ForwardedOnce(g, p, b, ClientMessage(b, payload, p));
    case EvCatchUp(p, b, payload) => ForwardedOnce(g, p, b, CatchUp(b, payload));
    case EvPoll => OneMessageSent(g, g.peers.Keys - {}, RegistrySnapshot(g.registry), Step(g, ev));
  }

  lemma NoMessageSent(g: State, g': State)
    requires g'.sent == g.sent
    ensures OneMessage(g, g')
  {
  }

  lemma ForwardedOnce(g: State, p: PeerId, b: BackendId, m: Msg)
    requires m.ClientMessage? || m.CatchUp?
    ensures OneMessage(g, Forward(g, p, b, m))
  {
    hide SendAll, OneMessage, Subs, Owner, Unasked;
    var owner := Owner(g.peers, g.leases, b);
    OneSent(g, {p}, GatewayError(NotSubscribedError));
    OneSent(g, {p}, GatewayError(OfflineError));
    if owner.Some? { OneSent(g, {owner.value}, m); }
  }

  lemma OneSent(g: State, targets: set<PeerId>, m: Msg)
    requires !m.PeerReady? && !m.BackendUnsubscribed?
    ensures OneMessage(g, SendAll(g, targets, m))
  {
    OneMessageSent(g, targets, m, SendAll(g, targets, m));
  }

  lemma PlainStepExtends(g: State, ev: Event, p: PeerId)
    requires SingleMessage(ev)
    ensures Extends(Log(g.sent, p), Log(Step(g, ev).sent, p), {})
  {
    hide Step;
    SingleMessageStep(g, ev);
    var g' := Step(g, ev);
    if g'.sent != g.sent {
      var targets, m :| Unasked(m, {}) && g'.sent == SendAll(g, targets, m).sent;
      SendExtends(g, targets, m, p, {});
    }
  }

  // ---------------------------------------------------------------- main results over runs

  /** In every reachable state all indexes agree: subscriptions, counters, leases, registry, identities, proxy tables. */
  lemma ReachableIndexes(g: State)
    requires Reachable(g)
    ensures IndexesOk(g, {})
  {
    ReachableInv(g);
  }

  /** Epoch fencing, on every connection of every reachable state. */
  lemma ReachableFencing(g: State, p: PeerId, i: nat, j: nat)
    requires Reachable(g) && i < j < |Log(g.sent, p)|
    requires var log := Log(g.sent, p);
             && log[i].BackendSubscribed? && log[j].Relayed? && log[j].backendId == log[i].backendId
             && (forall k :: i < k < j ==> log[k].BackendUnsubscribed? ==> log[k].backendId != log[i].backendId)
    ensures var log := Log(g.sent, p);
            Lookup(g.granted, log[i].epoch) == Some((log[i].backendId, log[j].sender))
  {
    ReachableInv(g);
    FencedBetween(g.sent[p], g.granted, i, j);
  }

  /**
   * Demand belief: what a connected owner was last told, by stream_demand or heartbeat_ack, is whether
   * its backend has a subscriber; and every heartbeat_ack on its connection repeated what it knew.
   */
  lemma ReachableDemand(g: State, p: PeerId)
    requires Reachable(g)
    ensures IsOpen(g.peers, p) && IsOwner(g.peers, g.leases, p) ==>
              DemandView(Log(g.sent, p)) == (Subs(g.subscriptions, g.peers[p].grant.value.backendId) != {})
    ensures forall j :: 0 <= j < |Log(g.sent, p)| && Log(g.sent, p)[j].HeartbeatAck? ==>
              DemandView(Log(g.sent, p)[..j]) == Log(g.sent, p)[j].active
  {
    ReachableInv(g);
    forall j | 0 <= j < |Log(g.sent, p)| && Log(g.sent, p)[j].HeartbeatAck?
      ensures DemandView(Log(g.sent, p)[..j]) == Log(g.sent, p)[j].active
    {
      AckRepeatsDemand(g.sent[p], g.granted, j);
    }
  }

  /** A lease is only ever taken over by the instance that held it, at a strictly larger epoch. */
  lemma TakeoverBySameInstance(g: State, p: PeerId, h: BackendHello, now: Time)
    requires Inv(g) && p !in g.sent && h.generated !in Used(g.identities)
    requires ClaimedBackend(g, h) in g.leases
    ensures var b := ClaimedBackend(g, h);
            var g' := HelloBackend(g, p, h, now);
            && g.registry[b].instanceId == h.instance
            && g'.leases[b].owner == p
            && g.leases[b].epoch < g'.leases[b].epoch
  {
    hide HelloBackend, Mirrored, Counted, GrantsOk, ProxyOk, BeliefsOk, RegistryShown, DemandTold, HistoryOk;
    var b := ClaimedBackend(g, h);
    TakenOver(g, p, h, now);
    assert Lookup(g.identities.instances, g.registry[b].instanceId) == Some(b);
    assert b in g.identities.instances.Values;
    assert g.leases[b].epoch in g.granted;
  }

  lemma TakenOver(g: State, p: PeerId, h: BackendHello, now: Time)
    ensures var b := ClaimedBackend(g, h);
            var g' := HelloBackend(g, p, h, now);
            b in g'.leases && g'.leases[b] == Lease(g.identities.maxEpoch + 1, p, now)
  {
  }

  // ---------------------------------------------------------------- proxy requests

  predicate Known(proxy: Proxy, r: RequestId) {
    r in proxy.pending || r in proxy.streaming || r in proxy.settled
  }

  /** No request is forgotten, none is settled twice, and a streaming one never waits for its head again. */
  ghost predicate ProxyAdvances(proxy: Proxy, proxy': Proxy) {
    && (forall r :: Known(proxy, r) ==> Known(proxy', r))
    && (forall r :: r in proxy.settled ==> Lookup(proxy'.settled, r) == Some(proxy.settled[r]))
    && (forall r :: r in proxy.streaming ==> r !in proxy'.pending)
  }

  lemma SettleAdvances(proxy: Proxy, requests: set<RequestId>, outcome: Outcome)
    requires requests !! proxy.settled.Keys && proxy.pending.Keys !! proxy.streaming.Keys
    ensures ProxyAdvances(proxy, Settle(proxy, requests, outcome))
  {
  }

  lemma DepartureProxy(g: State, ev: Event)
    requires ProxyOk(g.proxy, g.leases) && (ev.EvDisconnect? || ev.EvExpire?)
    ensures ProxyAdvances(g.proxy, Step(g, ev).proxy)
  {
    hide DropBackend, DropPeer;
    match ev
    case EvDisconnect(p) =>
      if p in g.peers {
        if IsOwner(g.peers, g.leases, p) {
          var b := g.peers[p].grant.value.backendId;
          DropBackendProxy(g, b, {p});
        }
      }
    case EvExpire(b, now) =>
      if b in g.leases {
        DropBackendProxy(g, b, {});
      }
  }

  lemma DropBackendProxy(g: State, b: BackendId, exclude: set<PeerId>)
    requires ProxyOk(g.proxy, g.leases)
    ensures ProxyAdvances(g.proxy, DropBackend(g, b, exclude).proxy)
    ensures DropBackend(g, b, exclude).peers.Keys == g.peers.Keys
  {
    hide Deliver, Put, Count, Subs;
    SettleAdvances(g.proxy, Requests(g.proxy.pending, b) + Requests(g.proxy.streaming, b), BackendGone);
  }

  lemma IssueAdvances(g: State, r: RequestId, b: BackendId)
    requires !Known(g.proxy, r) && forall q :: q in g.proxy.streaming ==> q !in g.proxy.pending
    ensures ProxyAdvances(g.proxy, Issue(g, r, b).proxy)
  {
  }

  predicate TouchesProxy(ev: Event) {
    ev.EvDisconnect? || ev.EvExpire? || ev.EvProxyIssue? || ev.EvProxyPending? || ev.EvProxyStart? || ev.EvProxyStreaming?
  }

  lemma QuietStep(g: State, ev: Event)
    requires !TouchesProxy(ev)
    ensures Step(g, ev).proxy == g.proxy
  {
    hide HelloBackend, HelloClient, Subscribe, Unsubscribe, Heartbeat, Relay, SendTargeted, RequestSnapshot, Forward,
         Broadcast, SendAll;
  }

  lemma StartAdvances(proxy: Proxy, r: RequestId)
    requires r in proxy.pending && proxy.pending.Keys !! proxy.streaming.Keys
    ensures ProxyAdvances(proxy, proxy.(pending := proxy.pending - {r},
                          streaming := proxy.streaming[r := proxy.pending[r]]))
  {
  }

  lemma ProxyUnchanged(proxy: Proxy)
    requires proxy.pending.Keys !! proxy.streaming.Keys
    ensures ProxyAdvances(proxy, proxy)
  {
  }

  lemma ProxyStep(g: State, ev: Event)
    requires ProxyOk(g.proxy, g.leases) && Enabled(g, ev)
    requires ev.EvProxyIssue? || ev.EvProxyPending? || ev.EvProxyStart? || ev.EvProxyStreaming?
    ensures ProxyAdvances(g.proxy, Step(g, ev).proxy)
  {
    hide Issue, Owner, ProxyAdvances, Settle;
    ProxyUnchanged(g.proxy);
    match ev
    case EvProxyIssue(r, b) => IssueAdvances(g, r, b);
    case EvProxyPending(r, outcome) => if r in g.proxy.pending { SettleAdvances(g.proxy, {r}, outcome); }
    case EvProxyStart(r) => if r in g.proxy.pending { StartAdvances(g.proxy, r); }
    case EvProxyStreaming(r, outcome) => if r in g.proxy.streaming { SettleAdvances(g.proxy, {r}, outcome); }
  }

  lemma StepAdvancesProxy(g: State, ev: Event)
    requires ProxyOk(g.proxy, g.leases) && Enabled(g, ev)
    ensures ProxyAdvances(g.proxy, Step(g, ev).proxy)
  {
    hide Step, Enabled;
    if ev.EvDisconnect? || ev.EvExpire? {
      DepartureProxy(g, ev);
    } else if TouchesProxy(ev) {
      ProxyStep(g, ev);
    } else {
      QuietStep(g, ev);
    }
  }

  /**
   * Proxy conservation: once issued, a request stays in exactly one of the three tables, a pending one
   * names a leased backend, it leaves the pending table once, and the way it ended never changes again.
   */
  lemma {:induction false} RunConservesRequests(g: State, events: seq<Event>, r: RequestId)
    requires Inv(g) && AllEnabled(g, events) && Known(g.proxy, r)
    ensures var proxy' := RunFrom(g, events).proxy;
            && Known(proxy', r)
            && !(r in proxy'.pending && r in proxy'.streaming)
            && !(r in proxy'.pending && r in proxy'.settled)
            && !(r in proxy'.streaming && r in proxy'.settled)
            && (r in proxy'.pending ==> proxy'.pending[r] in RunFrom(g, events).leases)
            && (r in proxy'.streaming ==> proxy'.streaming[r] in RunFrom(g, events).leases)
            && (r in g.proxy.settled ==> Lookup(proxy'.settled, r) == Some(g.proxy.settled[r]))
            && (r in g.proxy.streaming || r in g.proxy.settled ==> r !in proxy'.pending)
    decreases |events|
  {
    hide Step, BeliefsOk, RegistryShown, DemandTold, HistoryOk, Mirrored, Counted, GrantsOk, LeasesOk, IdentitiesOk;
    if events != [] {
      StepKeepsInv(g, events[0]);
      StepAdvancesProxy(g, events[0]);
      RunConservesRequests(Step(g, events[0]), events[1..], r);
    }
  }
}
