/**
 * The gateway's state and its handlers as one atomic step each: gateway/src/state.ts and
 * gateway/src/server.ts.  A handler's loop over subscribers, peers or affected backends is stated
 * here pointwise; GatewayServer.dfy holds the loops and proves them equal to these functions.
 */
module Gateway {
  import opened Options
  import opened Storage

  newtype PeerId = x: int | 0 <= x
  newtype RequestId = x: int | 0 <= x
  type Payload = string
  type Time = int

  const LEASE_TTL_MS: Time := 30_000

  datatype Presence = Presence(backendId: BackendId, instanceId: InstanceId, visible: bool,
                               capabilities: seq<string>, epoch: Epoch)

  datatype Grant = Grant(backendId: BackendId, epoch: Epoch)

  datatype CloseReason = ClientUnsubscribed | BackendOffline | EpochChanged

  datatype RelayKind = DataSnapshot | DataEvent | RunEvent | ServerMessage | ContentPatch | ContentPatchError

  datatype ErrorCode = OfflineError | NotSubscribedError

  /** What the gateway writes to a socket.  `sender` on a relay is provenance kept by the model only. */
  datatype Msg =
    | PeerReady(peer: PeerId, grant: Option<Grant>, items: map<BackendId, Presence>)
    | RegistrySnapshot(items: map<BackendId, Presence>)
    | BackendSubscribed(backendId: BackendId, epoch: Epoch, capabilities: seq<string>)
    | BackendUnsubscribed(backendId: BackendId, reason: CloseReason)
    | Relayed(backendId: BackendId, kind: RelayKind, payload: Payload, sender: PeerId)
    | TargetedMessage(backendId: BackendId, payload: Payload)
    | StreamDemand(active: bool)
    | HeartbeatAck(epoch: Epoch, active: bool)
    | RequestDataSnapshot(backendId: BackendId, target: Option<PeerId>)
    | SubscriberDisconnected(backendId: BackendId, peer: PeerId)
    | ClientMessage(backendId: BackendId, payload: Payload, source: PeerId)
    | CatchUp(backendId: BackendId, payload: Payload)
    | ProxyRequest(request: RequestId)
    | GatewayError(code: ErrorCode)

  /** A peer session; `open` is the socket's readyState, `grant` its backendId and epoch fields. */
  datatype Peer = Peer(open: bool, grant: Option<Grant>, subscribed: set<BackendId>)

  datatype Lease = Lease(epoch: Epoch, owner: PeerId, lastHeartbeatAt: Time)

  datatype Demand = Demand(count: nat, active: bool)

  datatype Outcome = Answered | Completed | TimedOut | ClientGone | BackendGone

  /** The two pending tables, and how every settled request ended. */
  datatype Proxy = Proxy(
    pending: map<RequestId, BackendId>,
    streaming: map<RequestId, BackendId>,
    settled: map<RequestId, Outcome>
  )

  /**
   * `sent` keeps everything written to each connection ever opened, and `granted` every epoch ever
   * handed out; both only record history.
   */
  datatype State = State(
    peers: map<PeerId, Peer>,
    registry: map<BackendId, Presence>,
    leases: map<BackendId, Lease>,
    subscriptions: map<BackendId, set<PeerId>>,
    demand: map<BackendId, Demand>,
    proxy: Proxy,
    identities: Identities,
    sent: map<PeerId, seq<Msg>>,
    granted: map<Epoch, (BackendId, PeerId)>
  )

  const EMPTY_PROXY := Proxy(map[], map[], map[])

  /** A gateway that has just started on the identities its storage holds. */
  function Started(identities: Identities): State {
    State(map[], map[], map[], map[], map[], EMPTY_PROXY, identities, map[], map[])
  }

  // ---------------------------------------------------------------- reading the state

  function Subs(subscriptions: map<BackendId, set<PeerId>>, b: BackendId): set<PeerId> {
    if b in subscriptions then subscriptions[b] else {}
  }

  function Log(sent: map<PeerId, seq<Msg>>, p: PeerId): seq<Msg> {
    if p in sent then sent[p] else []
  }

  predicate IsOpen(peers: map<PeerId, Peer>, p: PeerId) {
    p in peers && peers[p].open
  }

  function DemandOf(subscribers: set<PeerId>): Demand {
    Demand(|subscribers|, subscribers != {})
  }

  predicate IsActive(demand: map<BackendId, Demand>, b: BackendId) {
    b in demand && demand[b].active
  }

  /** findBackendPeer: the peer holding the lease, when it is still connected. */
  function Owner(peers: map<PeerId, Peer>, leases: map<BackendId, Lease>, b: BackendId): Option<PeerId> {
    if b in leases && leases[b].owner in peers then Some(leases[b].owner) else None
  }

  /** isCurrentBackendOwner without an expected epoch. */
  predicate IsOwner(peers: map<PeerId, Peer>, leases: map<BackendId, Lease>, p: PeerId) {
    && p in peers
    && peers[p].grant.Some?
    && var b := peers[p].grant.value.backendId;
    && b in leases
    && leases[b].owner == p
    && leases[b].epoch == peers[p].grant.value.epoch
  }

  // ---------------------------------------------------------------- sending

  /** One message to every target whose socket is open. */
  function Deliver(sent: map<PeerId, seq<Msg>>, peers: map<PeerId, Peer>, targets: set<PeerId>,
                   m: Msg): map<PeerId, seq<Msg>> {
    map q | q in sent :: if q in targets && IsOpen(peers, q) then sent[q] + [m] else sent[q]
  }

  function SendAll(g: State, targets: set<PeerId>, m: Msg): (g': State)
    ensures g'.proxy == g.proxy
  {
    g.(sent := Deliver(g.sent, g.peers, targets, m))
  }

  function Send(g: State, p: PeerId, m: Msg): State {
    SendAll(g, {p}, m)
  }

  function SendTo(g: State, p: Option<PeerId>, m: Msg): State {
    if p.Some? then Send(g, p.value, m) else g
  }

  /** broadcastRegistrySnapshot. */
  function Broadcast(g: State, exclude: set<PeerId>): (g': State)
    ensures g'.proxy == g.proxy
  {
    SendAll(g, g.peers.Keys - exclude, RegistrySnapshot(g.registry))
  }

  // ---------------------------------------------------------------- subscriptions and demand

  function Put(subscriptions: map<BackendId, set<PeerId>>, b: BackendId, s: set<PeerId>): map<BackendId, set<PeerId>> {
    if s == {} then subscriptions - {b} else subscriptions[b := s]
  }

  function Resubscribe(peers: map<PeerId, Peer>, b: BackendId, s: set<PeerId>): map<PeerId, Peer> {
    map q | q in peers ::
      peers[q].(subscribed := if q in s then peers[q].subscribed + {b} else peers[q].subscribed - {b})
  }

  function Count(demand: map<BackendId, Demand>, b: BackendId, s: set<PeerId>): map<BackendId, Demand> {
    if b in demand then demand[b := DemandOf(s)] else demand
  }

  /** Makes `s` the subscribers of b in all three indexes: per backend, per peer, and the demand counter. */
  function SetSubscribers(g: State, b: BackendId, s: set<PeerId>): State {
    g.(subscriptions := Put(g.subscriptions, b, s),
       peers := Resubscribe(g.peers, b, s),
       demand := Count(g.demand, b, s))
  }

  function Unlist(subscriptions: map<BackendId, set<PeerId>>, p: PeerId): map<BackendId, set<PeerId>> {
    map b | b in subscriptions && subscriptions[b] != {p} :: subscriptions[b] - {p}
  }

  function Recount(demand: map<BackendId, Demand>, subscriptions: map<BackendId, set<PeerId>>): map<BackendId, Demand> {
    map b | b in demand :: DemandOf(Subs(subscriptions, b))
  }

  /** removeAllSubscriptions. */
  function RemoveAll(g: State, p: PeerId): State
    requires p in g.peers
  {
    g.(subscriptions := Unlist(g.subscriptions, p),
       peers := g.peers[p := g.peers[p].(subscribed := {})],
       demand := Recount(g.demand, Unlist(g.subscriptions, p)))
  }

  /** notifySubscribersBackendGone. */
  function NotifyGone(g: State, b: BackendId, reason: CloseReason): State {
    SetSubscribers(SendAll(g, Subs(g.subscriptions, b), BackendUnsubscribed(b, reason)), b, {})
  }

  /** What a departed subscriber of b makes the gateway tell the owner of b. */
  function DepartureNotice(demand: map<BackendId, Demand>, b: BackendId, departed: Option<PeerId>): seq<Msg> {
    (if departed.Some? then [SubscriberDisconnected(b, departed.value)] else []) +
    (if IsActive(demand, b) then [] else [StreamDemand(false)])
  }

  /** q owns one of the affected backends and can be told so. */
  predicate Told(peers: map<PeerId, Peer>, leases: map<BackendId, Lease>, affected: set<BackendId>, q: PeerId) {
    IsOpen(peers, q) && IsOwner(peers, leases, q) && peers[q].grant.value.backendId in affected
  }

  /** The logs once the owner of each affected backend has been told. */
  function Noticed(sent: map<PeerId, seq<Msg>>, peers: map<PeerId, Peer>, leases: map<BackendId, Lease>,
                   demand: map<BackendId, Demand>, affected: set<BackendId>, departed: Option<PeerId>): map<PeerId, seq<Msg>> {
    map q | q in sent ::
      if Told(peers, leases, affected, q)
      then sent[q] + DepartureNotice(demand, peers[q].grant.value.backendId, departed)
      else sent[q]
  }

  /** Tells the owner of each affected backend. */
  function NotifyOwners(g: State, affected: set<BackendId>, departed: Option<PeerId>): State {
    g.(sent := Noticed(g.sent, g.peers, g.leases, g.demand, affected, departed))
  }

  // ---------------------------------------------------------------- proxy tables

  function Requests(table: map<RequestId, BackendId>, b: BackendId): set<RequestId> {
    set r | r in table && table[r] == b
  }

  function Settle(proxy: Proxy, requests: set<RequestId>, outcome: Outcome): Proxy {
    Proxy(proxy.pending - requests, proxy.streaming - requests,
          proxy.settled + map r | r in requests :: outcome)
  }

  /** rejectPendingProxyRequests. */
  function RejectPending(g: State, b: BackendId): State {
    g.(proxy := Settle(g.proxy, Requests(g.proxy.pending, b) + Requests(g.proxy.streaming, b), BackendGone))
  }

  function Issue(g: State, r: RequestId, b: BackendId): State {
    match Owner(g.peers, g.leases, b)
    case None => g
    case Some(owner) =>
      Send(g.(proxy := g.proxy.(pending := g.proxy.pending[r := b])), owner, ProxyRequest(r))
  }

  function SettlePending(g: State, r: RequestId, outcome: Outcome): State {
    if r in g.proxy.pending then g.(proxy := Settle(g.proxy, {r}, outcome)) else g
  }

  function SettleStreaming(g: State, r: RequestId, outcome: Outcome): State {
    if r in g.proxy.streaming then g.(proxy := Settle(g.proxy, {r}, outcome)) else g
  }

  function StartStreaming(g: State, r: RequestId): State {
    if r in g.proxy.pending
    then g.(proxy := g.proxy.(pending := g.proxy.pending - {r},
                              streaming := g.proxy.streaming[r := g.proxy.pending[r]]))
    else g
  }

  // ---------------------------------------------------------------- connecting

  function WithPeer(g: State, p: PeerId, grant: Option<Grant>): State {
    Send(g.(peers := g.peers[p := Peer(true, grant, {})], sent := g.sent[p := []]),
         p, PeerReady(p, grant, g.registry))
  }

  function HelloClient(g: State, p: PeerId): (g': State)
    ensures g'.proxy == g.proxy
  {
    WithPeer(g, p, None)
  }

  /** handleBackendOwnerReplaced. */
  function OwnerReplaced(g: State, b: BackendId, previous: PeerId): State {
    var g1 := NotifyGone(g, b, EpochChanged);
    var g2 := g1.(leases := g1.leases - {b});
    if previous in g2.peers
    then g2.(peers := g2.peers[previous := g2.peers[previous].(grant := None, open := false)])
    else g2
  }

  datatype BackendHello = BackendHello(instance: InstanceId, device: DeviceId, channel: string,
                                       visible: bool, capabilities: seq<string>, generated: BackendId)

  function ClaimedBackend(g: State, h: BackendHello): BackendId {
    BackendFor(g.identities, h.instance, h.device, h.channel, h.generated)
  }

  /** The previous owner of b, if any, is out. */
  function Vacate(g: State, b: BackendId): State {
    if b in g.leases then OwnerReplaced(g, b, g.leases[b].owner) else g
  }

  function NewPresence(g: State, h: BackendHello): Presence {
    Presence(ClaimedBackend(g, h), h.instance, h.visible, h.capabilities, g.identities.maxEpoch + 1)
  }

  /** The lease, registry and demand part of a client+backend hello. */
  function Register(g: State, p: PeerId, h: BackendHello, now: Time): State {
    var b := ClaimedBackend(g, h);
    var e := g.identities.maxEpoch + 1;
    var claimed := Claim(g.identities, h.instance, h.device, h.channel, h.generated);
    var g1 := Vacate(g, b);
    g1.(identities := claimed.(maxEpoch := e),
        leases := g1.leases[b := Lease(e, p, now)],
        registry := g1.registry[b := NewPresence(g, h)],
        demand := g1.demand[b := Demand(0, false)],
        granted := g1.granted[e := (b, p)])
  }

  function HelloBackend(g: State, p: PeerId, h: BackendHello, now: Time): (g': State)
    ensures g'.proxy == g.proxy
  {
    var grant := Grant(ClaimedBackend(g, h), g.identities.maxEpoch + 1);
    Broadcast(WithPeer(Register(g, p, h, now), p, Some(grant)), {p})
  }

  // ---------------------------------------------------------------- messages from a peer

  function Heartbeat(g: State, p: PeerId, epoch: Epoch, now: Time): (g': State)
    ensures g'.proxy == g.proxy
  {
    if IsOwner(g.peers, g.leases, p) && g.peers[p].grant.value.epoch == epoch then
      var b := g.peers[p].grant.value.backendId;
      Send(g.(leases := g.leases[b := g.leases[b].(lastHeartbeatAt := now)]), p, HeartbeatAck(epoch, IsActive(g.demand, b)))
    else g
  }

  /** Kinds whose handler compares the message's backend identifier with the sender's. */
  predicate ChecksClaim(kind: RelayKind) {
    kind.ServerMessage? || kind.ContentPatch? || kind.ContentPatchError?
  }

  function Relay(g: State, p: PeerId, kind: RelayKind, claimed: BackendId, payload: Payload): (g': State)
    ensures g'.proxy == g.proxy
  {
    if IsOwner(g.peers, g.leases, p) && (ChecksClaim(kind) ==> claimed == g.peers[p].grant.value.backendId) then
      var b := g.peers[p].grant.value.backendId;
      SendAll(g, Subs(g.subscriptions, b), Relayed(b, kind, payload, p))
    else g
  }

  function SendTargeted(g: State, p: PeerId, claimed: BackendId, target: PeerId, payload: Payload): (g': State)
    ensures g'.proxy == g.proxy
  {
    if IsOwner(g.peers, g.leases, p) && claimed == g.peers[p].grant.value.backendId
    then Send(g, target, TargetedMessage(claimed, payload))
    else g
  }

  function RequestSnapshot(g: State, p: PeerId, b: BackendId): (g': State)
    ensures g'.proxy == g.proxy
  {
    match Owner(g.peers, g.leases, b)
    case None => Send(g, p, GatewayError(OfflineError))
    case Some(owner) => Send(g, owner, RequestDataSnapshot(b, None))
  }

  /** handleBackendClientMessage and handleCatchUpSessionContent: subscribers only. */
  function Forward(g: State, p: PeerId, b: BackendId, m: Msg): (g': State)
    ensures g'.proxy == g.proxy
  {
    if p !in Subs(g.subscriptions, b) then Send(g, p, GatewayError(NotSubscribedError))
    else match Owner(g.peers, g.leases, b)
      case None => Send(g, p, GatewayError(OfflineError))
      case Some(owner) => Send(g, owner, m)
  }

  /** handleSubscribeBackend. */
  function Subscribe(g: State, p: PeerId, b: BackendId): (g': State)
    ensures g'.proxy == g.proxy
  {
    if b !in g.registry || b !in g.leases || p !in g.peers then Send(g, p, GatewayError(OfflineError))
    else
      var already := b in g.peers[p].subscribed;
      var g1 := SetSubscribers(g, b, Subs(g.subscriptions, b) + {p});
      var g2 := if Subs(g.subscriptions, b) == {} then SendTo(g1, Owner(g1.peers, g1.leases, b), StreamDemand(true)) else g1;
      var g3 := Send(g2, p, BackendSubscribed(b, g.leases[b].epoch, g.registry[b].capabilities));
      if already then g3 else SendTo(g3, Owner(g3.peers, g3.leases, b), RequestDataSnapshot(b, Some(p)))
  }

  /** handleUnsubscribeBackend. */
  function Unsubscribe(g: State, p: PeerId, b: BackendId): (g': State)
    ensures g'.proxy == g.proxy
  {
    var g1 := if p in Subs(g.subscriptions, b) then SetSubscribers(g, b, Subs(g.subscriptions, b) - {p}) else g;
    var g2 := Send(g1, p, BackendUnsubscribed(b, ClientUnsubscribed));
    var g3 := SendTo(g2, Owner(g2.peers, g2.leases, b), SubscriberDisconnected(b, p));
    if Subs(g.subscriptions, b) == {p} then SendTo(g3, Owner(g3.peers, g3.leases, b), StreamDemand(false)) else g3
  }

  // ---------------------------------------------------------------- leaving

  /** A backend goes away: proxy requests, subscribers, registry, then lease and demand. */
  function DropBackend(g: State, b: BackendId, exclude: set<PeerId>): State {
    var g1 := NotifyGone(RejectPending(g, b), b, BackendOffline);
    var g2 := Broadcast(g1.(registry := g1.registry - {b}), exclude);
    g2.(leases := g2.leases - {b}, demand := g2.demand - {b})
  }

  /** A peer goes away: its own subscriptions, the owners they concern, then the peer. */
  function DropPeer(g: State, p: PeerId, departed: Option<PeerId>): (g': State)
    requires p in g.peers
    ensures g'.proxy == g.proxy
  {
    var g1 := NotifyOwners(RemoveAll(g, p), g.peers[p].subscribed, departed);
    g1.(peers := g1.peers - {p})
  }

  /** handlePeerDisconnect. */
  function Disconnect(g: State, p: PeerId): State {
    if p !in g.peers then g
    else
      var g1 := if IsOwner(g.peers, g.leases, p) then DropBackend(g, g.peers[p].grant.value.backendId, {p}) else g;
      DropPeer(g1, p, Some(p))
  }

  function ClearGrant(peers: map<PeerId, Peer>, p: PeerId): map<PeerId, Peer>
    requires p in peers
  {
    peers[p := peers[p].(grant := None)]
  }

  /** handleBackendLeaseExpired, behind the test of the lease timer. */
  function Expire(g: State, b: BackendId, now: Time): State {
    if b !in g.leases || now - g.leases[b].lastHeartbeatAt <= LEASE_TTL_MS then g
    else
      var p := g.leases[b].owner;
      var g1 := DropBackend(g, b, {});
      if p !in g1.peers then g1
      else DropPeer(g1.(peers := ClearGrant(g1.peers, p)), p, None)
  }

  function Shut(peers: map<PeerId, Peer>, p: PeerId): map<PeerId, Peer> {
    if p in peers then peers[p := peers[p].(open := false)] else peers
  }

  /** The socket leaves the OPEN state before its close event reaches the gateway. */
  function CloseSocket(g: State, p: PeerId): (g': State)
    ensures g'.proxy == g.proxy
  {
    g.(peers := Shut(g.peers, p))
  }

  // ---------------------------------------------------------------- runs

  datatype Event =
    | EvHelloClient(p: PeerId)
    | EvHelloBackend(p: PeerId, hello: BackendHello, now: Time)
    | EvHeartbeat(p: PeerId, epoch: Epoch, now: Time)
    | EvRelay(p: PeerId, kind: RelayKind, b: BackendId, payload: Payload)
    | EvTargeted(p: PeerId, b: BackendId, target: PeerId, payload: Payload)
    | EvRequestRegistry(p: PeerId)
    | EvRequestSnapshot(p: PeerId, b: BackendId)
    | EvSubscribe(p: PeerId, b: BackendId)
    | EvUnsubscribe(p: PeerId, b: BackendId)
    | EvClientMessage(p: PeerId, b: BackendId, payload: Payload)
    | EvCatchUp(p: PeerId, b: BackendId, payload: Payload)
    | EvPoll
    | EvCloseSocket(p: PeerId)
    | EvDisconnect(p: PeerId)
    | EvExpire(b: BackendId, now: Time)
    | EvProxyIssue(r: RequestId, b: BackendId)
    | EvProxyPending(r: RequestId, outcome: Outcome)
    | EvProxyStart(r: RequestId)
    | EvProxyStreaming(r: RequestId, outcome: Outcome)

  /** Before its head a response can only arrive whole or time out; the client's departure goes unnoticed. */
  predicate LeavesPending(outcome: Outcome) {
    outcome.Answered? || outcome.TimedOut?
  }

  predicate LeavesStreaming(outcome: Outcome) {
    outcome.Completed? || outcome.TimedOut? || outcome.ClientGone?
  }

  /** Random identifiers are new, and only a connected peer sends messages. */
  ghost predicate Enabled(g: State, ev: Event) {
    match ev
    case EvHelloClient(p) => p !in g.sent
    case EvHelloBackend(p, h, _) => p !in g.sent && h.generated !in Used(g.identities)
    case EvProxyIssue(r, _) => r !in g.proxy.pending && r !in g.proxy.streaming && r !in g.proxy.settled
    case EvProxyPending(_, outcome) => LeavesPending(outcome)
    case EvProxyStart(_) => true
    case EvProxyStreaming(_, outcome) => LeavesStreaming(outcome)
    case EvPoll => true
    case EvExpire(_, _) => true
    case EvCloseSocket(p) => true
    case EvDisconnect(p) => true
    case _ => ev.p in g.peers
  }

  function Step(g: State, ev: Event): State {
    match ev
    case EvHelloClient(p) => HelloClient(g, p)
    case EvHelloBackend(p, h, now) => HelloBackend(g, p, h, now)
    case EvHeartbeat(p, e, now) => Heartbeat(g, p, e, now)
    case EvRelay(p, kind, b, payload) => Relay(g, p, kind, b, payload)
    case EvTargeted(p, b, target, payload) => SendTargeted(g, p, b, target, payload)
    case EvRequestRegistry(p) => Send(g, p, RegistrySnapshot(g.registry))
    case EvRequestSnapshot(p, b) => RequestSnapshot(g, p, b)
    case EvSubscribe(p, b) => Subscribe(g, p, b)
    case EvUnsubscribe(p, b) => Unsubscribe(g, p, b)
    case EvClientMessage(p, b, payload) => Forward(g, p, b, ClientMessage(b, payload, p))
    case EvCatchUp(p, b, payload) => Forward(g, p, b, CatchUp(b, payload))
    case EvPoll => Broadcast(g, {})
    case EvCloseSocket(p) => CloseSocket(g, p)
    case EvDisconnect(p) => Disconnect(g, p)
    case EvExpire(b, now) => Expire(g, b, now)
    case EvProxyIssue(r, b) => Issue(g, r, b)
    case EvProxyPending(r, outcome) => SettlePending(g, r, outcome)
    case EvProxyStart(r) => StartStreaming(g, r)
    case EvProxyStreaming(r, outcome) => SettleStreaming(g, r, outcome)
  }

  function RunFrom(g: State, events: seq<Event>): State
    decreases |events|
  {
    if events == [] then g else RunFrom(Step(g, events[0]), events[1..])
  }

  ghost predicate AllEnabled(g: State, events: seq<Event>)
    decreases |events|
  {
    events == [] || (Enabled(g, events[0]) && AllEnabled(Step(g, events[0]), events[1..]))
  }
}
