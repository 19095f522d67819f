/** Where every proxy request is, after every event and after every run. */
module GatewayRequests {
  import opened Options
  import opened Storage
  import opened Gateway
  import opened GatewayInvariants
  import opened GatewaySteps
  import opened GatewayRuns
  import opened GatewayHistory
  import opened GatewayNotices
  import opened GatewayDelivery

  /** Where a request is: waiting for its answer's head, waiting for the rest of it, over, or not issued. */
  datatype Place = Unissued | Pending(b: BackendId) | Streaming(b: BackendId) | Settled(outcome: Outcome)

  function PlaceOf(proxy: Proxy, r: RequestId): Place {
    if r in proxy.pending then Pending(proxy.pending[r])
    else if r in proxy.streaming then Streaming(proxy.streaming[r])
    else if r in proxy.settled then Settled(proxy.settled[r])
    else Unissued
  }

  /** Does this event end b's lease and its requests: a disconnect of its owner, or its expiry? */
  predicate Abandons(g: State, ev: Event, b: BackendId) {
    b in g.leases && (ev.EvDisconnect? || ev.EvExpire?) && EndsLease(g, ev, b)
  }

  /** Where an event moves a request. */
  function Moves(g: State, ev: Event, r: RequestId, place: Place): Place {
    match place
    case Unissued => if ev.EvProxyIssue? && ev.r == r && Owner(g.peers, g.leases, ev.b).Some? then Pending(ev.b) else Unissued
    case Pending(b) =>
      if ev.EvProxyPending? && ev.r == r then Settled(ev.outcome)
      else if ev == EvProxyStart(r) then Streaming(b)
      else if Abandons(g, ev, b) then Settled(BackendGone)
      else place
    case Streaming(b) =>
      if ev.EvProxyStreaming? && ev.r == r then Settled(ev.outcome)
      else if Abandons(g, ev, b) then Settled(BackendGone)
      else place
    case Settled(_) => place
  }

  lemma IssueMoves(g: State, r: RequestId, b: BackendId, q: RequestId)
    requires ProxyOk(g.proxy, g.leases) && PlaceOf(g.proxy, r) == Unissued
    ensures PlaceOf(Issue(g, r, b).proxy, q) ==
            if q == r && Owner(g.peers, g.leases, b).Some? then Pending(b) else PlaceOf(g.proxy, q)
  {
    hide Owner, Deliver;
  }

  lemma SettleMoves(proxy: Proxy, leases: Leases, requests: set<RequestId>, outcome: Outcome, q: RequestId)
    requires ProxyOk(proxy, leases) && forall r :: r in requests ==> r in proxy.pending || r in proxy.streaming
    ensures PlaceOf(Settle(proxy, requests, outcome), q) == if q in requests then Settled(outcome) else PlaceOf(proxy, q)
  {
  }

  lemma StartMoves(g: State, r: RequestId, q: RequestId)
    requires ProxyOk(g.proxy, g.leases)
    ensures PlaceOf(StartStreaming(g, r).proxy, q) ==
            if q == r && r in g.proxy.pending then Streaming(g.proxy.pending[r]) else PlaceOf(g.proxy, q)
  {
  }

  /** The requests of b, waiting for a head or for the rest. */
  lemma LossMoves(g: State, b: BackendId, exclude: set<PeerId>, q: RequestId)
    requires ProxyOk(g.proxy, g.leases)
    ensures PlaceOf(DropBackend(g, b, exclude).proxy, q) ==
            if PlaceOf(g.proxy, q) == Pending(b) || PlaceOf(g.proxy, q) == Streaming(b) then Settled(BackendGone)
            else PlaceOf(g.proxy, q)
  {
    hide DropBackend;
    DropBackendParts(g, b, exclude);
    SettleMoves(g.proxy, g.leases, Requests(g.proxy.pending, b) + Requests(g.proxy.streaming, b), BackendGone, q);
  }

  lemma DisconnectMoves(g: State, p: PeerId, q: RequestId)
    requires Inv(g)
    ensures PlaceOf(Disconnect(g, p).proxy, q) == Moves(g, EvDisconnect(p), q, PlaceOf(g.proxy, q))
  {
    hide Mirrored, Counted, LeasesOk, GrantsOk, IdentitiesOk, LogsOk, DropBackend, DropPeer, PlaceOf, IsOwner, Owner;
    var place := PlaceOf(g.proxy, q);
    if (place.Pending? || place.Streaming?) && place.b in g.leases { LeaseHolder(g, place.b, p); }
    if p in g.peers {
      if IsOwner(g.peers, g.leases, p) {
        var b := OwnedBy(g, p);
        OwnerGrant(g, p, b);
        OwnedLeased(g, p, b);
        DropBackendParts(g, b, {p});
        ResubscribeOpen(g.peers, b, p);
        LossMoves(g, b, {p}, q);
        DropPeerParts(DropBackend(g, b, {p}), p, Some(p));
      } else {
        DropPeerParts(g, p, Some(p));
      }
    }
  }

  lemma OwnedLeased(g: State, p: PeerId, b: BackendId)
    requires IsOwner(g.peers, g.leases, p) && OwnedBy(g, p) == b
    ensures b in g.leases && g.leases[b].owner == p
  {
  }

  lemma ExpireMoves(g: State, b: BackendId, now: Time, q: RequestId)
    requires Inv(g)
    ensures PlaceOf(Expire(g, b, now).proxy, q) == Moves(g, EvExpire(b, now), q, PlaceOf(g.proxy, q))
  {
    hide Mirrored, Counted, LeasesOk, GrantsOk, IdentitiesOk, LogsOk, DropBackend, DropPeer, PlaceOf, IsOwner, Owner;
    if RunsOut(g, b, now) {
      var p := g.leases[b].owner;
      LeaseHolder(g, b, p);
      DropBackendParts(g, b, {});
      ResubscribeOpen(g.peers, b, p);
      LossMoves(g, b, {}, q);
      var g1 := DropBackend(g, b, {});
      DropPeerParts(g1.(peers := ClearGrant(g1.peers, p)), p, None);
    }
  }

  lemma PendingMoves(g: State, r: RequestId, outcome: Outcome, q: RequestId)
    requires ProxyOk(g.proxy, g.leases)
    ensures PlaceOf(SettlePending(g, r, outcome).proxy, q) ==
            Moves(g, EvProxyPending(r, outcome), q, PlaceOf(g.proxy, q))
  {
    hide Settle;
    if r in g.proxy.pending { SettleMoves(g.proxy, g.leases, {r}, outcome, q); }
  }

  lemma StreamingMoves(g: State, r: RequestId, outcome: Outcome, q: RequestId)
    requires ProxyOk(g.proxy, g.leases)
    ensures PlaceOf(SettleStreaming(g, r, outcome).proxy, q) ==
            Moves(g, EvProxyStreaming(r, outcome), q, PlaceOf(g.proxy, q))
  {
    hide Settle;
    if r in g.proxy.streaming { SettleMoves(g.proxy, g.leases, {r}, outcome, q); }
  }

  lemma ProxyMoved(g: State, ev: Event, q: RequestId)
    requires ProxyOk(g.proxy, g.leases) && Enabled(g, ev)
    requires ev.EvProxyIssue? || ev.EvProxyPending? || ev.EvProxyStart? || ev.EvProxyStreaming?
    ensures PlaceOf(Step(g, ev).proxy, q) == Moves(g, ev, q, PlaceOf(g.proxy, q))
  {
    hide Issue, Owner, StartStreaming, SettlePending, SettleStreaming;
    match ev
    case EvProxyIssue(r, b) => IssueMoves(g, r, b, q);
    case EvProxyPending(r, outcome) => PendingMoves(g, r, outcome, q);
    case EvProxyStart(r) => StartMoves(g, r, q);
    case EvProxyStreaming(r, outcome) => StreamingMoves(g, r, outcome, q);
  }

  /**
   * Where a request is after an event: issued to a connected owner, it waits until it is answered or timed out, its head
   * arrives, or its backend's owner is lost; streaming, until it completes, times out, its client leaves or the owner is
   * lost; how it ended never changes.
   */
  lemma RequestMoves(g: State, ev: Event, r: RequestId)
    requires Inv(g) && Enabled(g, ev)
    ensures PlaceOf(Step(g, ev).proxy, r) == Moves(g, ev, r, PlaceOf(g.proxy, r))
  {
    hide Mirrored, Counted, LeasesOk, GrantsOk, IdentitiesOk, LogsOk, Step, Enabled, PlaceOf, Moves;
    match ev
    case EvDisconnect(p) => DisconnectMoves(g, p, r); StepOfDeparture(g, ev);
    case EvExpire(b, now) => ExpireMoves(g, b, now, r); StepOfDeparture(g, ev);
    case _ =>
      if TouchesProxy(ev) {
        ProxyMoved(g, ev, r);
      } else {
        QuietStep(g, ev);
        QuietMoves(g, ev, r);
      }
  }

  lemma StepOfDeparture(g: State, ev: Event)
    ensures ev.EvDisconnect? ==> Step(g, ev) == Disconnect(g, ev.p)
    ensures ev.EvExpire? ==> Step(g, ev) == Expire(g, ev.b, ev.now)
  {
  }

  lemma QuietMoves(g: State, ev: Event, r: RequestId)
    requires !TouchesProxy(ev)
    ensures Moves(g, ev, r, PlaceOf(g.proxy, r)) == PlaceOf(g.proxy, r)
  {
  }

  /** A waiting request leaves its table exactly with one of these events. */
  lemma WaitingEndsIff(g: State, ev: Event, r: RequestId)
    requires Inv(g) && Enabled(g, ev)
    ensures r in g.proxy.pending ==>
              (r !in Step(g, ev).proxy.pending <==>
                 (ev.EvProxyPending? && ev.r == r) || ev == EvProxyStart(r) || Abandons(g, ev, g.proxy.pending[r]))
    ensures r in g.proxy.streaming ==>
              (r !in Step(g, ev).proxy.streaming <==>
                 (ev.EvProxyStreaming? && ev.r == r) || Abandons(g, ev, g.proxy.streaming[r]))
  {
    hide Mirrored, Counted, LeasesOk, GrantsOk, IdentitiesOk, LogsOk, Step, Enabled, EndsLease;
    RequestMoves(g, ev, r);
    StepKeepsInv(g, ev);
  }

  // ---------------------------------------------------------------- over runs

  /** Where a run moves a request. */
  ghost function MovesOver(g: State, events: seq<Event>, r: RequestId, place: Place): Place
    decreases |events|
  {
    if events == [] then place else MovesOver(Step(g, events[0]), events[1..], r, Moves(g, events[0], r, place))
  }

  lemma {:induction false} RunMoves(g: State, events: seq<Event>, r: RequestId)
    requires Inv(g) && AllEnabled(g, events)
    ensures PlaceOf(RunFrom(g, events).proxy, r) == MovesOver(g, events, r, PlaceOf(g.proxy, r))
    decreases |events|
  {
    hide Inv, Step, Enabled, PlaceOf, Moves;
    if events != [] {
      RequestMoves(g, events[0], r);
      StepKeepsInv(g, events[0]);
      RunMoves(Step(g, events[0]), events[1..], r);
    }
  }

  /** No event of the run answers r, times it out, or takes its backend's owner away. */
  ghost predicate LeftAlone(g: State, events: seq<Event>, r: RequestId, b: BackendId)
    decreases |events|
  {
    events == [] ||
    (&& !((events[0].EvProxyPending? || events[0].EvProxyStart?) && events[0].r == r)
     && !Abandons(g, events[0], b)
     && LeftAlone(Step(g, events[0]), events[1..], r, b))
  }

  /** A request waits for its answer at the end of a run exactly when nothing in the run ended its wait. */
  lemma {:induction false} WaitsIff(g: State, events: seq<Event>, r: RequestId)
    requires Inv(g) && AllEnabled(g, events) && r in g.proxy.pending
    ensures r in RunFrom(g, events).proxy.pending <==> LeftAlone(g, events, r, g.proxy.pending[r])
    decreases |events|
  {
    hide Inv, Step, Enabled, Abandons;
    if events != [] {
      var g' := Step(g, events[0]);
      WaitingEndsIff(g, events[0], r);
      RequestMoves(g, events[0], r);
      StepKeepsInv(g, events[0]);
      if r in g'.proxy.pending { WaitsIff(g', events[1..], r); } else { NeverWaitsAgain(g', events[1..], r); }
    }
  }

  lemma NeverWaitsAgain(g: State, events: seq<Event>, r: RequestId)
    requires Inv(g) && AllEnabled(g, events) && PlaceOf(g.proxy, r) != Unissued && r !in g.proxy.pending
    ensures r !in RunFrom(g, events).proxy.pending
  {
    hide Inv;
    RunConservesRequests(g, events, r);
  }
}
