/** The gateway's handlers as methods over its tables: gateway/src/server.ts. */
module GatewayServing {
  import opened Options
  import opened Storage
  import opened Gateway
  import opened GatewayInvariants
  import opened GatewaySteps
  import opened GatewayRuns
  import opened GatewayTables

  // ---------------------------------------------------------------- sending one by one

  lemma DeliverNone(sent: Sent, peers: Peers, m: Msg)
    ensures Deliver(sent, peers, {}, m) == sent
  {
  }

  lemma DeliverNext(sent: Sent, peers: Peers, done: set<PeerId>, q: PeerId, m: Msg)
    requires q !in done
    ensures Deliver(Deliver(sent, peers, done, m), peers, {q}, m) == Deliver(sent, peers, done + {q}, m)
  {
  }

  lemma PutTwice(subscriptions: Subscriptions, b: BackendId, s: set<PeerId>, t: set<PeerId>)
    ensures Put(Put(subscriptions, b, s), b, t) == Put(subscriptions, b, t)
  {
  }

  lemma ResubscribeTwice(peers: Peers, b: BackendId, s: set<PeerId>, t: set<PeerId>)
    ensures Resubscribe(Resubscribe(peers, b, s), b, t) == Resubscribe(peers, b, t)
  {
    forall q | q in peers ensures Resubscribe(Resubscribe(peers, b, s), b, t)[q] == Resubscribe(peers, b, t)[q] {
      var mine := peers[q].subscribed;
      assert mine + {b} + {b} == mine - {b} + {b} == mine + {b};
      assert mine + {b} - {b} == mine - {b} - {b} == mine - {b};
    }
  }

  lemma CountTwice(demand: Demands, b: BackendId, s: set<PeerId>, t: set<PeerId>)
    ensures Count(Count(demand, b, s), b, t) == Count(demand, b, t)
  {
  }

  /** The subscribers of b are still s, and s is what remains to be removed. */
  lemma SubscribersTwice(subscriptions: Subscriptions, peers: Peers, demand: Demands,
                         subscriptions1: Subscriptions, peers1: Peers, demand1: Demands,
                         subscriptions2: Subscriptions, peers2: Peers, demand2: Demands,
                         b: BackendId, s: set<PeerId>, t: set<PeerId>)
    requires AreSubscribers(subscriptions, peers, demand, subscriptions1, peers1, demand1, b, s)
    requires AreSubscribers(subscriptions1, peers1, demand1, subscriptions2, peers2, demand2, b, t)
    ensures AreSubscribers(subscriptions, peers, demand, subscriptions2, peers2, demand2, b, t)
  {
    PutTwice(subscriptions, b, s, t);
    ResubscribeTwice(peers, b, s, t);
    CountTwice(demand, b, s, t);
  }

  lemma SubscribersSame(subscriptions: Subscriptions, peers: Peers, demand: Demands, b: BackendId)
    requires SubscriptionsOk(subscriptions, peers, demand)
    ensures AreSubscribers(subscriptions, peers, demand, subscriptions, peers, demand, b, Subs(subscriptions, b))
  {
    forall q | q in peers ensures Resubscribe(peers, b, Subs(subscriptions, b))[q] == peers[q] {
      assert q in Subs(subscriptions, b) <==> b in peers[q].subscribed;
    }
  }

  // ---------------------------------------------------------------- telling owners one by one

  /** Each leased backend's connected owner carries that backend. */
  ghost predicate OwnersCarry(peers: Peers, leases: Leases) {
    forall b :: b in leases && leases[b].owner in peers ==>
      peers[leases[b].owner].grant == Some(Grant(b, leases[b].epoch))
  }

  /** What findBackendPeer's answer is told about a departed subscriber of b. */
  function NoticedOne(sent: Sent, peers: Peers, leases: Leases, demand: Demands, b: BackendId,
                      departed: Option<PeerId>): Sent {
    match Owner(peers, leases, b)
    case None => sent
    case Some(owner) =>
      var sent1 := if departed.Some? then Deliver(sent, peers, {owner}, SubscriberDisconnected(b, departed.value)) else sent;
      if IsActive(demand, b) then sent1 else Deliver(sent1, peers, {owner}, StreamDemand(false))
  }

  lemma ToldNext(peers: Peers, leases: Leases, done: set<BackendId>, b: BackendId, q: PeerId)
    requires OwnersCarry(peers, leases) && b !in done
    ensures Told(peers, leases, done + {b}, q) <==>
            Told(peers, leases, done, q) || (Owner(peers, leases, b) == Some(q) && IsOpen(peers, q))
    ensures Owner(peers, leases, b) == Some(q) ==> !Told(peers, leases, done, q) && peers[q].grant == Some(Grant(b, leases[b].epoch))
  {
  }

  lemma NoticedNext(sent: Sent, peers: Peers, leases: Leases, demand: Demands, done: set<BackendId>, b: BackendId,
                    departed: Option<PeerId>)
    requires OwnersCarry(peers, leases) && b !in done
    ensures NoticedOne(Noticed(sent, peers, leases, demand, done, departed), peers, leases, demand, b, departed) ==
            Noticed(sent, peers, leases, demand, done + {b}, departed)
  {
    hide OwnersCarry, Told, Owner, IsActive, Deliver, DepartureNotice;
    var before := Noticed(sent, peers, leases, demand, done, departed);
    var after := NoticedOne(before, peers, leases, demand, b, departed);
    forall q
      ensures Lookup(after, q) == Lookup(Noticed(sent, peers, leases, demand, done + {b}, departed), q)
    {
      ToldNext(peers, leases, done, b, q);
      NoticedOneAt(before, peers, leases, demand, b, departed, q);
    }
    SameLookups(after, Noticed(sent, peers, leases, demand, done + {b}, departed));
  }

  lemma NoticedOneAt(sent: Sent, peers: Peers, leases: Leases, demand: Demands, b: BackendId, departed: Option<PeerId>,
                     q: PeerId)
    ensures var sent' := NoticedOne(sent, peers, leases, demand, b, departed);
            Lookup(sent', q) == if q !in sent then None
                                else if Owner(peers, leases, b) == Some(q) && IsOpen(peers, q)
                                then Some(sent[q] + DepartureNotice(demand, b, departed)) else Some(sent[q])
  {
    var y := [StreamDemand(false)];
    var none: seq<Msg> := [];
    assert none + y == y && none + none == none;
    if departed.Some? {
      var x := [SubscriberDisconnected(b, departed.value)];
      assert x + none == x;
      if q in sent { assert sent[q] + x + y == sent[q] + (x + y); }
    }
    if q in sent { assert sent[q] + none == sent[q]; }
  }

  // ---------------------------------------------------------------- the server

  /** `sent`, `granted` and `settled` only record what has happened. */
  class GatewayServer {
    const state: GatewayState
    const storage: GatewayStorage
    var pendingHttpRequests: map<RequestId, BackendId>
    var pendingStreamingRequests: map<RequestId, BackendId>
    ghost var settled: map<RequestId, Outcome>
    ghost var sent: Sent
    ghost var granted: Granted

    ghost function View(): State
      reads this, state, storage
    {
      State(state.peers, state.registry, state.leases, state.subscriptions, state.streamDemand,
            Proxy(pendingHttpRequests, pendingStreamingRequests, settled), storage.View(), sent, granted)
    }

    ghost predicate Valid()
      reads this, state, storage
    {
      Inv(View())
    }

    constructor (storage: GatewayStorage)
      requires Storage.Valid(storage.View())
      ensures this.storage == storage && fresh(state)
      ensures Valid() && View() == Started(storage.View())
    {
      state := new GatewayState();
      this.storage := storage;
      pendingHttpRequests, pendingStreamingRequests, settled, sent, granted := map[], map[], map[], map[], map[];
      new;
      StartedOk(storage.View());
    }

    /** sendToWs: nothing is written to a socket that is not open. */
    method SendToWs(p: PeerId, m: Msg)
      modifies this`sent
      ensures sent == Deliver(old(sent), state.peers, {p}, m)
    {
      if p in sent && IsOpen(state.peers, p) {
        sent := sent[p := sent[p] + [m]];
      }
    }

    /** A loop that sends one message to every target it meets. */
    method SendToEach(targets: set<PeerId>, m: Msg)
      modifies this`sent
      ensures sent == Deliver(old(sent), state.peers, targets, m)
    {
      var order := IterationOrder(targets);
      ghost var sent0, peers0 := sent, state.peers;
      DeliverNone(sent0, peers0, m);
      assert Elements(order[..0]) == {};
      hide *;
      var i := 0;
      while i < |order|
        invariant 0 <= i <= |order|
        invariant sent == Deliver(sent0, peers0, Elements(order[..i]), m)
      {
        VisitedAt(order, targets, i);
        DeliverNext(sent0, peers0, Elements(order[..i]), order[i], m);
        SendToWs(order[i], m);
        i := i + 1;
      }
      VisitedAll(order, targets);
    }

    method BroadcastRegistrySnapshot(exclude: set<PeerId>)
      modifies this`sent
      ensures View() == Broadcast(old(View()), exclude)
    {
      SendToEach(state.peers.Keys - exclude, RegistrySnapshot(state.registry));
    }

    method NotifySubscribersBackendGone(b: BackendId, reason: CloseReason)
      requires state.Indexed()
      modifies this`sent, state
      ensures View() == NotifyGone(old(View()), b, reason)
    {
      var subscribers := if b in state.subscriptions then state.subscriptions[b] else {};
      SendToEach(subscribers, BackendUnsubscribed(b, reason));
      RemoveEach(b, subscribers);
    }

    /** The second loop of notifySubscribersBackendGone. */
    method RemoveEach(b: BackendId, subscribers: set<PeerId>)
      requires state.Indexed() && subscribers == Subs(state.subscriptions, b)
      modifies state`subscriptions, state`peers, state`streamDemand
      ensures AreSubscribers(old(state.subscriptions), old(state.peers), old(state.streamDemand),
                             state.subscriptions, state.peers, state.streamDemand, b, {})
    {
      var order := IterationOrder(subscribers);
      ghost var subscriptions0, peers0, demand0 := state.subscriptions, state.peers, state.streamDemand;
      SubscribersSame(subscriptions0, peers0, demand0, b);
      assert Elements(order[..0]) == {} && subscribers - {} == subscribers;
      hide AreSubscribers, SubscriptionsOk, Subs, Visits, Elements;
      var i := 0;
      while i < |order|
        invariant 0 <= i <= |order|
        invariant SubscriptionsOk(state.subscriptions, state.peers, state.streamDemand)
        invariant Subs(state.subscriptions, b) == subscribers - Elements(order[..i])
        invariant AreSubscribers(subscriptions0, peers0, demand0, state.subscriptions, state.peers, state.streamDemand,
                                 b, subscribers - Elements(order[..i]))
      {
        VisitedAt(order, subscribers, i);
        ghost var subscriptions1, peers1, demand1 := state.subscriptions, state.peers, state.streamDemand;
        var _ := state.RemoveSubscription(b, order[i]);
        OneRemoved(subscriptions0, peers0, demand0, subscriptions1, peers1, demand1,
                   state.subscriptions, state.peers, state.streamDemand, b, subscribers, order, i);
        i := i + 1;
      }
      VisitedAll(order, subscribers);
      assert subscribers - subscribers == {};
    }

    /** A loop over one of the two pending tables each. */
    method RejectPendingProxyRequests(b: BackendId)
      requires pendingHttpRequests.Keys !! pendingStreamingRequests.Keys
      modifies this`pendingHttpRequests, this`pendingStreamingRequests, this`settled
      ensures View() == RejectPending(old(View()), b)
    {
      ghost var pending0, streaming0, settled0 := pendingHttpRequests, pendingStreamingRequests, settled;
      RejectedNone(pending0, settled0, b);
      RejectedNone(streaming0, settled0 + Gone(Requests(pending0, b)), b);
      BothRejected(pending0, streaming0, settled0, b);
      hide Requests, Gone, Settle;
      var rest := pendingHttpRequests.Keys;
      while rest != {}
        invariant rest <= pending0.Keys && pendingStreamingRequests == streaming0
        invariant pendingHttpRequests == pending0 - (Requests(pending0, b) - rest)
        invariant settled == settled0 + Gone(Requests(pending0, b) - rest)
        decreases rest
      {
        var r :| r in rest;
        RejectedNext(pending0, settled0, b, rest, r);
        if pendingHttpRequests[r] == b {
          pendingHttpRequests := pendingHttpRequests - {r};
          settled := settled[r := BackendGone];
        }
        rest := rest - {r};
      }
      assert Requests(pending0, b) - {} == Requests(pending0, b);
      rest := pendingStreamingRequests.Keys;
      while rest != {}
        invariant rest <= streaming0.Keys && pendingHttpRequests == pending0 - Requests(pending0, b)
        invariant pendingStreamingRequests == streaming0 - (Requests(streaming0, b) - rest)
        invariant settled == settled0 + Gone(Requests(pending0, b)) + Gone(Requests(streaming0, b) - rest)
        decreases rest
      {
        var r :| r in rest;
        RejectedNext(streaming0, settled0 + Gone(Requests(pending0, b)), b, rest, r);
        if pendingStreamingRequests[r] == b {
          pendingStreamingRequests := pendingStreamingRequests - {r};
          settled := settled[r := BackendGone];
        }
        rest := rest - {r};
      }
      assert Requests(streaming0, b) - {} == Requests(streaming0, b);
    }

    /** A loop over the backends a departed peer was subscribed to. */
    method NotifyAffected(affected: seq<BackendId>, departed: Option<PeerId>, ghost mine: set<BackendId>)
      requires Visits(affected, mine) && OwnersCarry(state.peers, state.leases)
      modifies this`sent
      ensures View() == NotifyOwners(old(View()), mine, departed)
    {
      ghost var sent0, peers, leases, demand := sent, state.peers, state.leases, state.streamDemand;
      hide Noticed, NoticedUpTo, NoticedOne, OwnersCarry, Visits;
      NoticedNone(sent0, peers, leases, demand, affected, departed);
      var i := 0;
      while i < |affected|
        invariant 0 <= i <= |affected|
        invariant NoticedUpTo(sent0, peers, leases, demand, affected, i, departed, sent)
      {
        NoticedRound(sent0, peers, leases, demand, affected, mine, i, departed, sent);
        NotifyOwnerOf(affected[i], departed);
        i := i + 1;
      }
      NoticedAll(sent0, peers, leases, demand, affected, mine, departed, sent);
    }

    /** One round of that loop. */
    method NotifyOwnerOf(b: BackendId, departed: Option<PeerId>)
      modifies this`sent
      ensures sent == NoticedOne(old(sent), state.peers, state.leases, state.streamDemand, b, departed)
    {
      hide Deliver;
      var bp := Owner(state.peers, state.leases, b);
      if bp.Some? {
        if departed.Some? {
          SendToWs(bp.value, SubscriberDisconnected(b, departed.value));
        }
        if !IsActive(state.streamDemand, b) {
          SendToWs(bp.value, StreamDemand(false));
        }
      }
    }

    /** What disconnecting and expiring do to the backend of the lost peer. */
    method RemoveBackend(b: BackendId, exclude: set<PeerId>)
      requires state.Indexed() && pendingHttpRequests.Keys !! pendingStreamingRequests.Keys
      modifies this, state
      ensures View() == DropBackend(old(View()), b, exclude)
    {
      hide Deliver, Put, Count, Resubscribe, Settle, Requests;
      RejectPendingProxyRequests(b);
      NotifySubscribersBackendGone(b, BackendOffline);
      state.registry := state.registry - {b};
      BroadcastRegistrySnapshot(exclude);
      state.leases := state.leases - {b};
      state.streamDemand := state.streamDemand - {b};
    }

    /** What disconnecting and expiring do to the lost peer itself. */
    method RemoveLostPeer(p: PeerId, departed: Option<PeerId>)
      requires state.Indexed() && p in state.peers && OwnersCarry(state.peers, state.leases)
      modifies this`sent, state
      ensures View() == DropPeer(old(View()), p, departed)
    {
      hide Unlist, Recount, NotifyOwners, OwnersCarry, Visits;
      ghost var peers, subscriptions, demand := state.peers, state.subscriptions, state.streamDemand;
      var affected := state.RemoveAllSubscriptions(p);
      Emptied(subscriptions, peers, demand, state.leases, p);
      NotifyAffected(affected, departed, peers[p].subscribed);
      NotifyKeeps(old(View()), p, departed);
      state.RemovePeer(p);
    }

    // -------------------------------------------------------------- connecting and leaving

    /** addPeer and the peer_ready answer. */
    method AddPeer(p: PeerId, grant: Option<Grant>)
      modifies this`sent, state
      ensures View() == WithPeer(old(View()), p, grant)
    {
      hide Deliver;
      state.peers := state.peers[p := Peer(true, grant, {})];
      sent := sent[p := []];
      SendToWs(p, PeerReady(p, grant, state.registry));
    }

    method HandlePeerHello(p: PeerId)
      requires Valid() && p !in sent
      modifies this`sent, state
      ensures Valid() && View() == Step(old(View()), EvHelloClient(p))
    {
      hide Inv, WithPeer;
      StepKeepsInv(View(), EvHelloClient(p));
      AddPeer(p, None);
    }

    /** The backend identifier of an instance and the epoch of its new lease. */
    method Identify(h: BackendHello) returns (b: BackendId, epoch: Epoch)
      modifies storage
      ensures b == ClaimedBackend(old(View()), h) && epoch == old(View()).identities.maxEpoch + 1
      ensures View() == Identified(old(View()), h)
    {
      hide BackendFor;
      b := storage.GetOrCreateBackendIdByInstance(h.instance, h.device, h.channel, h.generated);
      epoch := storage.AllocateEpoch();
    }

    /** A lease of another peer, or of another epoch, is taken over. */
    method TakeOver(b: BackendId, p: PeerId, epoch: Epoch)
      requires state.Indexed() && (b in state.leases ==> state.leases[b].owner != p || state.leases[b].epoch != epoch)
      modifies this`sent, state
      ensures View() == Vacate(old(View()), b)
    {
      hide OwnerReplaced;
      if b in state.leases && (state.leases[b].owner != p || state.leases[b].epoch != epoch) {
        HandleBackendOwnerReplaced(b, state.leases[b].owner);
      }
    }

    /** The part of handlePeerHello that makes the peer the owner of its backend. */
    method RegisterBackend(p: PeerId, h: BackendHello, now: Time) returns (b: BackendId, epoch: Epoch)
      requires state.Indexed()
      requires forall c :: c in state.leases ==> state.leases[c].owner != p
      modifies this`sent, this`granted, state, storage
      ensures b == ClaimedBackend(old(View()), h) && epoch == old(View()).identities.maxEpoch + 1
      ensures View() == Register(old(View()), p, h, now)
    {
      RegisterInOrder(View(), p, h, now);
      IdentifiedElsewhere(View(), h);
      hide Register, Vacate, Enrolled, Identified, ClaimedBackend, SubscriptionsOk;
      b, epoch := Identify(h);
      TakeOver(b, p, epoch);
      Enroll(b, p, h, epoch, now);
    }

    /** handlePeerHello of a peer that also serves a backend; `h.generated` is the random identifier. */
    method HandleBackendHello(p: PeerId, h: BackendHello, now: Time)
      requires Valid() && p !in sent && h.generated !in Used(storage.View())
      modifies this, state, storage
      ensures Valid() && View() == Step(old(View()), EvHelloBackend(p, h, now))
    {
      hide Inv, Step, Enabled, Register, WithPeer, Broadcast, ClaimedBackend, SubscriptionsOk;
      Greeting(View(), p, h, now);
      var b, epoch := RegisterBackend(p, h, now);
      AddPeer(p, Some(Grant(b, epoch)));
      BroadcastRegistrySnapshot({p});
    }

    /** The lease, the registry entry and the demand of a backend that has just said hello. */
    method Enroll(b: BackendId, p: PeerId, h: BackendHello, epoch: Epoch, now: Time)
      modifies this`granted, state
      ensures View() == Enrolled(old(View()), b, p, h, epoch, now)
    {
      state.leases := state.leases[b := Lease(epoch, p, now)];
      state.registry := state.registry[b := Presence(b, h.instance, h.visible, h.capabilities, epoch)];
      state.streamDemand := state.streamDemand[b := Demand(0, false)];
      granted := granted[epoch := (b, p)];
    }

    method HandleBackendOwnerReplaced(b: BackendId, previous: PeerId)
      requires state.Indexed()
      modifies this`sent, state
      ensures View() == OwnerReplaced(old(View()), b, previous)
    {
      hide NotifyGone;
      NotifySubscribersBackendGone(b, EpochChanged);
      state.leases := state.leases - {b};
      if previous in state.peers {
        state.peers := state.peers[previous := state.peers[previous].(grant := None, open := false)];
      }
    }

    method HandlePeerDisconnect(p: PeerId)
      requires Valid()
      modifies this, state
      ensures Valid() && View() == Step(old(View()), EvDisconnect(p))
    {
      hide Inv, DropBackend, DropPeer, OwnersCarry, IsOwner, SubscriptionsOk;
      StepKeepsInv(View(), EvDisconnect(p));
      ValidParts(View());
      if p !in state.peers { return; }
      if IsOwner(state.peers, state.leases, p) {
        OwnedLease(state.peers, state.leases, p);
        DropKeepsParts(View(), state.peers[p].grant.value.backendId, {p});
        RemoveBackend(state.peers[p].grant.value.backendId, {p});
      }
      RemoveLostPeer(p, Some(p));
    }

    /** The end of a lease's owner: its session loses its backend, then goes away. */
    method RemoveFormerOwner(p: PeerId)
      requires p in state.peers
      requires SubscriptionsOk(state.subscriptions, ClearGrant(state.peers, p), state.streamDemand)
      requires OwnersCarry(ClearGrant(state.peers, p), state.leases)
      modifies this`sent, state
      ensures View() == DropPeer(old(View()).(peers := ClearGrant(old(View()).peers, p)), p, None)
    {
      hide DropPeer, OwnersCarry, SubscriptionsOk;
      state.peers := state.peers[p := state.peers[p].(grant := None)];
      RemoveLostPeer(p, None);
    }

    /** `now` is the lease timer's. */
    method HandleBackendLeaseExpired(b: BackendId, now: Time)
      requires Valid()
      modifies this, state
      ensures Valid() && View() == Step(old(View()), EvExpire(b, now))
    {
      hide Inv, DropBackend, DropPeer, OwnersCarry, SubscriptionsOk, Step, Expire, ClearGrant;
      Expiring(View(), b, now);
      ValidParts(View());
      if b !in state.leases || now - state.leases[b].lastHeartbeatAt <= LEASE_TTL_MS { return; }
      var p := state.leases[b].owner;
      Ungranted(View(), b);
      RemoveBackend(b, {});
      if p in state.peers {
        RemoveFormerOwner(p);
      }
    }

    /** The socket leaves the OPEN state before the server hears of it. */
    method LoseSocket(p: PeerId)
      requires Valid()
      modifies state
      ensures Valid() && View() == Step(old(View()), EvCloseSocket(p))
    {
      hide Inv;
      StepKeepsInv(View(), EvCloseSocket(p));
      if p in state.peers {
        state.peers := state.peers[p := state.peers[p].(open := false)];
      }
    }

    // -------------------------------------------------------------- messages from backends

    method HandleBackendHeartbeat(p: PeerId, epoch: Epoch, now: Time)
      requires Valid() && p in state.peers
      modifies this`sent, state
      ensures Valid() && View() == Step(old(View()), EvHeartbeat(p, epoch, now))
    {
      hide Inv, Deliver;
      StepKeepsInv(View(), EvHeartbeat(p, epoch, now));
      if !IsOwner(state.peers, state.leases, p) || state.peers[p].grant.value.epoch != epoch { return; }
      var b := state.peers[p].grant.value.backendId;
      state.leases := state.leases[b := state.leases[b].(lastHeartbeatAt := now)];
      SendToWs(p, HeartbeatAck(epoch, IsActive(state.streamDemand, b)));
    }

    /** The six broadcast relays; `claimed` is the message's own backendId where the handler reads it. */
    method HandleRelay(p: PeerId, kind: RelayKind, claimed: BackendId, payload: Payload)
      requires Valid() && p in state.peers
      modifies this`sent
      ensures Valid() && View() == Step(old(View()), EvRelay(p, kind, claimed, payload))
    {
      hide Inv, Deliver, Subs;
      StepKeepsInv(View(), EvRelay(p, kind, claimed, payload));
      if !IsOwner(state.peers, state.leases, p) { return; }
      var b := state.peers[p].grant.value.backendId;
      if ChecksClaim(kind) && claimed != b { return; }
      SendToEach(Subs(state.subscriptions, b), Relayed(b, kind, payload, p));
    }

    /** handleBackendServerMessage with a target. */
    method HandleTargetedMessage(p: PeerId, claimed: BackendId, target: PeerId, payload: Payload)
      requires Valid() && p in state.peers
      modifies this`sent
      ensures Valid() && View() == Step(old(View()), EvTargeted(p, claimed, target, payload))
    {
      hide Inv, Deliver;
      StepKeepsInv(View(), EvTargeted(p, claimed, target, payload));
      if !IsOwner(state.peers, state.leases, p) || claimed != state.peers[p].grant.value.backendId { return; }
      SendToWs(target, TargetedMessage(claimed, payload));
    }

    // -------------------------------------------------------------- messages from clients

    method HandleRequestRegistrySnapshot(p: PeerId)
      requires Valid() && p in state.peers
      modifies this`sent
      ensures Valid() && View() == Step(old(View()), EvRequestRegistry(p))
    {
      hide Inv, Deliver;
      StepKeepsInv(View(), EvRequestRegistry(p));
      SendToWs(p, RegistrySnapshot(state.registry));
    }

    method HandleRequestBackendDataSnapshot(p: PeerId, b: BackendId)
      requires Valid() && p in state.peers
      modifies this`sent
      ensures Valid() && View() == Step(old(View()), EvRequestSnapshot(p, b))
    {
      hide Inv, Deliver, Owner;
      StepKeepsInv(View(), EvRequestSnapshot(p, b));
      var bp := Owner(state.peers, state.leases, b);
      if bp.None? {
        SendToWs(p, GatewayError(OfflineError));
      } else {
        SendToWs(bp.value, RequestDataSnapshot(b, None));
      }
    }

    /** handleBackendClientMessage and handleCatchUpSessionContent. */
    method ForwardToBackend(p: PeerId, b: BackendId, m: Msg)
      modifies this`sent
      ensures View() == Forward(old(View()), p, b, m)
    {
      hide Deliver, Owner, Subs;
      if p !in Subs(state.subscriptions, b) {
        SendToWs(p, GatewayError(NotSubscribedError));
        return;
      }
      var bp := Owner(state.peers, state.leases, b);
      if bp.None? {
        SendToWs(p, GatewayError(OfflineError));
      } else {
        SendToWs(bp.value, m);
      }
    }

    method HandleBackendClientMessage(p: PeerId, b: BackendId, payload: Payload)
      requires Valid() && p in state.peers
      modifies this`sent
      ensures Valid() && View() == Step(old(View()), EvClientMessage(p, b, payload))
    {
      hide Inv, Forward;
      StepKeepsInv(View(), EvClientMessage(p, b, payload));
      ForwardToBackend(p, b, ClientMessage(b, payload, p));
    }

    method HandleCatchUpSessionContent(p: PeerId, b: BackendId, payload: Payload)
      requires Valid() && p in state.peers
      modifies this`sent
      ensures Valid() && View() == Step(old(View()), EvCatchUp(p, b, payload))
    {
      hide Inv, Forward;
      StepKeepsInv(View(), EvCatchUp(p, b, payload));
      ForwardToBackend(p, b, CatchUp(b, payload));
    }

    method HandleSubscribeBackend(p: PeerId, b: BackendId)
      requires Valid() && p in state.peers
      modifies this`sent, state
      ensures Valid() && View() == Step(old(View()), EvSubscribe(p, b))
    {
      hide Inv, Subscribe, SubscriptionsOk, OwnersCarry;
      StepKeepsInv(View(), EvSubscribe(p, b));
      ValidParts(View());
      SubscribeTo(p, b);
    }

    method SubscribeTo(p: PeerId, b: BackendId)
      requires state.Indexed() && p in state.peers && state.streamDemand.Keys == state.leases.Keys
      modifies this`sent, state
      ensures View() == Subscribe(old(View()), p, b)
    {
      hide SubscriptionsOk, Deliver, Owner, Put, Count, Resubscribe;
      if b !in state.registry || b !in state.leases {
        SendToWs(p, GatewayError(OfflineError));
        return;
      }
      var presence, lease := state.registry[b], state.leases[b];
      var alreadySubscribed := b in state.peers[p].subscribed;
      var demandChanged := state.AddSubscription(b, p);
      if demandChanged {
        SendToOwner(b, StreamDemand(true));
      }
      SendToWs(p, BackendSubscribed(b, lease.epoch, presence.capabilities));
      if !alreadySubscribed {
        SendToOwner(b, RequestDataSnapshot(b, Some(p)));
      }
    }

    /** findBackendPeer, and a message to the peer it finds. */
    method SendToOwner(b: BackendId, m: Msg)
      modifies this`sent
      ensures View() == SendTo(old(View()), Owner(state.peers, state.leases, b), m)
    {
      hide Deliver, Owner;
      var bp := Owner(state.peers, state.leases, b);
      if bp.Some? {
        SendToWs(bp.value, m);
      }
    }

    method HandleUnsubscribeBackend(p: PeerId, b: BackendId)
      requires Valid() && p in state.peers
      modifies this`sent, state
      ensures Valid() && View() == Step(old(View()), EvUnsubscribe(p, b))
    {
      hide Inv, Unsubscribe, SubscriptionsOk, OwnersCarry;
      StepKeepsInv(View(), EvUnsubscribe(p, b));
      ValidParts(View());
      UnsubscribeFrom(p, b);
    }

    method UnsubscribeFrom(p: PeerId, b: BackendId)
      requires state.Indexed()
      modifies this`sent, state
      ensures View() == Unsubscribe(old(View()), p, b)
    {
      hide SubscriptionsOk, Deliver, Owner, Put, Count, Resubscribe;
      var demandChanged := state.RemoveSubscription(b, p);
      SendToWs(p, BackendUnsubscribed(b, ClientUnsubscribed));
      SendToOwner(b, SubscriberDisconnected(b, p));
      if demandChanged {
        SendToOwner(b, StreamDemand(false));
      }
    }

    // -------------------------------------------------------------- proxied requests

    /** A request enters the pending table and is passed to the backend's owner. */
    method IssueProxyRequest(r: RequestId, b: BackendId)
      requires Valid() && r !in pendingHttpRequests && r !in pendingStreamingRequests && r !in settled
      modifies this
      ensures Valid() && View() == Step(old(View()), EvProxyIssue(r, b))
    {
      hide Inv, Deliver, Owner;
      StepKeepsInv(View(), EvProxyIssue(r, b));
      var bp := Owner(state.peers, state.leases, b);
      if bp.None? { return; }
      pendingHttpRequests := pendingHttpRequests[r := b];
      SendToWs(bp.value, ProxyRequest(r));
    }

    /** A whole response or a timeout takes a request out of the first table. */
    method SettlePendingRequest(r: RequestId, outcome: Outcome)
      requires Valid() && LeavesPending(outcome)
      modifies this
      ensures Valid() && View() == Step(old(View()), EvProxyPending(r, outcome))
    {
      hide Inv, Settle, SubscriptionsOk, OwnersCarry;
      StepKeepsInv(View(), EvProxyPending(r, outcome));
      ValidParts(View());
      OneSettled(pendingHttpRequests, pendingStreamingRequests, settled, r, outcome);
      if r in pendingHttpRequests {
        pendingHttpRequests := pendingHttpRequests - {r};
        settled := settled[r := outcome];
      }
    }

    /** The head of a streamed response moves its request to the second table. */
    method HandleHttpProxyResponseStart(r: RequestId)
      requires Valid()
      modifies this
      ensures Valid() && View() == Step(old(View()), EvProxyStart(r))
    {
      hide Inv;
      StepKeepsInv(View(), EvProxyStart(r));
      if r !in pendingHttpRequests { return; }
      var b := pendingHttpRequests[r];
      pendingHttpRequests := pendingHttpRequests - {r};
      pendingStreamingRequests := pendingStreamingRequests[r := b];
    }

    /** The end of the stream, a timeout or the client's departure takes a request out of the second table. */
    method SettleStreamingRequest(r: RequestId, outcome: Outcome)
      requires Valid() && LeavesStreaming(outcome)
      modifies this
      ensures Valid() && View() == Step(old(View()), EvProxyStreaming(r, outcome))
    {
      hide Inv, Settle, SubscriptionsOk, OwnersCarry;
      StepKeepsInv(View(), EvProxyStreaming(r, outcome));
      ValidParts(View());
      OneSettled(pendingHttpRequests, pendingStreamingRequests, settled, r, outcome);
      if r in pendingStreamingRequests {
        pendingStreamingRequests := pendingStreamingRequests - {r};
        settled := settled[r := outcome];
      }
    }

    /** The periodic push of the registry to everyone. */
    method PollRegistry()
      requires Valid()
      modifies this`sent
      ensures Valid() && View() == Step(old(View()), EvPoll)
    {
      hide Inv, Broadcast;
      StepKeepsInv(View(), EvPoll);
      if state.peers != map[] {
        BroadcastRegistrySnapshot({});
      } else {
        NobodyToTell(View());
      }
    }
  }

  lemma OneSettled(pending: map<RequestId, BackendId>, streaming: map<RequestId, BackendId>, settled: map<RequestId,
                   Outcome>,
                   r: RequestId, outcome: Outcome)
    requires pending.Keys !! streaming.Keys
    ensures r in pending ==>
              Settle(Proxy(pending, streaming, settled), {r}, outcome) == Proxy(pending - {r}, streaming, settled[r := outcome])
    ensures r in streaming ==>
              Settle(Proxy(pending, streaming, settled), {r}, outcome) == Proxy(pending, streaming - {r}, settled[r := outcome])
  {
  }

  lemma NobodyToTell(g: State)
    requires g.peers == map[]
    ensures Broadcast(g, {}) == g
  {
  }

  /** sent' is what i rounds of the loop over `affected` make of sent. */
  ghost predicate NoticedUpTo(sent: Sent, peers: Peers, leases: Leases, demand: Demands, affected: seq<BackendId>, i: nat,
                              departed: Option<PeerId>, sent': Sent)
    requires i <= |affected|
  {
    sent' == Noticed(sent, peers, leases, demand, Elements(affected[..i]), departed)
  }

  lemma NoticedNone(sent: Sent, peers: Peers, leases: Leases, demand: Demands, affected: seq<BackendId>,
                    departed: Option<PeerId>)
    ensures NoticedUpTo(sent, peers, leases, demand, affected, 0, departed, sent)
  {
    assert Elements(affected[..0]) == {};
  }

  lemma NoticedRound(sent: Sent, peers: Peers, leases: Leases, demand: Demands, affected: seq<BackendId>,
                     mine: set<BackendId>, i: nat, departed: Option<PeerId>, sent': Sent)
    requires OwnersCarry(peers, leases) && Visits(affected, mine) && i < |affected|
    requires NoticedUpTo(sent, peers, leases, demand, affected, i, departed, sent')
    ensures NoticedUpTo(sent, peers, leases, demand, affected, i + 1, departed,
                        NoticedOne(sent', peers, leases, demand, affected[i], departed))
  {
    hide Noticed, NoticedOne, OwnersCarry, Visits, Elements;
    VisitedAt(affected, mine, i);
    NoticedNext(sent, peers, leases, demand, Elements(affected[..i]), affected[i], departed);
  }

  lemma NoticedAll(sent: Sent, peers: Peers, leases: Leases, demand: Demands, affected: seq<BackendId>,
                   mine: set<BackendId>, departed: Option<PeerId>, sent': Sent)
    requires Visits(affected, mine)
    requires NoticedUpTo(sent, peers, leases, demand, affected, |affected|, departed, sent')
    ensures sent' == Noticed(sent, peers, leases, demand, mine, departed)
  {
    hide Noticed, Visits, Elements;
    VisitedAll(affected, mine);
  }

  /** After its subscriptions are removed, a peer has none left to remove. */
  lemma Emptied(subscriptions: Subscriptions, peers: Peers, demand: Demands, leases: Leases, p: PeerId)
    requires SubscriptionsOk(subscriptions, peers, demand) && p in peers && OwnersCarry(peers, leases)
    ensures var peers' := peers[p := peers[p].(subscribed := {})];
            var subscriptions' := Unlist(subscriptions, p);
            var demand' := Recount(demand, subscriptions');
            && SubscriptionsOk(subscriptions', peers', demand')
            && Unlist(subscriptions', p) == subscriptions' && Recount(demand', subscriptions') == demand'
            && OwnersCarry(peers', leases)
  {
    var peers' := peers[p := peers[p].(subscribed := {})];
    var subscriptions' := Unlist(subscriptions, p);
    forall b, q ensures q in Subs(subscriptions', b) <==> q in peers' && b in peers'[q].subscribed {
      UnlistSubs(subscriptions, p, b);
      assert q in Subs(subscriptions, b) <==> q in peers && b in peers[q].subscribed;
    }
    UnlistCounted(subscriptions, demand, p);
    hide Mirrored, Counted;
    NothingToUnlist(subscriptions', peers', Recount(demand, subscriptions'), p);
  }

  lemma NotifyKeeps(g: State, p: PeerId, departed: Option<PeerId>)
    requires p in g.peers
    ensures var g1 := NotifyOwners(RemoveAll(g, p), g.peers[p].subscribed, departed);
            g1.peers == RemoveAll(g, p).peers && DropPeer(g, p, departed) == g1.(peers := g1.peers - {p})
  {
  }

  /** What the methods above need of the invariant. */
  lemma ValidParts(g: State)
    requires Inv(g)
    ensures SubscriptionsOk(g.subscriptions, g.peers, g.demand) && OwnersCarry(g.peers, g.leases)
    ensures g.proxy.pending.Keys !! g.proxy.streaming.Keys
    ensures g.demand.Keys == g.leases.Keys == g.registry.Keys && g.peers.Keys <= g.sent.Keys
  {
  }

  lemma OwnedLease(peers: Peers, leases: Leases, p: PeerId)
    requires IsOwner(peers, leases, p)
    ensures p in peers && peers[p].grant.Some? && peers[p].grant.value.backendId in leases
    ensures leases[peers[p].grant.value.backendId].owner == p
  {
  }

  lemma DropKeepsParts(g: State, b: BackendId, exclude: set<PeerId>)
    requires Inv(g) && b in g.leases
    ensures var g' := DropBackend(g, b, exclude);
            && SubscriptionsOk(g'.subscriptions, g'.peers, g'.demand) && OwnersCarry(g'.peers, g'.leases)
            && g'.peers.Keys == g.peers.Keys
  {
    hide Mirrored, Counted, IdentitiesOk, ProxyOk, LogsOk, DropBackend;
    DropBackendIndexes(g, b, exclude);
  }

  function Enrolled(g: State, b: BackendId, p: PeerId, h: BackendHello, epoch: Epoch, now: Time): State {
    g.(leases := g.leases[b := Lease(epoch, p, now)],
       registry := g.registry[b := Presence(b, h.instance, h.visible, h.capabilities, epoch)],
       demand := g.demand[b := Demand(0, false)],
       granted := g.granted[epoch := (b, p)])
  }

  function Identified(g: State, h: BackendHello): State {
    g.(identities := Claim(g.identities, h.instance, h.device, h.channel, h.generated).(maxEpoch := g.identities.maxEpoch + 1))
  }

  lemma IdentifiedElsewhere(g: State, h: BackendHello)
    ensures Identified(g, h) == g.(identities := Identified(g, h).identities)
  {
  }

  lemma VacateElsewhere(g: State, b: BackendId, ids: Identities)
    ensures Vacate(g.(identities := ids), b) == Vacate(g, b).(identities := ids)
  {
    hide NotifyGone;
    NotifyGoneElsewhere(g, b, ids);
    if b in g.leases { NotifyGoneKeepsLeases(g, b); }
  }

  lemma NotifyGoneKeepsLeases(g: State, b: BackendId)
    ensures NotifyGone(g, b, EpochChanged).leases == g.leases
  {
  }

  /** The registration of a backend, in the order the handler does it. */
  lemma RegisterInOrder(g: State, p: PeerId, h: BackendHello, now: Time)
    ensures Register(g, p, h, now) ==
            Enrolled(Vacate(Identified(g, h), ClaimedBackend(g, h)), ClaimedBackend(g, h), p, h, g.identities.maxEpoch + 1, now)
  {
    hide Vacate, Claim, ClaimedBackend;
    VacateElsewhere(g, ClaimedBackend(g, h), Identified(g, h).identities);
    VacateKeepsIdentities(g, ClaimedBackend(g, h));
  }

  lemma VacateKeepsIdentities(g: State, b: BackendId)
    ensures Vacate(g, b).identities == g.identities
  {
  }

  lemma Greeting(g: State, p: PeerId, h: BackendHello, now: Time)
    requires Inv(g) && p !in g.sent && h.generated !in Used(g.identities)
    ensures Inv(Step(g, EvHelloBackend(p, h, now)))
    ensures Step(g, EvHelloBackend(p, h, now)) ==
            Broadcast(WithPeer(Register(g, p, h, now), p, Some(Grant(ClaimedBackend(g, h), g.identities.maxEpoch + 1))), {p})
    ensures SubscriptionsOk(g.subscriptions, g.peers, g.demand)
    ensures forall c :: c in g.leases ==> g.leases[c].owner != p
  {
    hide Inv, Broadcast, WithPeer, Register, ClaimedBackend, SubscriptionsOk, OwnersCarry;
    StepKeepsInv(g, EvHelloBackend(p, h, now));
    ValidParts(g);
    OwnersLogged(g);
  }

  lemma OwnersLogged(g: State)
    requires Inv(g)
    ensures forall b :: b in g.leases ==> g.leases[b].owner in g.sent
  {
  }

  /** Telling subscribers does not touch the identities. */
  lemma NotifyGoneElsewhere(g: State, b: BackendId, ids: Identities)
    ensures NotifyGone(g.(identities := ids), b, EpochChanged) == NotifyGone(g, b, EpochChanged).(identities := ids)
  {
  }

  lemma Expiring(g: State, b: BackendId, now: Time)
    requires Inv(g)
    ensures Inv(Step(g, EvExpire(b, now)))
    ensures Step(g, EvExpire(b, now)) ==
            if b !in g.leases || now - g.leases[b].lastHeartbeatAt <= LEASE_TTL_MS then g
            else if g.leases[b].owner !in DropBackend(g, b, {}).peers then DropBackend(g, b, {})
            else var g1, p := DropBackend(g, b, {}), g.leases[b].owner;
                 DropPeer(g1.(peers := ClearGrant(g1.peers, p)), p, None)
  {
    hide Inv, DropBackend, DropPeer;
    StepKeepsInv(g, EvExpire(b, now));
  }

  /** The former owner of an expired lease, once its grant is cleared. */
  lemma Ungranted(g: State, b: BackendId)
    requires Inv(g) && b in g.leases
    ensures var g' := DropBackend(g, b, {});
            var p := g.leases[b].owner;
            && p in g'.peers
            && SubscriptionsOk(g'.subscriptions, ClearGrant(g'.peers, p), g'.demand)
            && OwnersCarry(ClearGrant(g'.peers, p), g'.leases)
  {
    hide Mirrored, Counted, IdentitiesOk, ProxyOk, LogsOk, DropBackend;
    DropBackendIndexes(g, b, {});
    ClearGrantMirrored(DropBackend(g, b, {}).subscriptions, DropBackend(g, b, {}).peers, g.leases[b].owner);
  }

  /** One more subscriber of b removed by the loop over `order`. */
  lemma OneRemoved(subscriptions0: Subscriptions, peers0: Peers, demand0: Demands,
                   subscriptions1: Subscriptions, peers1: Peers, demand1: Demands,
                   subscriptions2: Subscriptions, peers2: Peers, demand2: Demands,
                   b: BackendId, subscribers: set<PeerId>, order: seq<PeerId>, i: nat)
    requires i < |order| && Visits(order, subscribers)
    requires SubscriptionsOk(subscriptions1, peers1, demand1) && Subs(subscriptions1, b) == subscribers - Elements(order[..i])
    requires AreSubscribers(subscriptions0, peers0, demand0, subscriptions1, peers1, demand1, b, subscribers - Elements(order[..i]))
    requires AreSubscribers(subscriptions1, peers1, demand1, subscriptions2, peers2, demand2, b, Subs(subscriptions1, b) - {order[i]})
    ensures SubscriptionsOk(subscriptions2, peers2, demand2) && Subs(subscriptions2, b) == subscribers - Elements(order[..i + 1])
    ensures AreSubscribers(subscriptions0, peers0, demand0, subscriptions2, peers2, demand2, b, subscribers - Elements(order[..i + 1]))
  {
    hide AreSubscribers, SubscriptionsOk, Subs, Visits, Elements;
    VisitedAt(order, subscribers, i);
    var t := subscribers - Elements(order[..i + 1]);
    assert t == Subs(subscriptions1, b) - {order[i]};
    SubscribersPresent(subscriptions1, peers1, demand1, b, order[i]);
    SubscribersOk(subscriptions1, peers1, demand1, subscriptions2, peers2, demand2, b, t);
    SubscribersTwice(subscriptions0, peers0, demand0, subscriptions1, peers1, demand1, subscriptions2, peers2, demand2,
                     b, subscribers - Elements(order[..i]), t);
  }

  function Gone(requests: set<RequestId>): map<RequestId, Outcome> {
    map r | r in requests :: BackendGone
  }

  lemma RejectedNone(table: map<RequestId, BackendId>, settled: map<RequestId, Outcome>, b: BackendId)
    ensures table - (Requests(table, b) - table.Keys) == table
    ensures settled + Gone(Requests(table, b) - table.Keys) == settled
  {
  }

  lemma RejectedNext(table: map<RequestId, BackendId>, settled: map<RequestId, Outcome>, b: BackendId,
                     rest: set<RequestId>, r: RequestId)
    requires r in rest && rest <= table.Keys
    ensures var done, done' := Requests(table, b) - rest, Requests(table, b) - (rest - {r});
            && r in table - done && (table - done)[r] == table[r]
            && table - done' == (if table[r] == b then (table - done) - {r} else table - done)
            && settled + Gone(done') == (if table[r] == b then (settled + Gone(done))[r := BackendGone] else settled + Gone(done))
  {
  }

  lemma BothRejected(pending: map<RequestId, BackendId>, streaming: map<RequestId, BackendId>, settled: map<RequestId,
                     Outcome>, b: BackendId)
    requires pending.Keys !! streaming.Keys
    ensures Settle(Proxy(pending, streaming, settled), Requests(pending, b) + Requests(streaming, b), BackendGone) ==
            Proxy(pending - Requests(pending, b), streaming - Requests(streaming, b),
                  settled + Gone(Requests(pending, b)) + Gone(Requests(streaming, b)))
  {
  }

  lemma SubscribersPresent(subscriptions: Subscriptions, peers: Peers, demand: Demands, b: BackendId, p: PeerId)
    requires SubscriptionsOk(subscriptions, peers, demand) && p in Subs(subscriptions, b)
    ensures Subs(subscriptions, b) <= peers.Keys && b in demand
  {
  }
}
