/** The gateway's in-memory indexes as an object: gateway/src/state.ts. */
module GatewayTables {
  import opened Options
  import opened Storage
  import opened Gateway
  import opened GatewayInvariants
  import opened GatewaySteps

  /** One more subscriber: the first one activates the demand. */
  function Incremented(d: Option<Demand>): Demand {
    var before := if d.Some? then d.value else Demand(0, false);
    Demand(before.count + 1, before.active || before.count == 0)
  }

  /** One subscriber less, never below zero: the last one deactivates the demand. */
  function Decremented(d: Demand): Demand {
    var count := if d.count == 0 then 0 else d.count - 1;
    Demand(count, d.active && count != 0)
  }

  /** b's subscriber set without p; an empty set is not kept. */
  function Without(subscriptions: Subscriptions, b: BackendId, p: PeerId): Subscriptions {
    if b !in subscriptions then subscriptions
    else if subscriptions[b] <= {p} then subscriptions - {b}
    else subscriptions[b := subscriptions[b] - {p}]
  }

  /** The three subscription indexes say that b's subscribers are s. */
  ghost predicate AreSubscribers(subscriptions: Subscriptions, peers: Peers, demand: Demands,
                                 subscriptions': Subscriptions, peers': Peers, demand': Demands, b: BackendId, s: set<PeerId>) {
    subscriptions' == Put(subscriptions, b, s) && peers' == Resubscribe(peers, b, s) && demand' == Count(demand, b, s)
  }

  lemma OneMore(s: set<PeerId>, p: PeerId)
    requires p !in s
    ensures DemandOf(s + {p}) == Incremented(Some(DemandOf(s)))
  {
  }

  lemma OneLess(s: set<PeerId>, p: PeerId)
    requires p in s
    ensures DemandOf(s - {p}) == Decremented(DemandOf(s))
  {
  }

  lemma MirroredPeers(subscriptions: Subscriptions, peers: Peers, b: BackendId, p: PeerId, s: set<PeerId>)
    requires Mirrored(subscriptions, peers) && p in peers
    requires forall q :: q != p ==> (q in s <==> q in Subs(subscriptions, b))
    ensures Resubscribe(peers, b, s) ==
            peers[p := peers[p].(subscribed := if p in s then peers[p].subscribed + {b} else peers[p].subscribed - {b})]
  {
    hide Subs;
    forall q | q in peers && q != p ensures Resubscribe(peers, b, s)[q] == peers[q] {
      assert q in Subs(subscriptions, b) <==> b in peers[q].subscribed;
    }
  }

  lemma Added(subscriptions: Subscriptions, peers: Peers, demand: Demands, b: BackendId, p: PeerId)
    requires SubscriptionsOk(subscriptions, peers, demand) && p in peers && b in demand && p !in Subs(subscriptions, b)
    ensures AreSubscribers(subscriptions, peers, demand,
                           subscriptions[b := Subs(subscriptions, b) + {p}],
                           peers[p := peers[p].(subscribed := peers[p].subscribed + {b})],
                           demand[b := Incremented(Some(demand[b]))], b, Subs(subscriptions, b) + {p})
  {
    hide Resubscribe, Incremented;
    OneMore(Subs(subscriptions, b), p);
    MirroredPeers(subscriptions, peers, b, p, Subs(subscriptions, b) + {p});
  }

  lemma AddedAgain(subscriptions: Subscriptions, peers: Peers, demand: Demands, b: BackendId, p: PeerId)
    requires SubscriptionsOk(subscriptions, peers, demand) && p in Subs(subscriptions, b)
    ensures AreSubscribers(subscriptions, peers, demand, subscriptions, peers, demand, b, Subs(subscriptions, b) + {p})
  {
    hide Resubscribe, DemandOf;
    var s := Subs(subscriptions, b);
    assert s + {p} == s;
    MirroredPeers(subscriptions, peers, b, p, s);
    assert peers[p].subscribed + {b} == peers[p].subscribed;
    assert peers[p := peers[p]] == peers;
  }

  lemma SubscribersOk(subscriptions: Subscriptions, peers: Peers, demand: Demands,
                      subscriptions': Subscriptions, peers': Peers, demand': Demands, b: BackendId, s: set<PeerId>)
    requires SubscriptionsOk(subscriptions, peers, demand) && s <= peers.Keys && b in demand
    requires AreSubscribers(subscriptions, peers, demand, subscriptions', peers', demand', b, s)
    ensures SubscriptionsOk(subscriptions', peers', demand')
    ensures Subs(subscriptions', b) == s
  {
    PutMirrored(subscriptions, peers, b, s);
    PutCounted(subscriptions, demand, b, s);
    PutSubs(subscriptions, b, s, b);
  }

  /** The sessions once p, if connected, carries b among its subscriptions. */
  function Listing(peers: Peers, p: PeerId, b: BackendId): Peers {
    if p in peers then peers[p := peers[p].(subscribed := peers[p].subscribed + {b})] else peers
  }

  /** A first subscriber of a backend that had no demand entry. */
  lemma AddedFirst(subscriptions: Subscriptions, peers: Peers, demand: Demands, b: BackendId, p: PeerId)
    requires SubscriptionsOk(subscriptions, peers, demand) && p in peers && b !in demand
    ensures Subs(subscriptions, b) == {}
    ensures SubscriptionsOk(subscriptions[b := {p}], Listing(peers, p, b), demand[b := Incremented(None)])
  {
    var subscriptions' := subscriptions[b := {p}];
    forall c, q ensures q in Subs(subscriptions', c) <==> q in Listing(peers, p, b) && c in Listing(peers, p, b)[q].subscribed {
      assert q in Subs(subscriptions, c) <==> q in peers && c in peers[q].subscribed;
    }
    assert Incremented(None) == DemandOf({p});
  }

  /** Whether the counter's activation is the first subscriber. */
  lemma ActivatedByFirst(subscriptions: Subscriptions, peers: Peers, demand: Demands, b: BackendId)
    requires SubscriptionsOk(subscriptions, peers, demand)
    ensures var demand' := demand[b := Incremented(Lookup(demand, b))];
            !IsActive(demand, b) && IsActive(demand', b) <==> Subs(subscriptions, b) == {}
  {
    hide Mirrored;
    assert b in demand ==> demand[b] == DemandOf(Subs(subscriptions, b));
  }

  /** Adding a subscriber keeps the three indexes in agreement. */
  lemma AddedKeeps(subscriptions: Subscriptions, peers: Peers, demand: Demands, b: BackendId, p: PeerId)
    ensures var s := Subs(subscriptions, b) + {p};
            var subscriptions', peers' := subscriptions[b := s], Listing(peers, p, b);
            var demand' := demand[b := Incremented(Lookup(demand, b))];
            SubscriptionsOk(subscriptions, peers, demand) && p in peers ==>
              if p in Subs(subscriptions, b)
              then && b in demand && s == Subs(subscriptions, b)
                   && AreSubscribers(subscriptions, peers, demand, subscriptions, peers, demand, b, s)
              else && SubscriptionsOk(subscriptions', peers', demand')
                   && Subs(subscriptions', b) == s
                   && (!IsActive(demand, b) && IsActive(demand', b) <==> Subs(subscriptions, b) == {})
                   && (b in demand ==> AreSubscribers(subscriptions, peers, demand, subscriptions', peers', demand', b, s))
  {
    hide Subs, AreSubscribers, SubscriptionsOk, Incremented, IsActive;
    if SubscriptionsOk(subscriptions, peers, demand) && p in peers {
      var s := Subs(subscriptions, b) + {p};
      if p in Subs(subscriptions, b) {
        AddedAgain(subscriptions, peers, demand, b, p);
        DemandKept(subscriptions, peers, demand, b, p);
      } else {
        ActivatedByFirst(subscriptions, peers, demand, b);
        ListedAt(subscriptions, b, s);
        if b in demand {
          Added(subscriptions, peers, demand, b, p);
          ListedPeers(subscriptions, peers, demand, b);
          SubscribersOk(subscriptions, peers, demand, subscriptions[b := s], Listing(peers, p, b),
                        demand[b := Incremented(Some(demand[b]))], b, s);
        } else {
          AddedFirst(subscriptions, peers, demand, b, p);
          assert s == {p};
        }
      }
    }
  }

  lemma ListedPeers(subscriptions: Subscriptions, peers: Peers, demand: Demands, b: BackendId)
    requires SubscriptionsOk(subscriptions, peers, demand)
    ensures Subs(subscriptions, b) <= peers.Keys
  {
    hide Counted;
    forall q | q in Subs(subscriptions, b) ensures q in peers { assert q in peers && b in peers[q].subscribed; }
  }

  lemma ListedAt(subscriptions: Subscriptions, b: BackendId, s: set<PeerId>)
    ensures Subs(subscriptions[b := s], b) == s
  {
  }

  lemma DemandKept(subscriptions: Subscriptions, peers: Peers, demand: Demands, b: BackendId, p: PeerId)
    requires SubscriptionsOk(subscriptions, peers, demand) && p in Subs(subscriptions, b)
    ensures b in demand
  {
  }

  lemma Dropped(subscriptions: Subscriptions, peers: Peers, demand: Demands, b: BackendId, p: PeerId)
    requires SubscriptionsOk(subscriptions, peers, demand) && p in Subs(subscriptions, b)
    ensures b in demand && p in peers
    ensures AreSubscribers(subscriptions, peers, demand,
                           Without(subscriptions, b, p),
                           peers[p := peers[p].(subscribed := peers[p].subscribed - {b})],
                           demand[b := Decremented(demand[b])], b, Subs(subscriptions, b) - {p})
  {
    hide Resubscribe, Decremented;
    OneLess(Subs(subscriptions, b), p);
    MirroredPeers(subscriptions, peers, b, p, Subs(subscriptions, b) - {p});
    assert Without(subscriptions, b, p) == Put(subscriptions, b, Subs(subscriptions, b) - {p});
  }

  /** The backends in `done` no longer list p; everything else is as before, and the counters count. */
  ghost predicate Unlisting(subscriptions: Subscriptions, demand: Demands, subscriptions': Subscriptions,
                            demand': Demands,
                            p: PeerId, done: set<BackendId>) {
    && (forall c :: Subs(subscriptions', c) == if c in done then Subs(subscriptions, c) - {p} else Subs(subscriptions, c))
    && (forall c :: c in subscriptions' ==> subscriptions'[c] != {})
    && demand'.Keys == demand.Keys
    && (forall c :: c in demand' ==> demand'[c] == DemandOf(Subs(subscriptions', c)))
  }

  lemma UnlistingNext(subscriptions: Subscriptions, demand: Demands, subscriptions': Subscriptions, demand': Demands,
                      p: PeerId, done: set<BackendId>, b: BackendId)
    requires Unlisting(subscriptions, demand, subscriptions', demand', p, done)
    requires b !in done && p in Subs(subscriptions, b) && b in demand
    ensures b in demand'
    ensures Unlisting(subscriptions, demand, Without(subscriptions', b, p), demand'[b := Decremented(demand'[b])], p, done + {b})
  {
    hide Decremented, DemandOf, Subs, Without;
    var subscriptions'' := Without(subscriptions', b, p);
    assert p in Subs(subscriptions', b);
    OneLess(Subs(subscriptions', b), p);
    forall c ensures Subs(subscriptions'', c) == if c in done + {b} then Subs(subscriptions, c) - {p} else Subs(subscriptions, c) {
      WithoutSubs(subscriptions', b, p, c);
    }
    WithoutKeepsNone(subscriptions', b, p);
    forall c ensures c != b ==> Subs(subscriptions'', c) == Subs(subscriptions', c) { WithoutSubs(subscriptions', b, p, c); }
    WithoutSubs(subscriptions', b, p, b);
  }

  lemma WithoutSubs(subscriptions: Subscriptions, b: BackendId, p: PeerId, c: BackendId)
    ensures Subs(Without(subscriptions, b, p), c) == if c == b then Subs(subscriptions, b) - {p} else Subs(subscriptions, c)
  {
  }

  lemma WithoutKeepsNone(subscriptions: Subscriptions, b: BackendId, p: PeerId)
    requires forall c :: c in subscriptions ==> subscriptions[c] != {}
    ensures forall c :: c in Without(subscriptions, b, p) ==> Without(subscriptions, b, p)[c] != {}
  {
  }

  lemma Unlisted(subscriptions: Subscriptions, demand: Demands, subscriptions': Subscriptions, demand': Demands,
                 p: PeerId, done: set<BackendId>)
    requires Unlisting(subscriptions, demand, subscriptions', demand', p, done)
    requires forall c :: p in Subs(subscriptions, c) <==> c in done
    requires forall c :: c in subscriptions ==> subscriptions[c] != {}
    ensures subscriptions' == Unlist(subscriptions, p)
    ensures demand' == Recount(demand, Unlist(subscriptions, p))
  {
    forall c ensures Subs(subscriptions', c) == Subs(Unlist(subscriptions, p), c) {
      UnlistSubs(subscriptions, p, c);
    }
    forall c ensures Lookup(subscriptions', c) == Lookup(Unlist(subscriptions, p), c) {
      assert Subs(subscriptions', c) == Subs(Unlist(subscriptions, p), c);
      assert c in subscriptions' <==> Subs(subscriptions', c) != {};
      assert c in Unlist(subscriptions, p) <==> Subs(Unlist(subscriptions, p), c) != {};
    }
    SameLookups(subscriptions', Unlist(subscriptions, p));
  }

  /** Without subscribers of its own, removing a peer's subscriptions changes nothing. */
  lemma NothingToUnlist(subscriptions: Subscriptions, peers: Peers, demand: Demands, p: PeerId)
    requires SubscriptionsOk(subscriptions, peers, demand) && p in peers && peers[p].subscribed == {}
    ensures Unlist(subscriptions, p) == subscriptions && Recount(demand, subscriptions) == demand
  {
    forall c ensures Lookup(Unlist(subscriptions, p), c) == Lookup(subscriptions, c) {
      assert p !in Subs(subscriptions, c);
      if c in subscriptions { assert subscriptions[c] - {p} == subscriptions[c]; }
    }
    SameLookups(Unlist(subscriptions, p), subscriptions);
  }

  class GatewayState {
    var peers: Peers
    var registry: Registry
    var leases: Leases
    var subscriptions: Subscriptions
    var streamDemand: Demands

    ghost predicate Indexed()
      reads this
    {
      SubscriptionsOk(subscriptions, peers, streamDemand)
    }

    constructor ()
      ensures peers == map[] && registry == map[] && leases == map[] && subscriptions == map[] && streamDemand == map[]
    {
      peers, registry, leases, subscriptions, streamDemand := map[], map[], map[], map[], map[];
    }

    method IncrementSubscriberCount(b: BackendId) returns (activated: bool)
      modifies this`streamDemand
      ensures streamDemand == old(streamDemand)[b := Incremented(Lookup(old(streamDemand), b))]
      ensures activated <==> !IsActive(old(streamDemand), b) && IsActive(streamDemand, b)
    {
      if b !in streamDemand {
        streamDemand := streamDemand[b := Demand(0, false)];
      }
      var demand := streamDemand[b];
      demand := demand.(count := demand.count + 1);
      activated := demand.count == 1 && !demand.active;
      if activated {
        demand := demand.(active := true);
      }
      streamDemand := streamDemand[b := demand];
    }

    method DecrementSubscriberCount(b: BackendId) returns (deactivated: bool)
      modifies this`streamDemand
      ensures b in old(streamDemand) ==> streamDemand == old(streamDemand)[b := Decremented(old(streamDemand)[b])]
      ensures b !in old(streamDemand) ==> streamDemand == old(streamDemand)
      ensures deactivated <==> IsActive(old(streamDemand), b) && !IsActive(streamDemand, b)
    {
      if b !in streamDemand {
        return false;
      }
      var demand := streamDemand[b];
      demand := demand.(count := if demand.count == 0 then 0 else demand.count - 1);
      deactivated := demand.count == 0 && demand.active;
      if deactivated {
        demand := demand.(active := false);
      }
      streamDemand := streamDemand[b := demand];
    }

    /**
     * Returns whether the demand for b went from inactive to active.  A subscriber that is not a connected peer and a
     * backend without a demand entry are both accepted.
     */
    method AddSubscription(b: BackendId, p: PeerId) returns (demandChanged: bool)
      modifies this`subscriptions, this`peers, this`streamDemand
      ensures p in Subs(old(subscriptions), b) ==>
                !demandChanged && subscriptions == old(subscriptions) && peers == old(peers) && streamDemand == old(streamDemand)
      ensures p !in Subs(old(subscriptions), b) ==>
                && subscriptions == old(subscriptions)[b := Subs(old(subscriptions), b) + {p}]
                && peers == Listing(old(peers), p, b)
                && streamDemand == old(streamDemand)[b := Incremented(Lookup(old(streamDemand), b))]
                && (demandChanged <==> !IsActive(old(streamDemand), b) && IsActive(streamDemand, b))
      ensures old(Indexed()) && p in old(peers) ==>
                && Indexed() && Subs(subscriptions, b) == Subs(old(subscriptions), b) + {p}
                && (demandChanged <==> Subs(old(subscriptions), b) == {})
      ensures old(Indexed()) && p in old(peers) && b in old(streamDemand) ==>
                AreSubscribers(old(subscriptions), old(peers), old(streamDemand), subscriptions, peers, streamDemand,
                               b, Subs(old(subscriptions), b) + {p})
    {
      AddedKeeps(subscriptions, peers, streamDemand, b, p);
      hide AreSubscribers, SubscriptionsOk, Incremented, Listing;
      var subs := if b in subscriptions then subscriptions[b] else {};
      if p in subs {
        return false;
      }
      subscriptions := subscriptions[b := subs + {p}];
      RecordOnPeer(p, b);
      demandChanged := IncrementSubscriberCount(b);
    }

    /** The set on the peer, when there is one. */
    method RecordOnPeer(p: PeerId, b: BackendId)
      modifies this`peers
      ensures peers == Listing(old(peers), p, b)
    {
      if p in peers {
        peers := peers[p := peers[p].(subscribed := peers[p].subscribed + {b})];
      }
    }

    /** subs.delete, and the set with it when nothing is left. */
    method ForgetSubscriber(b: BackendId, p: PeerId)
      modifies this`subscriptions
      ensures subscriptions == Without(old(subscriptions), b, p)
    {
      if b in subscriptions {
        var subs := subscriptions[b] - {p};
        if subs == {} {
          subscriptions := subscriptions - {b};
        } else {
          subscriptions := subscriptions[b := subs];
        }
      }
    }

    /** Returns whether the demand for b went from active to inactive. */
    method RemoveSubscription(b: BackendId, p: PeerId) returns (demandChanged: bool)
      requires Indexed()
      modifies this`subscriptions, this`peers, this`streamDemand
      ensures p !in Subs(old(subscriptions), b) ==>
                !demandChanged && subscriptions == old(subscriptions) && peers == old(peers) && streamDemand == old(streamDemand)
      ensures p in Subs(old(subscriptions), b) ==>
                && AreSubscribers(old(subscriptions), old(peers), old(streamDemand), subscriptions, peers, streamDemand,
                                  b, Subs(old(subscriptions), b) - {p})
                && (demandChanged <==> Subs(old(subscriptions), b) == {p})
    {
      if b !in subscriptions || p !in subscriptions[b] {
        return false;
      }
      Dropped(subscriptions, peers, streamDemand, b, p);
      hide AreSubscribers, Mirrored, Decremented;
      OneLess(subscriptions[b], p);
      ForgetSubscriber(b, p);
      if p in peers {
        peers := peers[p := peers[p].(subscribed := peers[p].subscribed - {b})];
      }
      demandChanged := DecrementSubscriberCount(b);
    }

    method RemoveAllSubscriptions(p: PeerId) returns (affected: seq<BackendId>)
      requires Indexed()
      modifies this`subscriptions, this`peers, this`streamDemand
      ensures p !in old(peers) ==>
                affected == [] && subscriptions == old(subscriptions) && peers == old(peers) && streamDemand == old(streamDemand)
      ensures p in old(peers) ==>
                && Visits(affected, old(peers)[p].subscribed)
                && subscriptions == Unlist(old(subscriptions), p)
                && peers == old(peers)[p := old(peers)[p].(subscribed := {})]
                && streamDemand == Recount(old(streamDemand), Unlist(old(subscriptions), p))
    {
      affected := [];
      if p !in peers {
        return;
      }
      var order := IterationOrder(peers[p].subscribed);
      affected := UnlistEach(p, order);
      peers := peers[p := peers[p].(subscribed := {})];
    }

    /** One round of removeAllSubscriptions' loop; the demand transition is dropped. */
    method UnlistFrom(b: BackendId, p: PeerId)
      requires b in streamDemand
      modifies this`subscriptions, this`streamDemand
      ensures subscriptions == Without(old(subscriptions), b, p)
      ensures streamDemand == old(streamDemand)[b := Decremented(old(streamDemand)[b])]
    {
      hide *;
      ForgetSubscriber(b, p);
      var _ := DecrementSubscriberCount(b);
    }

    /** removeAllSubscriptions' loop over the peer's backends. */
    method UnlistEach(p: PeerId, order: seq<BackendId>) returns (affected: seq<BackendId>)
      requires Indexed() && p in peers && Visits(order, peers[p].subscribed)
      modifies this`subscriptions, this`streamDemand
      ensures affected == order
      ensures subscriptions == Unlist(old(subscriptions), p)
      ensures streamDemand == Recount(old(streamDemand), Unlist(old(subscriptions), p))
    {
      ghost var subscriptions0, peers0, demand0 := subscriptions, peers, streamDemand;
      assert SubscriptionsOk(subscriptions0, peers0, demand0);
      hide *;
      affected := [];
      var i := 0;
      UnlistingStart(subscriptions0, peers0, demand0, p, order);
      while i < |order|
        invariant 0 <= i <= |order|
        invariant Rounds(subscriptions0, demand0, subscriptions, streamDemand, p, order, i, affected)
      {
        MyNextBackend(subscriptions0, peers0, demand0, subscriptions, streamDemand, p, order, i, affected);
        UnlistFrom(order[i], p);
        affected := affected + [order[i]];
        i := i + 1;
      }
      UnlistedAll(subscriptions0, peers0, demand0, subscriptions, streamDemand, p, order, affected);
    }

    method RemovePeer(p: PeerId)
      requires Indexed()
      modifies this`subscriptions, this`peers, this`streamDemand
      ensures subscriptions == (if p in old(peers) then Unlist(old(subscriptions), p) else old(subscriptions))
      ensures streamDemand == (if p in old(peers) then Recount(old(streamDemand), Unlist(old(subscriptions), p)) else old(streamDemand))
      ensures peers == old(peers) - {p}
    {
      hide Unlist, Recount, Mirrored, Counted;
      if p in peers {
        var _ := RemoveAllSubscriptions(p);
        peers := peers - {p};
      }
    }
  }

  lemma MyBackends(subscriptions: Subscriptions, peers: Peers, demand: Demands, p: PeerId)
    requires SubscriptionsOk(subscriptions, peers, demand) && p in peers
    ensures forall c :: p in Subs(subscriptions, c) <==> c in peers[p].subscribed
    ensures peers[p].subscribed <= demand.Keys
    ensures forall c :: c in subscriptions ==> subscriptions[c] != {}
  {
  }

  lemma UnlistedAll(subscriptions: Subscriptions, peers: Peers, demand: Demands, subscriptions': Subscriptions,
                    demand': Demands,
                    p: PeerId, order: seq<BackendId>, affected: seq<BackendId>)
    requires SubscriptionsOk(subscriptions, peers, demand) && p in peers && Visits(order, peers[p].subscribed)
    requires Rounds(subscriptions, demand, subscriptions', demand', p, order, |order|, affected)
    ensures affected == order
    ensures subscriptions' == Unlist(subscriptions, p) && demand' == Recount(demand, Unlist(subscriptions, p))
  {
    hide Unlisting, Subs, SubscriptionsOk, Visits, Elements;
    VisitedAll(order, peers[p].subscribed);
    MyBackends(subscriptions, peers, demand, p);
    Unlisted(subscriptions, demand, subscriptions', demand', p, Elements(order));
  }

  /** Where removeAllSubscriptions' loop is after i rounds. */
  ghost predicate Rounds(subscriptions: Subscriptions, demand: Demands, subscriptions': Subscriptions, demand': Demands,
                         p: PeerId, order: seq<BackendId>, i: nat, affected: seq<BackendId>)
    requires i <= |order|
  {
    affected == order[..i] && Unlisting(subscriptions, demand, subscriptions', demand', p, Elements(order[..i]))
  }

  /** The backend a step of the loop meets. */
  lemma MyNextBackend(subscriptions: Subscriptions, peers: Peers, demand: Demands, subscriptions': Subscriptions,
                      demand': Demands,
                      p: PeerId, order: seq<BackendId>, i: nat, affected: seq<BackendId>)
    requires SubscriptionsOk(subscriptions, peers, demand) && p in peers && Visits(order, peers[p].subscribed) && i < |order|
    requires Rounds(subscriptions, demand, subscriptions', demand', p, order, i, affected)
    ensures order[i] in demand'
    ensures Rounds(subscriptions, demand, Without(subscriptions', order[i], p),
                   demand'[order[i] := Decremented(demand'[order[i]])], p, order, i + 1, affected + [order[i]])
  {
    hide Unlisting, Subs, SubscriptionsOk, Visits, Elements, Without, Decremented;
    VisitedAt(order, peers[p].subscribed, i);
    MyBackend(subscriptions, peers, demand, p, order[i]);
    UnlistingNext(subscriptions, demand, subscriptions', demand', p, Elements(order[..i]), order[i]);
  }

  lemma MyBackend(subscriptions: Subscriptions, peers: Peers, demand: Demands, p: PeerId, b: BackendId)
    requires SubscriptionsOk(subscriptions, peers, demand) && p in peers && b in peers[p].subscribed
    ensures p in Subs(subscriptions, b) && b in demand
  {
  }

  lemma UnlistingStart(subscriptions: Subscriptions, peers: Peers, demand: Demands, p: PeerId, order: seq<BackendId>)
    requires SubscriptionsOk(subscriptions, peers, demand)
    ensures Rounds(subscriptions, demand, subscriptions, demand, p, order, 0, [])
  {
    assert Elements(order[..0]) == {};
  }
}
