/** What becomes of a backend that the user closes: closeBackend sends nothing while the subscription is being asked. */
module EndToEndClosing {
  import opened Options
  import opened Storage
  import opened Gateway
  import opened GatewayInvariants
  import opened GatewayRuns
  import opened GatewayHistory
  import opened Client
  import opened EndToEnd
  import opened EndToEndRuns
  import opened EndToEndDraining
  import Store = RegistryStore
  import Streams

  /** The last request about b that the gateway has not read. */
  function LastAsked(up: seq<Request>, b: BackendId): Option<Request>
    decreases |up|
  {
    if up == [] then None
    else if up[|up| - 1].b == b then Some(up[|up| - 1])
    else LastAsked(up[..|up| - 1], b)
  }

  /**
   * On its way to be subscribed: the last request about it is a subscribe, and the registry lists it; or there is no
   * request about it, and the gateway has it subscribed.
   */
  predicate OnItsWay(g: State, p: PeerId, up: seq<Request>, b: BackendId) {
    match LastAsked(up, b)
    case None => p in Subs(g.subscriptions, b)
    case Some(Sub(_)) => b in g.registry
    case Some(Unsub(_)) => false
  }

  // ---------------------------------------------------------------- the uplink

  lemma {:induction false} AskedBehind(up: seq<Request>, b: BackendId)
    requires up != []
    ensures LastAsked(up, b) ==
            if LastAsked(up[1..], b).Some? then LastAsked(up[1..], b) else if up[0].b == b then Some(up[0]) else None
    decreases |up|
  {
    var n := |up| - 1;
    if n == 0 {
      assert up[..0] == [] && up[1..] == [];
    } else if up[n].b != b {
      AskedBehind(up[..n], b);
      assert up[..n][1..] == up[1..][..n - 1] && up[1..][n - 1] == up[n];
    } else {
      assert up[1..][n - 1] == up[n];
    }
  }

  lemma {:induction false} AskedElsewhere(up: seq<Request>, more: seq<Request>, b: BackendId)
    requires forall i :: 0 <= i < |more| ==> more[i].b != b
    ensures LastAsked(up + more, b) == LastAsked(up, b)
    decreases |more|
  {
    if more == [] {
      assert up + more == up;
    } else {
      var n := |more| - 1;
      assert (up + more)[..|up + more| - 1] == up + more[..n];
      AskedElsewhere(up, more[..n], b);
    }
  }

  lemma AskedLast(up: seq<Request>, x: Request)
    ensures LastAsked(up + [x], x.b) == Some(x)
  {
  }

  // ---------------------------------------------------------------- reading

  lemma SentKeepsIndexes(g: State, to: Option<PeerId>, p: PeerId, m: Msg)
    ensures SendTo(g, to, m).subscriptions == g.subscriptions && SendTo(g, to, m).registry == g.registry
    ensures Send(g, p, m).subscriptions == g.subscriptions && Send(g, p, m).registry == g.registry
  {
    hide Deliver;
  }

  lemma ListedAfter(g: State, b: BackendId, s: set<PeerId>, c: BackendId)
    ensures Subs(SetSubscribers(g, b, s).subscriptions, c) == if c == b then s else Subs(g.subscriptions, c)
    ensures SetSubscribers(g, b, s).registry == g.registry
  {
  }

  lemma SubscribeLists(g: State, p: PeerId, b: BackendId, c: BackendId)
    requires p in g.peers
    ensures p in Subs(Subscribe(g, p, b).subscriptions, c) <==>
            p in Subs(g.subscriptions, c) || (c == b && b in g.registry && b in g.leases)
    ensures Subscribe(g, p, b).registry == g.registry
  {
    hide Send, SendTo, SetSubscribers, Subs, Owner;
    if b !in g.registry || b !in g.leases {
      SentKeepsIndexes(g, None, p, GatewayError(OfflineError));
    } else {
      var g1 := SetSubscribers(g, b, Subs(g.subscriptions, b) + {p});
      ListedAfter(g, b, Subs(g.subscriptions, b) + {p}, c);
      var owner := Owner(g1.peers, g1.leases, b);
      SentKeepsIndexes(g1, owner, p, StreamDemand(true));
      var g2 := if Subs(g.subscriptions, b) == {} then SendTo(g1, owner, StreamDemand(true)) else g1;
      var m := BackendSubscribed(b, g.leases[b].epoch, g.registry[b].capabilities);
      SentKeepsIndexes(g2, None, p, m);
      var g3 := Send(g2, p, m);
      SentKeepsIndexes(g3, Owner(g3.peers, g3.leases, b), p, RequestDataSnapshot(b, Some(p)));
    }
  }

  lemma UnsubscribeUnlists(g: State, p: PeerId, b: BackendId, c: BackendId)
    ensures p in Subs(Unsubscribe(g, p, b).subscriptions, c) <==> p in Subs(g.subscriptions, c) && c != b
    ensures Unsubscribe(g, p, b).registry == g.registry
  {
    hide Send, SendTo, SetSubscribers, Subs, Owner;
    ListedAfter(g, b, Subs(g.subscriptions, b) - {p}, c);
    var g1 := if p in Subs(g.subscriptions, b) then SetSubscribers(g, b, Subs(g.subscriptions, b) - {p}) else g;
    SentKeepsIndexes(g1, None, p, BackendUnsubscribed(b, ClientUnsubscribed));
    var g2 := Send(g1, p, BackendUnsubscribed(b, ClientUnsubscribed));
    SentKeepsIndexes(g2, Owner(g2.peers, g2.leases, b), p, SubscriberDisconnected(b, p));
    var g3 := SendTo(g2, Owner(g2.peers, g2.leases, b), SubscriberDisconnected(b, p));
    SentKeepsIndexes(g3, Owner(g3.peers, g3.leases, b), p, StreamDemand(false));
  }

  lemma ListedOnly(g: State, p: PeerId, b: BackendId)
    requires Inv(g)
    ensures p in Subs(g.subscriptions, b) ==> b in g.registry
    ensures b in g.registry ==> b in g.leases
  {
    hide Mirrored, GrantsOk, IdentitiesOk, ProxyOk, LogsOk;
  }

  /** Reading a request moves b on its way, and no further. */
  lemma AnsweredOnItsWay(g: State, p: PeerId, up: seq<Request>, b: BackendId)
    requires Inv(g) && p in g.peers && up != []
    ensures OnItsWay(Step(g, RequestEvent(p, up[0])), p, up[1..], b) <==> OnItsWay(g, p, up, b)
  {
    hide Inv, Subscribe, Unsubscribe, Subs, LastAsked;
    AskedBehind(up, b);
    ListedOnly(g, p, b);
    match up[0]
    case Sub(d) => SubscribeLists(g, p, d, b);
    case Unsub(d) => UnsubscribeUnlists(g, p, d, b);
  }

  lemma ReopensOthers(c: Client, m: Msg, order: seq<BackendId>, up: seq<Request>, b: BackendId)
    requires ReadsInOrder(c, m, order) && b !in c.desired
    ensures LastAsked(up + SubAll(order), b) == LastAsked(up, b)
  {
    hide Absorb, Present, LastAsked;
    assert forall i :: 0 <= i < |order| ==> order[i] in Reopened(c, m);
    AskedElsewhere(up, SubAll(order), b);
  }

  lemma ReadKeepsWay(s: System, a: Action, b: BackendId)
    requires SystemOk(s) && CanAct(s, a) && Drains(a) && b !in s.client.desired
    ensures var t := Act(s, a); OnItsWay(t.g, t.p, t.up, b) <==> OnItsWay(s.g, s.p, s.up, b)
  {
    hide Inv, Step, Handle, Streamed, ReadsInOrder, LastAsked, Subs, ClientOk, StreamsOk;
    if a.GatewayReads? {
      AnsweredOnItsWay(s.g, s.p, s.up, b);
    } else {
      ReopensOthers(s.client, Unread(s)[0], a.order, s.up, b);
    }
  }

  lemma {:induction false} DrainKeepsWay(s: System, drain: seq<Action>, b: BackendId)
    requires SystemOk(s) && CanRun(s, drain) && AllDrain(drain) && b !in s.client.desired
    ensures var t := Run(s, drain); OnItsWay(t.g, t.p, t.up, b) <==> OnItsWay(s.g, s.p, s.up, b)
    decreases |drain|
  {
    hide SystemOk, CanAct, Act, Drains, OnItsWay, Work;
    if drain != [] {
      ReadKeepsWay(s, drain[0], b);
      DrainStep(s, drain[0]);
      DrainKeepsWay(Act(s, drain[0]), drain[1..], b);
    }
  }

  lemma DrainedOnItsWay(s: System, b: BackendId)
    requires SystemOk(s) && Drained(s)
    ensures IsSubscribed(s.client.records, b) <==> OnItsWay(s.g, s.p, s.up, b)
    ensures IsSubscribed(s.client.records, b) <==> s.p in Subs(s.g.subscriptions, b)
  {
    hide Inv, Core, Progress, StreamsOk;
    CoreAgrees(s.g, s.p, s.client.records, s.up, b);
  }

  // ---------------------------------------------------------------- closing

  lemma ClosingAsks(s: System, b: BackendId, now: Time)
    requires IsOpen(s.g.peers, s.p)
    ensures var t := Act(s, UserCloses(b, now));
            && b !in t.client.desired && t.g == s.g && t.p == s.p
            && (OnItsWay(t.g, t.p, t.up, b) <==> !IsSubscribed(s.client.records, b) && OnItsWay(s.g, s.p, s.up, b))
  {
    hide StreamsClosed, Subs, LastAsked;
    AskedLast(s.up, Unsub(b));
    assert s.up + [] == s.up;
  }

  /**
   * A backend the user closes stays subscribed, once the queues are empty, exactly when the record is not subscribed at that
   * moment and a subscription of it is on its way.
   */
  lemma ClosedStaysIff(s: System, items: seq<Presence>, actions: seq<Action>, b: BackendId, now: Time, drain: seq<Action>)
    requires Start(s, items) && CanRun(s, actions)
    requires CanAct(Run(s, actions), UserCloses(b, now))
    requires CanRun(Act(Run(s, actions), UserCloses(b, now)), drain) && AllDrain(drain)
    requires Drained(Run(Act(Run(s, actions), UserCloses(b, now)), drain))
    ensures var t := Run(s, actions);
            var u := Run(Act(t, UserCloses(b, now)), drain);
            && (IsSubscribed(u.client.records, b) <==>
                  !IsSubscribed(t.client.records, b) && OnItsWay(t.g, t.p, t.up, b))
            && (IsSubscribed(u.client.records, b) <==> u.p in Subs(u.g.subscriptions, b))
            && b !in u.client.desired
  {
    hide SystemOk, Start, CanRun, Run, Act, OnItsWay, Work, Drained;
    var t := Run(s, actions);
    RunOk(s, items, actions);
    ClosedAndDrained(t, b, now, drain);
  }

  lemma ClosedAndDrained(t: System, b: BackendId, now: Time, drain: seq<Action>)
    requires SystemOk(t) && CanAct(t, UserCloses(b, now))
    requires CanRun(Act(t, UserCloses(b, now)), drain) && AllDrain(drain)
    requires Drained(Run(Act(t, UserCloses(b, now)), drain))
    ensures var u := Run(Act(t, UserCloses(b, now)), drain);
            && (IsSubscribed(u.client.records, b) <==>
                  !IsSubscribed(t.client.records, b) && OnItsWay(t.g, t.p, t.up, b))
            && (IsSubscribed(u.client.records, b) <==> u.p in Subs(u.g.subscriptions, b))
            && b !in u.client.desired
  {
    hide SystemOk, CanRun, Run, Act, OnItsWay, Work, Drained;
    var closed := Act(t, UserCloses(b, now));
    assert IsOpen(t.g.peers, t.p);
    ActKeepsOk(t, UserCloses(b, now));
    ClosingAsks(t, b, now);
    DrainKeepsWay(closed, drain, b);
    DrainingEnds(closed, drain);
    DrainedOnItsWay(Run(closed, drain), b);
  }

  /**
   * From any drained state: opening a registered backend that is not subscribed and closing it at once leaves it subscribed,
   * whichever way the queues drain.
   */
  lemma ClosedWhileOpening(s: System, b: BackendId, now: Time) returns (drain: seq<Action>)
    requires SystemOk(s) && Drained(s) && b in s.g.registry && !IsSubscribed(s.client.records, b)
    ensures CanRun(s, [UserOpens(b), UserCloses(b, now)])
    ensures var t := Run(s, [UserOpens(b), UserCloses(b, now)]);
            && CanRun(t, drain) && AllDrain(drain) && Drained(Run(t, drain))
            && forall other :: CanRun(t, other) && AllDrain(other) && Drained(Run(t, other)) ==>
                 var u := Run(t, other);
                 b !in u.client.desired && IsSubscribed(u.client.records, b) && u.p in Subs(u.g.subscriptions, b)
  {
    hide SystemOk, CanRun, Run, Act, OnItsWay, Work, Drained;
    SystemConnected(s);
    var asked := Act(s, UserOpens(b));
    ActKeepsOk(s, UserOpens(b));
    OpeningAsks(s, b);
    SystemConnected(asked);
    var t := Act(asked, UserCloses(b, now));
    ActKeepsOk(asked, UserCloses(b, now));
    TwoActions(s, UserOpens(b), UserCloses(b, now));
    drain := CanDrain(t);
    forall other | CanRun(t, other) && AllDrain(other) && Drained(Run(t, other))
      ensures var u := Run(t, other);
              b !in u.client.desired && IsSubscribed(u.client.records, b) && u.p in Subs(u.g.subscriptions, b)
    {
      ClosedAndDrained(asked, b, now, other);
    }
  }

  /** So it does for every newly connected client, whatever the gateway has been through, with any backend it is shown. */
  lemma ClosedAfterGreeting(g: State, p: PeerId, items: seq<Presence>, b: BackendId, now: Time) returns (drain: seq<Action>)
    requires Reachable(g) && p !in g.sent && b in g.registry && Store.ListsRegistry(items, g.registry)
    ensures var s := System(Step(g, EvHelloClient(p)), p, Client(Store.Bootstrap(items, {}), {}), Streams.EMPTY, 1, []);
            && Start(s, items) && Drained(s) && CanRun(s, [UserOpens(b), UserCloses(b, now)])
            && var t := Run(s, [UserOpens(b), UserCloses(b, now)]);
            && CanRun(t, drain) && AllDrain(drain) && Drained(Run(t, drain))
            && var u := Run(t, drain);
            b !in u.client.desired && IsSubscribed(u.client.records, b) && u.p in Subs(u.g.subscriptions, b)
  {
    hide Inv, Start, SystemOk, CanRun, Run, Step, Reachable, Store.Bootstrap, Store.ListsRegistry, Subs, Work, AllDrain;
    var ev := EvHelloClient(p);
    var s := System(Step(g, ev), p, Client(Store.Bootstrap(items, {}), {}), Streams.EMPTY, 1, []);
    GreetedRegistry(g, p);
    GreetingStarts(g, ev, items);
    ReachableInv(g);
    GreetedLog(g, ev);
    StepKeepsInv(g, ev);
    StartOk(s, items);
    NobodySubscribed(items, b);
    drain := ClosedWhileOpening(s, b, now);
  }

  lemma GreetedRegistry(g: State, p: PeerId)
    ensures Step(g, EvHelloClient(p)).registry == g.registry
  {
    hide Deliver;
  }

  lemma NobodySubscribed(items: seq<Presence>, b: BackendId)
    ensures !IsSubscribed(Store.Bootstrap(items, {}), b)
  {
    NeverSubscribed(map[], items);
  }

  lemma {:induction false} NeverSubscribed(records: Store.Records, items: seq<Presence>)
    requires forall b :: b in records ==> !records[b].subscribed
    ensures forall b :: b in Store.UpsertDefaults(records, items) ==> !Store.UpsertDefaults(records, items)[b].subscribed
    decreases |items|
  {
    if items != [] { NeverSubscribed(records[items[0].backendId := Store.DefaultRecord(items[0])], items[1..]); }
  }

  lemma SystemConnected(s: System)
    requires SystemOk(s)
    ensures IsOpen(s.g.peers, s.p)
  {
    hide Inv, ClientOk, StreamsOk;
  }

  lemma OpeningAsks(s: System, b: BackendId)
    requires SystemOk(s) && Drained(s) && b in s.g.registry && !IsSubscribed(s.client.records, b)
    ensures CanAct(s, UserOpens(b))
    ensures var t := Act(s, UserOpens(b)); !IsSubscribed(t.client.records, b) && OnItsWay(t.g, t.p, t.up, b)
  {
    hide Inv, Core, Progress, StreamsOk;
    CoreAgrees(s.g, s.p, s.client.records, s.up, b);
    AskedLast(s.up, Sub(b));
  }

  lemma TwoActions(s: System, a: Action, c: Action)
    requires CanAct(s, a) && CanAct(Act(s, a), c)
    ensures CanRun(s, [a, c]) && Run(s, [a, c]) == Act(Act(s, a), c)
  {
    hide CanAct, Act;
    var s1 := Act(s, a);
    assert [c][1..] == [] && [a, c][1..] == [c];
    assert CanRun(Act(s1, c), []) && Run(Act(s1, c), []) == Act(s1, c);
    assert CanRun(s1, [c]) && Run(s1, [c]) == Act(s1, c);
  }
}
