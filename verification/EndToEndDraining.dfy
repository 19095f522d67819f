/** Left to themselves, the two queues empty: how much work is in flight, and what is reached when none is left. */
module EndToEndDraining {
  import opened Options
  import opened Storage
  import opened Gateway
  import opened GatewayInvariants
  import opened GatewayHistory
  import opened Client
  import opened EndToEnd
  import opened EndToEndRuns
  import Store = RegistryStore

  /** The queues move on; neither the user nor anyone else at the gateway does anything. */
  predicate Drains(a: Action) {
    a.GatewayReads? || a.ClientReads?
  }

  predicate AllDrain(actions: seq<Action>) {
    forall i :: 0 <= i < |actions| ==> Drains(actions[i])
  }

  function Snapshots(log: seq<Msg>): nat {
    if log == [] then 0 else (if log[0].RegistrySnapshot? then 1 else 0) + Snapshots(log[1..])
  }

  /**
   * The work in flight.  Answering a request writes at most three messages, none of them a snapshot; reading a
   * snapshot makes at most one request for each desired backend.
   */
  function Work(s: System): nat {
    |Unread(s)| + 4 * |s.up| + 4 * (|s.client.desired| * Snapshots(Unread(s)))
  }

  lemma {:induction false} SnapshotsAppend(log: seq<Msg>, more: seq<Msg>)
    requires forall i :: 0 <= i < |more| ==> !more[i].RegistrySnapshot?
    ensures Snapshots(log + more) == Snapshots(log)
    decreases |log| + |more|
  {
    if log != [] {
      assert (log + more)[0] == log[0] && (log + more)[1..] == log[1..] + more;
      SnapshotsAppend(log[1..], more);
    } else if more != [] {
      assert (log + more)[1..] == log + more[1..];
      SnapshotsAppend(log, more[1..]);
    }
  }

  // ---------------------------------------------------------------- the gateway answers a request

  /** What answering x writes to p. */
  function Answer(g: State, p: PeerId, x: Request): seq<Msg>
    requires p in g.peers
  {
    match x
    case Sub(b) =>
      if b in g.registry && b in g.leases then SubscribeWrites(g, p, b, p)
      else Given(Some(p), g.peers, p, GatewayError(OfflineError))
    case Unsub(b) => UnsubscribeWrites(g, p, b, p)
  }

  lemma AnswerIsShort(g: State, p: PeerId, x: Request)
    requires p in g.peers
    ensures |Answer(g, p, x)| <= 3
    ensures forall i :: 0 <= i < |Answer(g, p, x)| ==> !Answer(g, p, x)[i].RegistrySnapshot?
  {
    hide Owner, Subs;
  }

  lemma Answered(g: State, p: PeerId, x: Request)
    requires IsOpen(g.peers, p) && p in g.sent
    ensures Log(Step(g, RequestEvent(p, x)).sent, p) == Log(g.sent, p) + Answer(g, p, x)
    ensures Step(g, RequestEvent(p, x)).registry == g.registry
  {
    hide Subscribe, Unsubscribe, Owner, Subs, Log;
    match x
    case Sub(b) =>
      if b in g.registry && b in g.leases {
        SubscribeLog(g, p, b, p);
      } else {
        RefusedSubscribe(g, p, b);
        SendOneLog(g, p, GatewayError(OfflineError), p);
      }
    case Unsub(b) => UnsubscribeLog(g, p, b, p);
  }

  lemma SystemLog(s: System)
    requires SystemOk(s)
    ensures s.p in s.g.peers && s.p in s.g.sent && s.read <= |Log(s.g.sent, s.p)|
  {
    hide Progress, Mirrors, Believed, Recorded, Mirrored, Counted, GrantsOk, IdentitiesOk, ProxyOk, LogsOk, StreamsOk;
  }

  lemma GatewayReadsLess(s: System)
    requires SystemOk(s) && CanAct(s, GatewayReads)
    ensures Work(Act(s, GatewayReads)) < Work(s)
    ensures Act(s, GatewayReads).g.registry == s.g.registry
  {
    hide SystemOk, Step, Answer;
    var x := s.up[0];
    var answer := Answer(s.g, s.p, x);
    SystemLog(s);
    Answered(s.g, s.p, x);
    AnswerIsShort(s.g, s.p, x);
    var t := Act(s, GatewayReads);
    assert Unread(t) == Unread(s) + answer;
    SnapshotsAppend(Unread(s), answer);
  }

  // ---------------------------------------------------------------- the client reads a message

  lemma SubsetNoLarger(s: set<BackendId>, t: set<BackendId>)
    requires s <= t
    ensures |s| <= |t|
  {
    assert t == s + (t - s);
  }

  lemma ReopensFewer(c: Client, m: Msg, order: seq<BackendId>)
    requires ReadsInOrder(c, m, order)
    ensures |order| <= if m.RegistrySnapshot? then |c.desired| else 0
  {
    hide Absorb, Present;
    VisitedOnce(order, Reopened(c, m));
    SubsetNoLarger(Reopened(c, m), c.desired);
  }

  lemma ClientReadsLess(s: System, a: Action)
    requires SystemOk(s) && CanAct(s, a) && a.ClientReads?
    ensures Work(Act(s, a)) < Work(s)
  {
    hide SystemOk, Handle, Streamed, ReadsInOrder;
    SystemLog(s);
    var m, rest := Unread(s)[0], Unread(s)[1..];
    var d := |s.client.desired|;
    var t := Act(s, a);
    assert Unread(t) == rest;
    ReopensFewer(s.client, m, a.order);
    ReadingKeepsDesired(s.client, m);
    assert |t.up| == |s.up| + |a.order|;
    if m.RegistrySnapshot? {
      assert d * (Snapshots(rest) + 1) == d * Snapshots(rest) + d;
    }
  }

  lemma ReadingKeepsDesired(c: Client, m: Msg)
    ensures Handle(c, m).desired == c.desired
  {
  }

  // ---------------------------------------------------------------- draining ends

  lemma DrainStep(s: System, a: Action)
    requires SystemOk(s) && CanAct(s, a) && Drains(a)
    ensures SystemOk(Act(s, a)) && Work(Act(s, a)) < Work(s)
    ensures Act(s, a).g.registry == s.g.registry && Act(s, a).client.desired == s.client.desired
  {
    hide SystemOk, Work, Step, Handle, Streamed, ReadsInOrder;
    ActKeepsOk(s, a);
    if a.GatewayReads? {
      GatewayReadsLess(s);
    } else {
      ClientReadsLess(s, a);
      ReadingKeepsDesired(s.client, Unread(s)[0]);
    }
  }

  /** Every draining run is finite: it takes no more actions than there is work in flight. */
  lemma {:induction false} DrainingEnds(s: System, actions: seq<Action>)
    requires SystemOk(s) && CanRun(s, actions) && AllDrain(actions)
    ensures |actions| <= Work(s) && SystemOk(Run(s, actions))
    ensures Run(s, actions).g.registry == s.g.registry && Run(s, actions).client.desired == s.client.desired
    decreases |actions|
  {
    hide SystemOk, Work, CanAct, Act, Drains;
    if actions != [] {
      DrainStep(s, actions[0]);
      DrainingEnds(Act(s, actions[0]), actions[1..]);
    }
  }

  lemma {:induction false} OrderExists(keys: set<BackendId>) returns (order: seq<BackendId>)
    ensures Visits(order, keys)
  {
    if keys == {} {
      order := [];
    } else {
      var k :| k in keys;
      var rest := OrderExists(keys - {k});
      order := rest + [k];
    }
  }

  /** As long as something is in flight, one of the queues can move on. */
  lemma SomethingDrains(s: System) returns (a: Action)
    requires SystemOk(s) && !Drained(s)
    ensures Drains(a) && CanAct(s, a)
  {
    hide Inv, ClientOk, StreamsOk;
    if s.up != [] {
      a := GatewayReads;
    } else {
      InFlight(s);
      var order := OrderExists(Reopened(s.client, Unread(s)[0]));
      a := ClientReads(order, Arrival("", 0, 0));
    }
  }

  lemma InFlight(s: System)
    requires SystemOk(s) && !Drained(s) && s.up == []
    ensures Unread(s) != []
  {
    hide SystemOk;
    SystemLog(s);
  }

  /** Nothing more can drain exactly when both queues are empty. */
  lemma DrainedIff(s: System)
    requires SystemOk(s)
    ensures Drained(s) <==> forall a :: Drains(a) ==> !CanAct(s, a)
  {
    hide SystemOk;
    SystemLog(s);
    if !Drained(s) { var a := SomethingDrains(s); }
  }

  /** From any orderly state the queues can be drained. */
  lemma {:induction false} CanDrain(s: System) returns (actions: seq<Action>)
    requires SystemOk(s)
    ensures CanRun(s, actions) && AllDrain(actions) && Drained(Run(s, actions))
    decreases Work(s)
  {
    hide SystemOk, Work, CanAct, Act, Drains, Drained;
    if Drained(s) {
      actions := [];
    } else {
      var a := SomethingDrains(s);
      DrainStep(s, a);
      var rest := CanDrain(Act(s, a));
      actions := [a] + rest;
      assert actions[0] == a && actions[1..] == rest;
    }
  }

  /**
   * Eventual convergence: after any run, whichever way the queues then drain, they are empty after no more actions
   * than there is work in flight, and every backend the user has open and the registry shows ends up subscribed
   * on both sides.
   */
  lemma EventualConvergence(s: System, items: seq<Presence>, actions: seq<Action>, drain: seq<Action>)
    requires Start(s, items) && CanRun(s, actions)
    requires CanRun(Run(s, actions), drain) && AllDrain(drain)
    ensures |drain| <= Work(Run(s, actions))
    ensures var t, u := Run(s, actions), Run(Run(s, actions), drain);
            (forall a :: Drains(a) ==> !CanAct(u, a)) ==>
              Drained(u) && forall b :: b in t.client.desired && b in t.g.registry ==> Converged(u, b)
  {
    hide SystemOk, Start, CanRun, Run, Converged, Drained, Work, CanAct, Drains, AllDrain;
    var t := Run(s, actions);
    RunOk(s, items, actions);
    DrainingEnds(t, drain);
    var u := Run(t, drain);
    DrainedIff(u);
    if Drained(u) {
      forall b | b in t.client.desired && b in t.g.registry ensures Converged(u, b) {
        DrainedConverges(u, b);
      }
    }
  }

  /** So from every reached state some draining run leads to convergence. */
  lemma ConvergenceAttainable(s: System, items: seq<Presence>, actions: seq<Action>) returns (drain: seq<Action>)
    requires Start(s, items) && CanRun(s, actions)
    ensures CanRun(Run(s, actions), drain) && AllDrain(drain) && Drained(Run(Run(s, actions), drain))
    ensures var t, u := Run(s, actions), Run(Run(s, actions), drain);
            forall b :: b in t.client.desired && b in t.g.registry ==> Converged(u, b)
  {
    hide SystemOk, Start, CanRun, Run, Converged, Drained, Work, CanAct, Drains, AllDrain;
    var t := Run(s, actions);
    RunOk(s, items, actions);
    drain := CanDrain(t);
    DrainingEnds(t, drain);
    var u := Run(t, drain);
    forall b | b in t.client.desired && b in t.g.registry ensures Converged(u, b) {
      DrainedConverges(u, b);
    }
  }
}
