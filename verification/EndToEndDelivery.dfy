/** From an owner's relay to the client's streams, and what the loss of a backend does to them. */
module EndToEndDelivery {
  import opened Options
  import opened Storage
  import opened Gateway
  import opened GatewayLogs
  import opened GatewayInvariants
  import opened GatewayRuns
  import opened GatewayHistory
  import opened GatewayDelivery
  import opened Client
  import opened EndToEnd
  import opened EndToEndRuns
  import opened StreamStates
  import Store = RegistryStore
  import Streams

  // ---------------------------------------------------------------- relays

  /**
   * Once nothing is in flight, a relay of the owner of a backend the client is subscribed to becomes the one message the
   * client has to read.
   */
  lemma RelayArrives(s: System, q: PeerId, kind: RelayKind, b: BackendId, payload: Payload)
    requires SystemOk(s) && Drained(s) && IsSubscribed(s.client.records, b)
    requires Owner(s.g.peers, s.g.leases, b) == Some(q)
    ensures var relay := GatewayStep(EvRelay(q, kind, b, payload));
            && CanAct(s, relay)
            && Unread(Act(s, relay)) == [Relayed(b, kind, payload, q)]
            && Act(s, relay).client == s.client && Act(s, relay).streams == s.streams && Act(s, relay).up == []
  {
    hide Inv, Progress, StreamsOk, Mirrors, Believed, Recorded, Step, Owner, Subs;
    CoreAgrees(s.g, s.p, s.client.records, s.up, b);
    LogIsGood(s.g, s.p);
    OwnerConnected(s.g, q, b);
    RelayReaches(s.g, q, kind, b, payload, b, s.p);
    var ev := EvRelay(q, kind, b, payload);
    PresenceKept(s.g, ev);
    assert Log(Step(s.g, ev).sent, s.p)[s.read..] == [Relayed(b, kind, payload, q)];
  }

  lemma OwnerConnected(g: State, q: PeerId, b: BackendId)
    requires Owner(g.peers, g.leases, b) == Some(q)
    ensures q in g.peers
  {
  }

  /** Reading a run event or a patch leaves its stream open, exactly unless the user or the gateway had closed it. */
  lemma ReadingOpens(s: System, a: Action)
    requires CanAct(s, a) && a.ClientReads?
    requires var m := Unread(s)[0]; m.Relayed? && (m.kind.RunEvent? || m.kind.ContentPatch?)
    ensures var key := Streams.Key(Unread(s)[0].backendId, a.arrival.session);
            InState(Act(s, a).streams, key, if InState(s.streams, key, Streams.Closed) then Streams.Closed else Streams.Open)
  {
    hide Handle, Streams.Step, ReadsInOrder;
    var m := Unread(s)[0];
    var key := Streams.Key(m.backendId, a.arrival.session);
    ArrivalMeans(s.streams, Streams.PatchArrived(key, a.arrival.offset, a.arrival.now), key);
    ArrivalMeans(s.streams, Streams.RunArrived(key, a.arrival.now), key);
  }

  /** From the owner's relay to the open stream. */
  lemma RelayOpensStream(s: System, q: PeerId, kind: RelayKind, b: BackendId, payload: Payload, arrival: Arrival)
    requires SystemOk(s) && Drained(s) && IsSubscribed(s.client.records, b)
    requires Owner(s.g.peers, s.g.leases, b) == Some(q)
    requires (kind.RunEvent? || kind.ContentPatch?) && !InState(s.streams, Streams.Key(b, arrival.session), Streams.Closed)
    ensures var actions := [GatewayStep(EvRelay(q, kind, b, payload)), ClientReads([], arrival)];
            && CanRun(s, actions)
            && Drained(Run(s, actions))
            && InState(Run(s, actions).streams, Streams.Key(b, arrival.session), Streams.Open)
  {
    hide SystemOk, Drained, Streams.Step, InState, Handle, Log;
    var relay, read := GatewayStep(EvRelay(q, kind, b, payload)), ClientReads([], arrival);
    RelayArrives(s, q, kind, b, payload);
    var s1 := Act(s, relay);
    NothingReopens(s1, read);
    ReadingOpens(s1, read);
    RunOfTwo(s, relay, read);
    LastRead(s1, read);
  }

  lemma RunOfTwo(s: System, a: Action, b: Action)
    requires CanAct(s, a) && CanAct(Act(s, a), b)
    ensures CanRun(s, [a, b]) && Run(s, [a, b]) == Act(Act(s, a), b)
  {
    hide CanAct, Act;
    var s1 := Act(s, a);
    assert [b][1..] == [] && [a, b][1..] == [b];
    assert CanRun(Act(s1, b), []) && Run(Act(s1, b), []) == Act(s1, b);
    assert CanRun(s1, [b]) && Run(s1, [b]) == Act(s1, b);
  }

  lemma NothingReopens(s: System, a: Action)
    requires IsOpen(s.g.peers, s.p) && Unread(s) != [] && !Unread(s)[0].RegistrySnapshot? && a.ClientReads? && a.order == []
    ensures CanAct(s, a)
  {
  }

  lemma LastRead(s: System, a: Action)
    requires CanAct(s, a) && a.ClientReads? && a.order == [] && |Unread(s)| == 1 && s.up == []
    ensures Drained(Act(s, a))
  {
    hide Handle, Streamed;
  }

  // ---------------------------------------------------------------- losses

  /**
   * Reading an unsubscribe puts streams of its backend in error exactly when the records know the backend without showing
   * it: then the active streams the user wants, with the reason, and otherwise none.
   */
  lemma LossReadIff(s: System, a: Action, key: Streams.Key)
    requires CanAct(s, a) && a.ClientReads? && Unread(s)[0].BackendUnsubscribed? && Streams.Valid(s.streams)
    requires key.backendId == Unread(s)[0].backendId
    ensures var hidden := key.backendId in s.client.records && !Present(s.client.records, key.backendId);
            InState(Act(s, a).streams, key, Streams.Errored) <==>
            hidden && Wants(s.streams, key) && key in s.streams.streams && s.streams.streams[key].state != Streams.Closed
  {
    hide Handle, Streams.Step, ReadsInOrder, Streams.Valid, ReasonText;
    var m := Unread(s)[0];
    var recover := m.backendId !in s.client.records || Present(s.client.records, m.backendId);
    LossMeans(s.streams, m.backendId, ReasonText(m.reason), recover, a.arrival.now, key);
    ErroredIff(s.streams, Streams.Unsubscribed(m.backendId, ReasonText(m.reason), recover, a.arrival.now), key);
  }

  /** Reading an unsubscribe of a known backend leaves it unsubscribed, without data, and says why. */
  lemma LossRecorded(s: System, a: Action)
    requires CanAct(s, a) && a.ClientReads? && Unread(s)[0].BackendUnsubscribed? && Unread(s)[0].backendId in s.client.records
    ensures var m := Unread(s)[0];
            var r := Act(s, a).client.records[m.backendId];
            && !r.subscribed && !r.dataInitialized && r.openState == Store.Unsubscribed && r.capabilities == []
            && r.closureReason == Some(if m.reason.ClientUnsubscribed? then "client_unsubscribed"
                                       else if m.reason.BackendOffline? then "backend_offline" else "epoch_changed")
  {
    hide Streamed, ReadsInOrder, Reopen, ToReopen;
  }

  /**
   * Reading the data of a backend resumes its wanted streams exactly when it is subscribed and registered, and otherwise
   * leaves all streams as they are.
   */
  lemma DataResumesExactly(s: System, a: Action, key: Streams.Key)
    requires CanAct(s, a) && a.ClientReads? && Unread(s)[0].Relayed? && Unread(s)[0].kind.DataSnapshot?
    requires key.backendId == Unread(s)[0].backendId
    ensures var b := key.backendId;
            if IsSubscribed(s.client.records, b) && Present(s.client.records, b)
            then Wants(s.streams, key) && s.streams.desired[key].autoResume && !InState(s.streams, key, Streams.Open) ==>
                   InState(Act(s, a).streams, key, Streams.Opening)
            else Act(s, a).streams == s.streams
  {
    hide Handle, Streams.Step, ReadsInOrder;
    ReadyMeans(s.streams, key.backendId, a.arrival.now, key);
  }

  /** In every run, the loss of a backend the client has read to be subscribed puts none of its streams in error. */
  lemma SubscribedLossRecovers(s: System, items: seq<Presence>, actions: seq<Action>, a: Action, key: Streams.Key)
    requires Start(s, items) && CanRun(s, actions) && CanAct(Run(s, actions), a) && a.ClientReads?
    requires var t := Run(s, actions);
             && Unread(t)[0].BackendUnsubscribed? && key.backendId == Unread(t)[0].backendId
             && t.read <= |Log(t.g.sent, t.p)| && Belief(Log(t.g.sent, t.p)[..t.read], key.backendId).Some?
    ensures !InState(Act(Run(s, actions), a).streams, key, Streams.Errored)
  {
    hide Inv, Start, CanRun, Run, Believed, Recorded, Progress, GoodLog, Readable, LogRegistry, Belief, CanAct, Act,
         Mirrors, Consistent, Streams.Valid;
    var t := Run(s, actions);
    var log := Log(t.g.sent, t.p);
    RunOk(s, items, actions);
    LogIsGood(t.g, t.p);
    GoodPrefix(log, t.g.granted, t.read);
    BeliefShown(log[..t.read], t.g.granted);
    BelievedVisible(t.client.records, log, t.read, t.up, key.backendId);
    LossReadIff(t, a, key);
  }

  lemma BelievedVisible(records: Store.Records, log: seq<Msg>, k: nat, up: seq<Request>, b: BackendId)
    requires Core(records, log, k, up) && Consistent(log[..k], LogRegistry(log[..k])) && Belief(log[..k], b).Some?
    ensures Present(records, b)
  {
    hide LogRegistry, Belief, Recorded, Believed;
    assert RecordMirrors(Lookup(records, b), Lookup(LogRegistry(log[..k]), b));
  }
}
