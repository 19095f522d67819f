/** A listener of the facade over whole runs of gateway, client and queues. */
module EndToEndListening {
  import opened Options
  import opened Storage
  import opened Gateway
  import opened GatewayLogs
  import opened GatewayInvariants
  import opened GatewayRuns
  import opened GatewayHistory
  import opened GatewayNotices
  import opened Client
  import opened EndToEnd
  import opened EndToEndRuns
  import opened Listening
  import Store = RegistryStore

  // ---------------------------------------------------------------- what a listener hears during a run

  /** The events of an action turn what has been heard from `heard` into heard'. */
  ghost predicate Hears(s: System, a: Action, heard: Heard, heard': Heard)
    requires CanAct(s, a)
  {
    var records := s.client.records;
    match a
    case ClientReads(order, _) =>
      if Unread(s)[0].RegistrySnapshot? then HearsSnapshot(records, Unread(s)[0], order, heard, heard')
      else heard' == Hear(heard, MessageChanges(records, Unread(s)[0]))
    case UserOpens(b) => heard' == Hear(heard, OpenChanges(records, b))
    case UserCloses(b, _) => heard' == Hear(heard, CloseChanges(records, b))
    case _ => heard' == heard
  }

  /** However the registry is listed and in whatever order the records are visited. */
  ghost predicate HearsSnapshot(records: Store.Records, m: Msg, order: seq<BackendId>, heard: Heard, heard': Heard)
    requires m.RegistrySnapshot?
  {
    exists items, removed ::
      Store.ListsRegistry(items, m.items) && HeardSnapshot(records, items, removed, order, heard, heard')
  }

  ghost predicate HeardSnapshot(records: Store.Records, items: seq<Presence>, removed: seq<BackendId>,
                                order: seq<BackendId>, heard: Heard, heard': Heard) {
    Visits(removed, records.Keys) && heard' == Hear(heard, SnapshotChanges(records, items, removed, order))
  }

  /** What has been heard after each action. */
  ghost predicate ListensTo(s: System, actions: seq<Action>, heards: seq<Heard>)
    requires CanRun(s, actions)
    decreases |actions|
  {
    && |heards| == |actions| + 1
    && (actions != [] ==>
          Hears(s, actions[0], heards[0], heards[1]) && ListensTo(Act(s, actions[0]), actions[1..], heards[1..]))
  }

  // ---------------------------------------------------------------- what may be missed, and for how long

  /** An unsubscribe of b, or its answer, is in flight. */
  ghost predicate Closing(s: System, b: BackendId) {
    Unsub(b) in s.up || PendingClose(Log(s.g.sent, s.p), s.read, b)
  }

  /** Data that came for an unsubscribed backend will be dropped again. */
  ghost predicate EarlyDataDropped(s: System) {
    forall b :: b in s.client.records && IsEarly(s.client.records[b]) ==> Closing(s, b)
  }

  predicate IsEarly(r: Store.Record) {
    !r.subscribed && r.dataInitialized
  }

  /** A listener knows the state of b, except that it may have missed that b is ready while an unsubscribe is in flight. */
  ghost predicate Aware(s: System, heard: Heard, b: BackendId) {
    || KnownState(Lookup(heard, b), Lookup(s.client.records, b))
    || (b in s.client.records && s.client.records[b].runtimeState.Ready? && Closing(s, b))
  }

  ghost predicate ListenerOk(s: System, heard: Heard) {
    EarlyDataDropped(s) && forall b :: Aware(s, heard, b)
  }

  // ---------------------------------------------------------------- catching up

  /** What a listener that had missed nothing would know. */
  function Corrected(heard: Heard, records: Store.Records): Heard {
    heard + map b | b in records :: records[b].runtimeState
  }

  lemma CorrectedInStep(s: System, heard: Heard)
    requires ListenerOk(s, heard)
    ensures InStep(Corrected(heard, s.client.records), s.client.records)
  {
    forall b ensures KnownState(Lookup(Corrected(heard, s.client.records), b), Lookup(s.client.records, b)) {
      assert Aware(s, heard, b);
    }
  }

  /**
   * Events that keep a listener in step leave any listener knowing the state of b, unless it had missed that b is ready
   * and b still is.
   */
  lemma Relearns(s: System, heard: Heard, changes: seq<StateChange>, records': Store.Records, b: BackendId)
    requires ListenerOk(s, heard) && InStep(Hear(Corrected(heard, s.client.records), changes), records')
    ensures || KnownState(Lookup(Hear(heard, changes), b), Lookup(records', b))
            || (b in records' && records'[b].runtimeState.Ready? && Closing(s, b))
  {
    hide InStep, Hear, Closing, EarlyDataDropped;
    var full := Corrected(heard, s.client.records);
    CorrectedInStep(s, heard);
    KnownAt(full, s.client.records, b);
    KnownAt(Hear(full, changes), records', b);
    HearAlike(heard, full, changes, b);
    assert Aware(s, heard, b);
  }

  lemma KnownAt(heard: Heard, records: Store.Records, b: BackendId)
    requires InStep(heard, records)
    ensures KnownState(Lookup(heard, b), Lookup(records, b))
  {
  }

  lemma CoreCached(records: Store.Records, log: seq<Msg>, k: nat, up: seq<Request>)
    requires Core(records, log, k, up)
    ensures Store.Cached(records)
  {
    hide Believed, Recorded, LogRegistry;
    forall b | b in records ensures records[b].runtimeState == Store.Derive(records[b]) {
      assert RecordMirrors(Lookup(records, b), Lookup(LogRegistry(log[..k]), b));
    }
  }

  // ---------------------------------------------------------------- what stays in flight

  lemma ClosingStays(s: System, s': System, b: BackendId)
    requires Closing(s, b) && s'.p == s.p && s'.read == s.read
    requires Unsub(b) in s.up ==> Unsub(b) in s'.up || PendingClose(Log(s'.g.sent, s.p), s.read, b)
    requires Log(s.g.sent, s.p) <= Log(s'.g.sent, s.p)
    ensures Closing(s', b)
  {
    var log, log' := Log(s.g.sent, s.p), Log(s'.g.sent, s.p);
    if PendingClose(log, s.read, b) {
      var j :| s.read <= j < |log| && ClosesAt(log, j, b);
      assert ClosesAt(log', j, b);
    }
  }

  lemma ClosingUnread(s: System, s': System, b: BackendId)
    requires Closing(s, b) && s'.g == s.g && s'.p == s.p && s'.read == s.read + 1 && s.read < |Log(s.g.sent, s.p)|
    requires forall x :: x in s.up ==> x in s'.up
    requires !ClosesAt(Log(s.g.sent, s.p), s.read, b)
    ensures Closing(s', b)
  {
  }

  /** Only the gateway moves: the records stay, and every unsubscribe stays in flight. */
  lemma GatewayListened(s: System, a: Action, heard: Heard)
    requires SystemOk(s) && CanAct(s, a) && ListenerOk(s, heard) && (a.GatewayStep? || a.GatewayReads?)
    ensures ListenerOk(Act(s, a), heard)
  {
    hide Inv, Step, ClientOk, StreamsOk, KnownState, Closing, Enabled, PendingClose, Extends;
    var ev := if a.GatewayStep? then a.ev else RequestEvent(s.p, s.up[0]);
    var log := Log(s.g.sent, s.p);
    LogIsGood(s.g, s.p);
    if a.GatewayReads? { StaysOpen(s.g, s.p, s.up[0]); }
    StepExtends(s.g, ev, s.p);
    Prefix(log, Log(Step(s.g, ev).sent, s.p), Asked(ev, s.p));
    var s' := Act(s, a);
    forall b | Closing(s, b) ensures Closing(s', b) {
      if a.GatewayReads? && s.up[0] == Unsub(b) {
        LogLong(s);
        GrantedUnsubscribe(s.g, s.p, b, s.read);
      }
      ClosingStays(s, s', b);
    }
    forall b ensures Aware(s', heard, b) { assert Aware(s, heard, b); }
  }

  lemma LogLong(s: System)
    requires SystemOk(s)
    ensures s.read <= |Log(s.g.sent, s.p)|
  {
    hide Inv, ClientOk;
  }

  // ---------------------------------------------------------------- reading a message

  /** Where a record's early data comes from. */
  lemma EarlyOrigin(c: Client, m: Msg, b: BackendId)
    requires b in Handle(c, m).records && IsEarly(Handle(c, m).records[b])
    ensures b in c.records
    ensures || (IsEarly(c.records[b]) && !(m.BackendUnsubscribed? && m.backendId == b))
            || (m.Relayed? && m.kind.DataSnapshot? && m.backendId == b && !c.records[b].subscribed)
  {
  }

  /** A relay for a backend the client has closed: the unsubscribe, or its answer, is still in flight. */
  lemma LateRelay(s: System)
    requires SystemOk(s) && Unread(s) != [] && Unread(s)[0].Relayed?
    ensures !IsSubscribed(s.client.records, Unread(s)[0].backendId) ==> Closing(s, Unread(s)[0].backendId)
  {
    hide Inv, Progress, Mirrors, Believed, StreamsOk, PendingClose, Belief;
    RelaySubscribed(s.g, s.p, s.read);
  }

  lemma NextUnread(s: System, a: Action)
    requires CanAct(s, a) && a.ClientReads?
    ensures var s' := Act(s, a);
            && s.read < |Log(s.g.sent, s.p)| && Unread(s) != [] && Unread(s)[0] == Log(s.g.sent, s.p)[s.read]
            && s'.g == s.g && s'.p == s.p && s'.read == s.read + 1 && s'.client == Handle(s.client, Unread(s)[0])
            && forall x :: x in s.up ==> x in s'.up
  {
    hide Handle, Streamed, ReadsInOrder;
  }

  /** Reading anything but the answer to its unsubscribe leaves b's closing in flight. */
  lemma ClosingAfterRead(s: System, a: Action, b: BackendId)
    requires CanAct(s, a) && a.ClientReads? && Closing(s, b)
    requires !(Unread(s)[0].BackendUnsubscribed? && Unread(s)[0].backendId == b)
    ensures Closing(Act(s, a), b)
  {
    hide CanAct, Closing, Act;
    NextUnread(s, a);
    ClosingUnread(s, Act(s, a), b);
  }

  lemma ReadKeepsEarly(s: System, a: Action)
    requires SystemOk(s) && CanAct(s, a) && a.ClientReads? && EarlyDataDropped(s)
    ensures EarlyDataDropped(Act(s, a))
  {
    hide SystemOk, CanAct, Act, Handle, Closing;
    NextUnread(s, a);
    var m, s' := Unread(s)[0], Act(s, a);
    if m.Relayed? { LateRelay(s); }
    forall b | b in s'.client.records && IsEarly(s'.client.records[b]) ensures Closing(s', b) {
      EarlyOrigin(s.client, m, b);
      ClosingAfterRead(s, a, b);
    }
  }

  /** What the events of a message, as another one hears them, make of a listener that has missed nothing. */
  lemma ReadInStep(s: System, a: Action, heard: Heard, heard': Heard, full: Heard) returns (changes: seq<StateChange>)
    requires SystemOk(s) && CanAct(s, a) && a.ClientReads? && Hears(s, a, heard, heard')
    requires InStep(full, s.client.records)
    ensures heard' == Hear(heard, changes)
    ensures InStep(Hear(full, changes), Handle(s.client, Unread(s)[0]).records) <==> !Withheld(s.client.records, Unread(s)[0])
  {
    hide Inv, Progress, StreamsOk, InStep, Mirrors, Believed, Recorded, Store.Cached, Hear, SnapshotChanges, MessageChanges,
         Store.ApplySnapshot, Store.ApplyRegistry, Reopen, ToReopen, Store.ListsRegistry, Withheld, Visits;
    var c, m := s.client, Unread(s)[0];
    CoreCached(c.records, Log(s.g.sent, s.p), s.read, s.up);
    if m.RegistrySnapshot? {
      var items, removed :|
        Store.ListsRegistry(items, m.items) && HeardSnapshot(c.records, items, removed, a.order, heard, heard');
      changes := SnapshotChanges(c.records, items, removed, a.order);
      Store.ListingIrrelevant(c.records, items, m.items);
      SnapshotHeard(full, c, items, removed, a.order);
      NeverWithheldSnapshot(c.records, m);
    } else {
      changes := MessageChanges(c.records, m);
      MessageHeardIff(full, c.records, m);
    }
  }

  lemma NeverWithheldSnapshot(records: Store.Records, m: Msg)
    requires m.RegistrySnapshot?
    ensures !Withheld(records, m)
  {
  }

  /** A withheld event: the listener stays as aware as it was, for the unsubscribe is still in flight. */
  lemma WithheldAware(s: System, a: Action, heard: Heard, heard': Heard, b: BackendId)
    requires SystemOk(s) && CanAct(s, a) && a.ClientReads? && Hears(s, a, heard, heard') && ListenerOk(s, heard)
    requires Withheld(s.client.records, Unread(s)[0])
    ensures Aware(Act(s, a), heard', b)
  {
    hide SystemOk, CanAct, Act, Closing, KnownState;
    NextUnread(s, a);
    var m := Unread(s)[0];
    assert MessageChanges(s.client.records, m) == [];
    NothingHeard(heard);
    assert Aware(s, heard, b);
    if b == m.backendId {
      assert IsEarly(s.client.records[b]);
    } else {
      assert Lookup(Handle(s.client, m).records, b) == Lookup(s.client.records, b);
    }
    if Closing(s, b) { ClosingAfterRead(s, a, b); }
  }

  /** The answer to an unsubscribe leaves nothing ready. */
  lemma ClosedNotReady(c: Client, m: Msg)
    requires m.BackendUnsubscribed? && m.backendId in Handle(c, m).records
    ensures !Handle(c, m).records[m.backendId].runtimeState.Ready?
  {
  }

  lemma ReadListened(s: System, a: Action, heard: Heard, heard': Heard)
    requires SystemOk(s) && CanAct(s, a) && a.ClientReads? && Hears(s, a, heard, heard') && ListenerOk(s, heard)
    ensures ListenerOk(Act(s, a), heard')
  {
    hide SystemOk, CanAct, Hears, Act, InStep, Withheld, Handle, Closing, KnownState, EarlyDataDropped;
    NextUnread(s, a);
    var m, s' := Unread(s)[0], Act(s, a);
    ReadKeepsEarly(s, a);
    if Withheld(s.client.records, m) {
      forall b ensures Aware(s', heard', b) { WithheldAware(s, a, heard, heard', b); }
    } else {
      CorrectedInStep(s, heard);
      var changes := ReadInStep(s, a, heard, heard', Corrected(heard, s.client.records));
      forall b ensures Aware(s', heard', b) {
        Relearns(s, heard, changes, s'.client.records, b);
        if m.BackendUnsubscribed? && m.backendId == b {
          if b in s'.client.records { ClosedNotReady(s.client, m); }
        } else if Closing(s, b) {
          ClosingAfterRead(s, a, b);
        }
      }
    }
  }

  // ---------------------------------------------------------------- the user and the collector

  lemma CollectedHeard(heard: Heard, records: Store.Records)
    requires Store.Cached(records) && InStep(heard, records)
    ensures InStep(heard, Store.Collect(records))
  {
    forall b ensures KnownState(Lookup(heard, b), Lookup(Store.Collect(records), b)) {
      KnownAt(heard, records, b);
    }
  }

  /** The records after an action of the client's own, and what is announced of it. */
  lemma OwnInStep(s: System, a: Action, heard: Heard, heard': Heard, full: Heard) returns (changes: seq<StateChange>)
    requires SystemOk(s) && CanAct(s, a) && Hears(s, a, heard, heard') && InStep(full, s.client.records)
    requires a.UserOpens? || a.UserCloses? || a.StreamRequested? || a.ClientCollects?
    ensures heard' == Hear(heard, changes)
    ensures InStep(Hear(full, changes), Act(s, a).client.records)
  {
    hide Inv, Progress, StreamsOk, InStep, Mirrors, Believed, Recorded, Store.Cached, Hear,
         OpenedChanges, CloseChanges, Store.Collect, Store.Subscribe, Streams.Step, StreamsClosed, CloseBackend;
    var records := s.client.records;
    CoreCached(records, Log(s.g.sent, s.p), s.read, s.up);
    NothingHeard(heard);
    NothingHeard(full);
    changes := [];
    match a
    case UserOpens(b) =>
      changes := OpenChanges(records, b);
      if Present(records, b) { OpeningHeard(full, records, b); }
    case UserCloses(b, _) =>
      changes := CloseChanges(records, b);
      ClosingHeard(full, s.client, b);
    case StreamRequested(_) =>
    case ClientCollects(_) => CollectedHeard(full, records);
  }

  lemma OwnEarly(s: System, a: Action, b: BackendId)
    requires CanAct(s, a) && (a.UserOpens? || a.UserCloses? || a.StreamRequested? || a.ClientCollects?)
    requires b in Act(s, a).client.records && IsEarly(Act(s, a).client.records[b])
    ensures b in s.client.records && IsEarly(s.client.records[b])
  {
    hide Streams.Step, StreamsClosed;
  }

  lemma OwnCloses(s: System, a: Action, b: BackendId)
    requires CanAct(s, a) && (a.UserOpens? || a.UserCloses? || a.StreamRequested? || a.ClientCollects?) && Closing(s, b)
    ensures Closing(Act(s, a), b)
  {
    hide Streams.Step, StreamsClosed, OpenBackend, CloseBackend;
  }

  lemma OwnListened(s: System, a: Action, heard: Heard, heard': Heard)
    requires SystemOk(s) && CanAct(s, a) && Hears(s, a, heard, heard') && ListenerOk(s, heard)
    requires a.UserOpens? || a.UserCloses? || a.StreamRequested? || a.ClientCollects?
    ensures ListenerOk(Act(s, a), heard')
  {
    hide SystemOk, CanAct, Hears, Act, InStep, Closing, KnownState;
    var s' := Act(s, a);
    CorrectedInStep(s, heard);
    var changes := OwnInStep(s, a, heard, heard', Corrected(heard, s.client.records));
    forall b | b in s'.client.records && IsEarly(s'.client.records[b]) ensures Closing(s', b) {
      OwnEarly(s, a, b);
      OwnCloses(s, a, b);
    }
    forall b ensures Aware(s', heard', b) {
      Relearns(s, heard, changes, s'.client.records, b);
      if Closing(s, b) { OwnCloses(s, a, b); }
    }
  }

  // ---------------------------------------------------------------- over a run

  lemma {:induction false} RunListened(s: System, actions: seq<Action>, heards: seq<Heard>)
    requires SystemOk(s) && CanRun(s, actions) && ListensTo(s, actions, heards) && ListenerOk(s, heards[0])
    ensures ListenerOk(Run(s, actions), heards[|actions|]) && SystemOk(Run(s, actions))
    decreases |actions|
  {
    hide SystemOk, CanAct, Act, Hears, ListenerOk;
    if actions != [] {
      var a := actions[0];
      if a.GatewayStep? || a.GatewayReads? {
        SilentGateway(s, a, heards[0], heards[1]);
        GatewayListened(s, a, heards[0]);
      } else if a.ClientReads? {
        ReadListened(s, a, heards[0], heards[1]);
      } else {
        OwnListened(s, a, heards[0], heards[1]);
      }
      ActKeepsOk(s, a);
      RunListened(Act(s, a), actions[1..], heards[1..]);
    }
  }

  lemma SilentGateway(s: System, a: Action, heard: Heard, heard': Heard)
    requires CanAct(s, a) && Hears(s, a, heard, heard') && (a.GatewayStep? || a.GatewayReads?)
    ensures heard' == heard
  {
  }

  /** At its start a client holds no data yet. */
  lemma StartListened(s: System, items: seq<Presence>, heard: Heard)
    requires Start(s, items) && InStep(heard, s.client.records)
    ensures ListenerOk(s, heard)
  {
    hide Reachable, Belief, LogRegistry, Closing, KnownState, Store.UpsertDefaults;
    forall b | b in s.client.records ensures !s.client.records[b].dataInitialized {
      BootstrapRecord(items, LogRegistry(Log(s.g.sent, s.p)[..s.read]), Log(s.g.sent, s.p)[..s.read], b);
    }
    forall b ensures Aware(s, heard, b) { KnownAt(heard, s.client.records, b); }
  }

  /**
   * A listener that was in step when the client started knows, after any run, the state of every backend, except that it
   * may have missed that a backend is ready while an unsubscribe of it is in flight; drained, it has missed nothing.
   */
  lemma ListenerFollows(s: System, items: seq<Presence>, actions: seq<Action>, heards: seq<Heard>)
    requires Start(s, items) && CanRun(s, actions)
    requires |heards| == |actions| + 1 && ListensTo(s, actions, heards) && InStep(heards[0], s.client.records)
    ensures var t, heard := Run(s, actions), heards[|actions|];
            && (forall b :: Aware(t, heard, b))
            && (Drained(t) ==> InStep(heard, t.client.records))
  {
    hide Inv, Start, SystemOk, CanRun, Run, ListensTo, KnownState, EarlyDataDropped, Reachable;
    assert Reachable(s.g) by { StartsReachable(s, items); }
    ReachableInv(s.g);
    StartOk(s, items);
    StartListened(s, items, heards[0]);
    RunListened(s, actions, heards);
    var t := Run(s, actions);
    if Drained(t) {
      forall b ensures KnownState(Lookup(heards[|actions|], b), Lookup(t.client.records, b)) {
        assert Aware(t, heards[|actions|], b);
      }
    }
  }

  lemma StartsReachable(s: System, items: seq<Presence>)
    requires Start(s, items)
    ensures Reachable(s.g)
  {
  }

  // ---------------------------------------------------------------- in step at every point of a run

  /** The client reads a confirmation that is not announced. */
  ghost predicate Withholds(s: System, a: Action)
    requires CanAct(s, a)
  {
    a.ClientReads? && Withheld(s.client.records, Unread(s)[0])
  }

  /** The listener knows the state of every backend at every point of the run. */
  ghost predicate AlwaysInStep(s: System, actions: seq<Action>, heards: seq<Heard>)
    requires CanRun(s, actions) && |heards| == |actions| + 1
    decreases |actions|
  {
    && InStep(heards[0], s.client.records)
    && (actions != [] ==> AlwaysInStep(Act(s, actions[0]), actions[1..], heards[1..]))
  }

  ghost predicate NeverWithholds(s: System, actions: seq<Action>)
    requires CanRun(s, actions)
    decreases |actions|
  {
    actions != [] ==> !Withholds(s, actions[0]) && NeverWithholds(Act(s, actions[0]), actions[1..])
  }

  /** One action keeps a listener in step exactly unless it withholds something. */
  lemma ActInStepIff(s: System, a: Action, heard: Heard, heard': Heard)
    requires SystemOk(s) && CanAct(s, a) && Hears(s, a, heard, heard') && InStep(heard, s.client.records)
    ensures InStep(heard', Act(s, a).client.records) <==> !Withholds(s, a)
  {
    hide SystemOk, CanAct, Hears, Act, InStep, Withheld;
    if a.GatewayStep? || a.GatewayReads? {
      SilentGateway(s, a, heard, heard');
      GatewayKeepsRecords(s, a);
    } else if a.ClientReads? {
      NextUnread(s, a);
      var _ := ReadInStep(s, a, heard, heard', heard);
    } else {
      var _ := OwnInStep(s, a, heard, heard', heard);
    }
  }

  lemma GatewayKeepsRecords(s: System, a: Action)
    requires CanAct(s, a) && (a.GatewayStep? || a.GatewayReads?)
    ensures Act(s, a).client == s.client
  {
    hide Step;
  }

  /**
   * A listener that starts in step is in step at every point of a run exactly when the run reads no confirmation that is
   * withheld.
   */
  lemma {:induction false} AlwaysInStepIff(s: System, actions: seq<Action>, heards: seq<Heard>)
    requires SystemOk(s) && CanRun(s, actions)
    requires |heards| == |actions| + 1 && ListensTo(s, actions, heards) && InStep(heards[0], s.client.records)
    ensures AlwaysInStep(s, actions, heards) <==> NeverWithholds(s, actions)
    decreases |actions|
  {
    hide SystemOk, CanAct, Act, Hears, InStep, Withholds;
    if actions != [] {
      var s' := Act(s, actions[0]);
      ActInStepIff(s, actions[0], heards[0], heards[1]);
      if InStep(heards[1], s'.client.records) {
        ActKeepsOk(s, actions[0]);
        AlwaysInStepIff(s', actions[1..], heards[1..]);
      } else {
        OutOfStep(s', actions[1..], heards[1..]);
      }
    }
  }

  lemma OutOfStep(s: System, actions: seq<Action>, heards: seq<Heard>)
    requires CanRun(s, actions) && |heards| == |actions| + 1 && !InStep(heards[0], s.client.records)
    ensures !AlwaysInStep(s, actions, heards)
  {
    hide InStep;
  }

  /** In every run of the gateway and the client. */
  lemma ListenerInStepIff(s: System, items: seq<Presence>, actions: seq<Action>, heards: seq<Heard>)
    requires Start(s, items) && CanRun(s, actions)
    requires |heards| == |actions| + 1 && ListensTo(s, actions, heards) && InStep(heards[0], s.client.records)
    ensures AlwaysInStep(s, actions, heards) <==> NeverWithholds(s, actions)
  {
    hide Inv, Start, SystemOk, CanRun, ListensTo, InStep, Reachable, AlwaysInStep, NeverWithholds;
    StartsReachable(s, items);
    ReachableInv(s.g);
    StartOk(s, items);
    AlwaysInStepIff(s, actions, heards);
  }

  // ---------------------------------------------------------------- how a listener misses a state

  /** The user opens b again and closes it, while its owner relays data and the gateway answers the second subscribe. */
  function Overtaking(q: PeerId, b: BackendId, arrival: Arrival): seq<Action> {
    [UserOpens(b)] + ([UserCloses(b, arrival.now)] + ([GatewayStep(EvRelay(q, DataSnapshot, b, ""))] +
    ([GatewayReads] + ([ClientReads([], arrival)] + ([ClientReads([], arrival)] + [])))))
  }

  /** The gateway's part. */
  lemma RelayThenConfirm(g: State, p: PeerId, q: PeerId, b: BackendId)
    requires Inv(g) && IsOpen(g.peers, p) && p in Subs(g.subscriptions, b) && Owner(g.peers, g.leases, b) == Some(q)
    ensures var g1 := Step(g, EvRelay(q, DataSnapshot, b, ""));
            var g2 := Step(g1, EvSubscribe(p, b));
            && p in g.sent && b in g.leases && b in g.registry
            && Enabled(g, EvRelay(q, DataSnapshot, b, "")) && IsOpen(g1.peers, p) && IsOpen(g2.peers, p)
            && Log(g1.sent, p) == Log(g.sent, p) + [Relayed(b, DataSnapshot, "", q)]
            && Log(g2.sent, p) == Log(g1.sent, p) + [BackendSubscribed(b, g.leases[b].epoch, g.registry[b].capabilities)]
  {
    hide Counted, IdentitiesOk, ProxyOk, LogsOk, Subscribe;
    var g1 := Step(g, EvRelay(q, DataSnapshot, b, ""));
    assert g.peers[q].grant == Some(Grant(b, g.leases[b].epoch));
    assert IsOwner(g.peers, g.leases, q);
    assert p in g.peers && b in g.peers[p].subscribed;
    SubscribeLog(g1, p, b, p);
  }

  /** The client's part: the data comes after the close, the confirmation of the second subscribe after the data. */
  lemma ConfirmedEarly(c: Client, q: PeerId, b: BackendId, e: Epoch, caps: seq<string>)
    requires Present(c.records, b) && IsSubscribed(c.records, b)
    ensures var c1 := OpenBackend(c, b);
            var c2 := CloseBackend(c1, b);
            var c3 := Handle(c2, Relayed(b, DataSnapshot, "", q));
            var c4 := Handle(c3, BackendSubscribed(b, e, caps));
            && OpenRequests(c, b) == [Sub(b)] && CloseRequests(c1, b) == [Unsub(b)]
            && Withheld(c3.records, BackendSubscribed(b, e, caps))
            && b in c2.records && c2.records[b].runtimeState.Visible?
            && b in c4.records && c4.records[b].runtimeState.Ready?
  {
  }

  /** What a listener in step hears of it. */
  lemma ConfirmationUnheard(heard: Heard, c: Client, q: PeerId, b: BackendId, e: Epoch, caps: seq<string>)
    requires Store.Cached(c.records) && InStep(heard, c.records) && Present(c.records, b) && IsSubscribed(c.records, b)
    ensures var c1 := OpenBackend(c, b);
            var c2 := CloseBackend(c1, b);
            var c3 := Handle(c2, Relayed(b, DataSnapshot, "", q));
            var heard1 := Hear(heard, OpenChanges(c.records, b));
            var heard2 := Hear(heard1, CloseChanges(c1.records, b));
            var heard3 := Hear(heard2, MessageChanges(c2.records, Relayed(b, DataSnapshot, "", q)));
            Lookup(Hear(heard3, MessageChanges(c3.records, BackendSubscribed(b, e, caps))), b) == Some(Store.Visible)
  {
    hide InStep, Store.Cached, Hear, OpenChanges, CloseChanges, Announce, KnownState;
    var c1 := OpenBackend(c, b);
    var c2 := CloseBackend(c1, b);
    var relayed := Relayed(b, DataSnapshot, "", q);
    var c3 := Handle(c2, relayed);
    var heard1 := Hear(heard, OpenChanges(c.records, b));
    var heard2 := Hear(heard1, CloseChanges(c1.records, b));
    ConfirmedEarly(c, q, b, e, caps);
    OpeningHeard(heard, c.records, b);
    ClosingHeard(heard1, c1, b);
    KnownAt(heard2, c2.records, b);
    MessageHeardIff(heard2, c2.records, relayed);
    KnownAt(Hear(heard2, MessageChanges(c2.records, relayed)), c3.records, b);
    assert MessageChanges(c3.records, BackendSubscribed(b, e, caps)) == [];
    NothingHeard(Hear(heard2, MessageChanges(c2.records, relayed)));
    assert c3.records[b].runtimeState.Visible?;
    VisibleHeard(Lookup(Hear(heard2, MessageChanges(c2.records, relayed)), b), c3.records[b]);
  }

  lemma VisibleHeard(heard: Option<Store.RuntimeState>, r: Store.Record)
    requires KnownState(heard, Some(r)) && r.runtimeState.Visible?
    ensures heard == Some(Store.Visible)
  {
  }

  lemma RunFirst(s: System, a: Action, rest: seq<Action>, heard: Heard, heards: seq<Heard>)
    requires CanAct(s, a) && CanRun(Act(s, a), rest)
    requires heards != [] && Hears(s, a, heard, heards[0]) && ListensTo(Act(s, a), rest, heards)
    ensures CanRun(s, [a] + rest) && Run(s, [a] + rest) == Run(Act(s, a), rest)
    ensures ListensTo(s, [a] + rest, [heard] + heards)
  {
    hide CanAct, Act, Hears;
    assert ([a] + rest)[1..] == rest && ([heard] + heards)[1..] == heards;
  }

  lemma ThreeActions(s: System, a1: Action, a2: Action, a3: Action, rest: seq<Action>, h1: Heard, h2: Heard, h3: Heard,
                     heards: seq<Heard>)
    requires CanAct(s, a1) && CanAct(Act(s, a1), a2) && CanAct(Act(Act(s, a1), a2), a3)
    requires heards != [] && Hears(s, a1, h1, h2) && Hears(Act(s, a1), a2, h2, h3)
    requires Hears(Act(Act(s, a1), a2), a3, h3, heards[0])
    requires CanRun(Act(Act(Act(s, a1), a2), a3), rest) && ListensTo(Act(Act(Act(s, a1), a2), a3), rest, heards)
    ensures var actions := [a1] + ([a2] + ([a3] + rest));
            && CanRun(s, actions) && Run(s, actions) == Run(Act(Act(Act(s, a1), a2), a3), rest)
            && ListensTo(s, actions, [h1] + ([h2] + ([h3] + heards)))
  {
    hide CanAct, Act, Hears, Run, CanRun, ListensTo;
    var s1 := Act(s, a1);
    var s2 := Act(s1, a2);
    RunFirst(s2, a3, rest, h3, heards);
    RunFirst(s1, a2, [a3] + rest, h2, [h3] + heards);
    RunFirst(s, a1, [a2] + ([a3] + rest), h1, [h2] + ([h3] + heards));
  }

  lemma NoAction(s: System, heard: Heard)
    ensures CanRun(s, []) && Run(s, []) == s && ListensTo(s, [], [heard])
  {
  }

  /** The user's two actions, with nothing else in flight. */
  lemma UserOvertakes(s: System, q: PeerId, b: BackendId, now: Time)
    requires IsOpen(s.g.peers, s.p) && s.up == [] && Present(s.client.records, b) && IsSubscribed(s.client.records, b)
    ensures CanAct(s, UserOpens(b))
    ensures var s1 := Act(s, UserOpens(b));
            && s1.client == OpenBackend(s.client, b)
            && CanAct(s1, UserCloses(b, now))
            && var s2 := Act(s1, UserCloses(b, now));
            && s2.client == CloseBackend(s1.client, b) && s2.up == [Sub(b), Unsub(b)]
            && s2.g == s.g && s2.p == s.p && s2.read == s.read
  {
    hide OpenBackend, CloseBackend, OpenRequests, CloseRequests, StreamsClosed;
    ConfirmedEarly(s.client, q, b, 0, []);
  }

  /** The gateway's two, on a connection that has been read to its end. */
  lemma GatewayOvertakes(s: System, q: PeerId, b: BackendId)
    requires Inv(s.g) && IsOpen(s.g.peers, s.p) && s.p in Subs(s.g.subscriptions, b)
    requires Owner(s.g.peers, s.g.leases, b) == Some(q) && s.up == [Sub(b), Unsub(b)] && s.read == |Log(s.g.sent, s.p)|
    ensures b in s.g.leases && b in s.g.registry
    ensures var relay := GatewayStep(EvRelay(q, DataSnapshot, b, ""));
            && CanAct(s, relay)
            && var s1 := Act(s, relay);
            && s1.client == s.client && s1.up == s.up && CanAct(s1, GatewayReads)
            && var s2 := Act(s1, GatewayReads);
            && s2.client == s.client && s2.up == [Unsub(b)] && s2.p == s.p && s2.read == s.read && IsOpen(s2.g.peers, s2.p)
            && Unread(s2) == [Relayed(b, DataSnapshot, "", q),
                              BackendSubscribed(b, s.g.leases[b].epoch, s.g.registry[b].capabilities)]
  {
    hide Inv, Step, Owner, Subs, Log;
    RelayThenConfirm(s.g, s.p, q, b);
    assert [Sub(b), Unsub(b)][1..] == [Unsub(b)];
  }

  /** The client's two reads. */
  lemma ClientOvertakes(s: System, first: Msg, second: Msg, arrival: Arrival)
    requires IsOpen(s.g.peers, s.p) && Unread(s) == [first, second] && !first.RegistrySnapshot? && !second.RegistrySnapshot?
    ensures CanAct(s, ClientReads([], arrival))
    ensures var s1 := Act(s, ClientReads([], arrival));
            && s1.client == Handle(s.client, first) && Unread(s1) == [second]
            && CanAct(s1, ClientReads([], arrival))
            && Act(s1, ClientReads([], arrival)).client == Handle(s1.client, second)
            && Act(s1, ClientReads([], arrival)).up == s.up
  {
    hide Handle, Streamed, Log;
    assert SubAll([]) == [];
  }

  /**
   * In any drained state with a backend that is subscribed and whose owner is connected, these six actions leave a listener
   * believing that the backend is merely visible while it is ready.
   */
  lemma ListenerMisses(s: System, q: PeerId, b: BackendId, arrival: Arrival, heard: Heard)
    requires SystemOk(s) && Drained(s) && IsSubscribed(s.client.records, b)
    requires Owner(s.g.peers, s.g.leases, b) == Some(q) && InStep(heard, s.client.records)
    ensures CanRun(s, Overtaking(q, b, arrival))
    ensures var t := Run(s, Overtaking(q, b, arrival));
            && b in t.client.records && t.client.records[b].runtimeState.Ready? && Unsub(b) in t.up
            && exists heards :: |heards| == 7 && heards[0] == heard && ListensTo(s, Overtaking(q, b, arrival), heards)
                                && Lookup(heards[6], b) == Some(Store.Visible)
  {
    hide Inv, Progress, StreamsOk, CanAct, Act, InStep, Store.Cached, Handle, OpenBackend, CloseBackend, Hear,
         OpenChanges, CloseChanges, MessageChanges, AgreeOn, Mirrors, Believed, Recorded, Owner, Subs, Log;
    DrainedSubscribed(s, b);
    UserOvertakes(s, q, b, arrival.now);
    var close, relay := UserCloses(b, arrival.now), GatewayStep(EvRelay(q, DataSnapshot, b, ""));
    var read := ClientReads([], arrival);
    var s1 := Act(s, UserOpens(b));
    var s2 := Act(s1, close);
    GatewayOvertakes(s2, q, b);
    var e, caps := s.g.leases[b].epoch, s.g.registry[b].capabilities;
    var relayed, confirmed := Relayed(b, DataSnapshot, "", q), BackendSubscribed(b, e, caps);
    var s3 := Act(s2, relay);
    var s4 := Act(s3, GatewayReads);
    ClientOvertakes(s4, relayed, confirmed, arrival);
    var s5 := Act(s4, read);
    var s6 := Act(s5, read);
    ConfirmedEarly(s.client, q, b, e, caps);
    ConfirmationUnheard(heard, s.client, q, b, e, caps);
    var heard1 := Hear(heard, OpenChanges(s.client.records, b));
    var heard2 := Hear(heard1, CloseChanges(s1.client.records, b));
    var heard3 := Hear(heard2, MessageChanges(s2.client.records, relayed));
    var heard4 := Hear(heard3, MessageChanges(s5.client.records, confirmed));
    NoAction(s6, heard4);
    ThreeActions(s3, GatewayReads, read, read, [], heard2, heard2, heard3, [heard4]);
    var later := [heard2] + ([heard2] + ([heard3] + [heard4]));
    ThreeActions(s, UserOpens(b), close, relay, [GatewayReads] + ([read] + ([read] + [])), heard, heard1, heard2, later);
    var heards := [heard] + ([heard1] + ([heard2] + later));
    assert |heards| == 7 && heards[0] == heard && heards[6] == heard4;
  }

  lemma DrainedSubscribed(s: System, b: BackendId)
    requires SystemOk(s) && Drained(s) && IsSubscribed(s.client.records, b)
    ensures IsOpen(s.g.peers, s.p) && s.p in Subs(s.g.subscriptions, b) && Present(s.client.records, b)
    ensures Store.Cached(s.client.records)
  {
    hide Inv, Progress, StreamsOk, Mirrors, Believed, Recorded, Subs;
    CoreAgrees(s.g, s.p, s.client.records, s.up, b);
    CoreCached(s.client.records, Log(s.g.sent, s.p), s.read, s.up);
    SubscribersLeased(s.g, s.p, b);
    LeasedRegistered(s.g, b);
  }

  lemma LeasedRegistered(g: State, b: BackendId)
    requires Inv(g)
    ensures b in g.leases <==> b in g.registry
  {
  }

  // ---------------------------------------------------------------- such a run

  /** The registry of the gateway in which peer 0 has subscribed to backend 11 of peer 1, as a list. */
  function EntangledItems(): seq<Presence>
    requires 10 in Entangled().registry && 11 in Entangled().registry
  {
    [Entangled().registry[10], Entangled().registry[11]]
  }

  /** The client of peer 0 starts, having read all that was written to it. */
  function EntangledSystem(): System
    requires 10 in Entangled().registry && 11 in Entangled().registry
  {
    var log := Log(Entangled().sent, 0);
    System(Entangled(), 0, Client(Store.Bootstrap(EntangledItems(), Subscribed(EntangledItems(), log)), {}),
           Streams.EMPTY, |log|, [])
  }

  lemma EntangledOpen()
    ensures IsOpen(Entangled().peers, 0) && 0 in Entangled().sent
  {
    hide Subscribe, Two, Reachable, Inv;
    TwoIs();
    ReachableInv(Two());
    PeerLogged(Two(), 0);
    SubscribeLog(Two(), 0, 11, 0);
    EntangledIs();
    SubscriberConnected(Entangled(), 0, 11);
  }

  lemma PeerLogged(g: State, p: PeerId)
    requires Inv(g) && p in g.peers
    ensures p in g.sent
  {
  }

  lemma EntangledRegistry()
    ensures Reachable(Entangled()) && Inv(Entangled()) && Serves(Entangled(), 1, 11, 0)
    ensures var g := Entangled();
            && g.registry.Keys == {10, 11} && g.registry[10].backendId == 10 && g.registry[11].backendId == 11
            && IsOpen(g.peers, 0) && |Log(g.sent, 0)| > 0
            && Belief(Log(g.sent, 0), 11) == Some(2) && LogRegistry(Log(g.sent, 0)) == g.registry
  {
    hide Entangled, Reachable, Belief, LogRegistry, Mirrored, Counted, GrantsOk, IdentitiesOk, ProxyOk, GoodLog, Unsettled,
         Readable, BeliefsOk, RegistryShown, DemandTold;
    EntangledIs();
    EntangledOpen();
    LogIsGood(Entangled(), 0);
    assert Entangled().registry.Keys == Entangled().leases.Keys == {10, 11};
  }

  lemma EntangledStarts()
    ensures var g := Entangled();
            && 10 in g.registry && 11 in g.registry
            && Start(EntangledSystem(), EntangledItems()) && SystemOk(EntangledSystem()) && Drained(EntangledSystem())
            && IsSubscribed(EntangledSystem().client.records, 11) && Owner(g.peers, g.leases, 11) == Some(1)
  {
    hide Entangled, Reachable, Inv, Belief, LogRegistry, Subs;
    EntangledRegistry();
    var s, items := EntangledSystem(), EntangledItems();
    var log := Log(s.g.sent, 0);
    assert log[..|log|] == log;
    EntangledListed();
    StartOk(s, items);
    BootstrapRecord(items, LogRegistry(log), log, 11);
    UpdatedSubscribed(Store.DefaultRecord(s.g.registry[11]));
  }

  lemma EntangledListed()
    requires 10 in Entangled().registry && 11 in Entangled().registry
    requires var g := Entangled();
             g.registry.Keys == {10, 11} && g.registry[10].backendId == 10 && g.registry[11].backendId == 11
    ensures Store.ListsRegistry(EntangledItems(), Entangled().registry)
  {
    hide Entangled;
    var items := EntangledItems();
    forall b | b in Entangled().registry ensures exists i :: 0 <= i < |items| && items[i].backendId == b {
      assert items[0].backendId == 10 && items[1].backendId == 11;
    }
  }

  lemma UpdatedSubscribed(r: Store.Record)
    ensures Store.Updated(r.(subscribed := true, openState := Store.Open)).subscribed
  {
  }

  function StateHeard(records: Store.Records): Heard {
    map b | b in records :: records[b].runtimeState
  }

  /** A whole run, from a reachable gateway, after which a listener does not know that a backend is ready. */
  lemma ReadinessMissed(arrival: Arrival)
    ensures 10 in Entangled().registry && 11 in Entangled().registry
    ensures var s, actions := EntangledSystem(), Overtaking(1, 11, arrival);
            && Start(s, EntangledItems()) && CanRun(s, actions) && InStep(StateHeard(s.client.records), s.client.records)
            && 11 in Run(s, actions).client.records && Run(s, actions).client.records[11].runtimeState.Ready?
            && exists heards :: |heards| == 7 && heards[0] == StateHeard(s.client.records) && ListensTo(s, actions, heards)
                                && Lookup(heards[6], 11) == Some(Store.Visible)
  {
    hide Entangled, Start, SystemOk, Run, CanRun, ListensTo, Overtaking, Owner;
    EntangledStarts();
    var s := EntangledSystem();
    ListenerMisses(s, 1, 11, arrival, StateHeard(s.client.records));
  }
}
