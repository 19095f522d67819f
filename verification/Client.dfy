/**
 * The client's reaction to gateway messages and user requests, as functions of its state:
 * shared/src/facade/runtime-core.ts over the registry store.
 */
module Client {
  import opened Options
  import opened Storage
  import opened Gateway
  import Store = RegistryStore
  import Streams

  /** What the client writes to its uplink. */
  datatype Request = Sub(b: BackendId) | Unsub(b: BackendId)

  datatype Client = Client(records: Store.Records, desired: set<BackendId>)

  function ReasonText(reason: CloseReason): string {
    match reason
    case ClientUnsubscribed => "client_unsubscribed"
    case BackendOffline => "backend_offline"
    case EpochChanged => "epoch_changed"
  }

  predicate Present(records: Store.Records, b: BackendId) {
    b in records && records[b].presence.Some?
  }

  predicate IsSubscribed(records: Store.Records, b: BackendId) {
    b in records && records[b].subscribed
  }

  /** The store's part in handling a message, without the client's reaction to it. */
  function Absorb(records: Store.Records, m: Msg): Store.Records {
    match m
    case RegistrySnapshot(items) => Store.ApplyRegistry(records, items)
    case BackendSubscribed(b, e, caps) => Store.Do(records, Store.MarkSubscribed(b, e, caps))
    case BackendUnsubscribed(b, reason) => Store.Do(records, Store.MarkUnsubscribed(b, ReasonText(reason)))
    case Relayed(b, DataSnapshot, _, _) => Store.Do(records, Store.MarkDataInitialized(b))
    case _ => records
  }

  /** Visible, and unsubscribed or in error. */
  predicate Reopenable(records: Store.Records, b: BackendId) {
    Present(records, b) && (records[b].openState.Unsubscribed? || records[b].openState.OpenFailed?)
  }

  /** The desired backends reopenDesiredBackends opens. */
  function ToReopen(records: Store.Records, desired: set<BackendId>): set<BackendId> {
    set b | b in desired && Reopenable(records, b)
  }

  function Reopen(records: Store.Records, backends: set<BackendId>): Store.Records {
    map b | b in records :: if b in backends then Store.Subscribe(records[b]) else records[b]
  }

  /** handleAdapterEvent: a registry snapshot is followed by reopening, everything else is the store's. */
  function Handle(c: Client, m: Msg): Client {
    var records := Absorb(c.records, m);
    if m.RegistrySnapshot? then c.(records := Reopen(records, ToReopen(records, c.desired)))
    else c.(records := records)
  }

  /** The backends a message makes the client subscribe to. */
  function Reopened(c: Client, m: Msg): set<BackendId> {
    if m.RegistrySnapshot? then ToReopen(Absorb(c.records, m), c.desired) else {}
  }

  /** openBackend. */
  function OpenBackend(c: Client, b: BackendId): Client {
    Client(if Present(c.records, b) then c.records[b := Store.Subscribe(c.records[b])] else c.records, c.desired + {b})
  }

  function OpenRequests(c: Client, b: BackendId): seq<Request> {
    if Present(c.records, b) then [Sub(b)] else []
  }

  /** closeBackend. */
  function CloseBackend(c: Client, b: BackendId): Client {
    Client(if IsSubscribed(c.records, b) then c.records[b := Store.Close(c.records[b], "user_closed")] else c.records,
           c.desired - {b})
  }

  function CloseRequests(c: Client, b: BackendId): seq<Request> {
    if IsSubscribed(c.records, b) then [Unsub(b)] else []
  }

  function SubAll(order: seq<BackendId>): seq<Request> {
    seq(|order|, i requires 0 <= i < |order| => Sub(order[i]))
  }

  // ---------------------------------------------------------------- streams

  /** What a message's payload and the clock say when it arrives. */
  datatype Arrival = Arrival(session: Streams.SessionId, offset: int, now: Time)

  /** What a message from the gateway makes of the streams. */
  function Streamed(c: Client, m: Msg, arrival: Arrival, streams: Streams.Manager): Streams.Manager {
    match m
    case BackendUnsubscribed(b, reason) =>
      var willAutoRecover := b !in c.records || Present(c.records, b);
      Streams.Step(streams, Streams.Unsubscribed(b, ReasonText(reason), willAutoRecover, arrival.now))
    case Relayed(b, DataSnapshot, _, _) =>
      var records := Absorb(c.records, m);
      if b in records && records[b].runtimeState == Store.Ready && records[b].subscribed
      then Streams.Step(streams, Streams.BecameReady(b, arrival.now)) else streams
    case Relayed(b, ContentPatch, _, _) =>
      Streams.Step(streams, Streams.PatchArrived(Streams.Key(b, arrival.session), arrival.offset, arrival.now))
    case Relayed(b, RunEvent, _, _) =>
      Streams.Step(streams, Streams.RunArrived(Streams.Key(b, arrival.session), arrival.now))
    case _ => streams
  }

  /** What closing a backend makes of the streams. */
  function StreamsClosed(c: Client, b: BackendId, now: Time, streams: Streams.Manager): Streams.Manager {
    if IsSubscribed(c.records, b) then Streams.Step(streams, Streams.Unsubscribed(b, "user_closed", false, now)) else streams
  }
}
