# Verification model of the gateway, its client facade and the server's algorithms

This project models, in Dafny 4.11, the parts of the repository whose correctness spans several
functions, and proves what they keep over whole runs.

**Gateway** (`Gateway.dfy` to `GatewayServer.dfy`). The gateway keeps five redundant indexes: peers
with their subscriptions, subscribers per backend, demand counters, leases and the registry. Every
handler runs to completion, so each is one atomic step. `Gateway.dfy` states the steps as functions
on a value; `GatewayState.dfy` and `GatewayServer.dfy` hold the classes with the loops and prove that
they compute those functions and keep the invariant. The state also keeps everything written to each
connection. Four folds of that log say what its reader knows: its subscriptions, the registry,
the stream demand, and whether a lost subscription has been followed by a snapshot
(`GatewayLogs.dfy`). The invariant (`GatewayInvariants.dfy`) ties indexes and logs together;
it is inductive only as a whole. `GatewayNotices.dfy`, `GatewayDelivery.dfy` and `GatewayRequests.dfy`
say, event by event and without the handlers' names, what ends a lease or a subscription, exactly what
every event writes to every connection, and where every proxy request is.

**Client facade** (`RegistryStore.dfy`, `Streams.dfy`, `Client.dfy`, `Listening.dfy`,
`RuntimeCore.dfy`). The registry store and the stream manager as objects over pure functions, with the
replay of their diffs and events; what the facade announces to its listeners; and the runtime core
that drives all of it. `RecordStates.dfy` and `StreamStates.dfy` say what each operation makes of a
record and of a stream, and what a run must have done for a record or a stream to be in its state.

**End to end** (`EndToEnd.dfy` to `EndToEndListening.dfy`). The gateway and one client, with its
streams, over two first-in-first-out queues: the downlink is the unread part of the connection's log,
the uplink a queue of requests. The joint invariant says what is on its way for every backend the user
has open. `EndToEndDraining.dfy` shows that reading alone empties both queues,
`EndToEndListening.dfy` what a listener of the facade knows meanwhile, `EndToEndDelivery.dfy` follows a
relay from the owner to the client's streams, `EndToEndClosing.dfy` says what becomes of a closed backend,
and `EndToEndFacade.dfy` ties the facade's object to the client of these runs.

**Algorithms.** `McpFraming.dfy` to `McpHeaders.dfy` (chunk-fed framing: what it delivers of streams
of frames, with any header fields, and of any bytes), `WorkflowLayout.dfy` and `ProcessTree.dfy`
(breadth-first loops against `Reachability.dfy` and `Discovery.dfy`), `TerminalSessions.dfy` and
`TerminalOwners.dfy` (bounded scrollback, its hand-over, and who is told what), `ShellQuoting.dfy`
(against sections 2.2.1 to 2.2.3 of the POSIX.1-2017 Shell Command Language), `RateLimiting.dfy`.

A loop over a JavaScript Map or Set visits its keys in an order the model leaves open
(`Options.IterationOrder`); every result holds for all orders.

## What turned out false of the code

- A stream's source does not always tell whether it is desired: `requestOpen` on an open ephemeral stream
  returns before it sets the source. `Streams.SourceKeptIff` gives the exact condition for an operation,
  `Streams.SourcesTellIff` for a run, and `Streams.SourceMayLie` a run.
- The scrollback can stay over its limits: the trimming loop stops at an empty chunk.
  `TerminalSessions.AppendKeepsLongestIff` gives the exact condition for a chunk,
  `TerminalSessions.ScrollbackLongestIff` for a run, and `TerminalSessions.EmptyChunkOverflows` a run.
- A lost subscription is not always announced to the owner of its backend: lease expiry ends the lost peer's
  other subscriptions in silence. `GatewayNotices.LossAnnouncedIff` gives the exact condition over all
  events, `GatewayNotices.ExpiryAnnouncesIff` over expiries, and `GatewayNotices.LossUnannounced` a run.
- A header block without a usable length stops the framing pump although a complete frame follows it.
  `McpDelivery.PumpLeavesMessageIff` gives the exact condition, `McpDelivery.NoiseHidesFrame` the inputs, and
  `McpDelivery.NothingLost` shows that the frame is only held back.
- Lines that start with white space are not always read: a first chunk of white space alone is taken for a
  header block. `McpDelivery.LinesRoundTripIff` gives the exact condition, `McpDelivery.BlankLineFirst` an input.
- A header block that starts with an opening brace is taken for lines. `McpHeaders.HeadersReadIff` gives the
  exact condition, `McpHeaders.BraceField` an input.
- Closing a backend does not always unsubscribe it: while the subscription is being opened, `closeBackend`
  sends nothing, and the subscription is then granted. `EndToEndClosing.ClosedStaysIff` gives the exact
  condition, `EndToEndClosing.ClosedAfterGreeting` the runs.
- The state events do not always tell a listener that a backend is ready: a confirmed subscription is not
  announced when the record is ready at once. `Listening.MessageHeardIff` gives the exact condition for a
  message, `EndToEndListening.ListenerInStepIff` for a run, `EndToEndListening.ReadinessMissed` a run, and
  `EndToEndListening.ListenerFollows` how long it can last.

## Model

| member | source | states |
|---|---|---|
| EndToEndRuns.Agreement | shared/src/facade/registry-store.ts:117-253 | In every run of gateway, client and the two queues, for each backend either an unsubscribe is in flight or folding the unread messages into the store gives the gateway's own subscription, presence and lease epoch |
| EndToEndRuns.DrainedAgreement | gateway/src/server.ts:676-721 | With both queues empty the gateway and the client agree about every backend |
| EndToEndRuns.Convergence | shared/src/facade/runtime-core.ts:476-493 | With both queues empty every backend the user has open and the registry shows is subscribed on both sides at the lease's epoch, whatever takeovers, losses and reopenings came before |
| EndToEndDraining.EventualConvergence | shared/src/facade/runtime-core.ts:476-493 | After any run, if from then on the gateway and the client only read, they are done within a bounded number of steps, whichever of them reads when, and every backend that is open and registered is then subscribed on both sides |
| EndToEndDraining.ConvergenceAttainable | shared/src/facade/runtime-core.ts:476-493 | After any run there are such steps, and nothing the user wants or the registry shows changes meanwhile |
| EndToEndDraining.DrainingEnds | shared/src/facade/runtime-core.ts:340-354 | Reading alone is bounded by a measure of the unread snapshots, the queued requests and the unread messages, although each snapshot read may queue new requests |
| EndToEndDraining.DrainedIff | shared/src/facade/runtime-core.ts:283-319 | Both queues are empty exactly when neither side can read |
| EndToEndRuns.OpenStreamsSubscribed | shared/src/facade/stream-manager.ts:220-354 | In every run an open stream belongs to a backend the client has read to be subscribed; it is subscribed in the records or its unsubscribe is in flight, and drained the gateway lists the client |
| EndToEndRuns.DataResumesStreams | shared/src/facade/runtime-core.ts:391-410 | In every run, reading the data snapshot of a subscribed backend makes it ready and leaves every stream of it that the user wants open or opening |
| EndToEndListening.ListenerFollows | shared/src/facade/runtime-core.ts:340-410 | In every run, whatever order the records and the desired backends are met in, a listener that folds the state events knows the state of every backend, except that it may have missed that one is ready while an unsubscribe of it is in flight; drained, it has missed nothing |
| EndToEndListening.ListenerMisses | shared/src/facade/runtime-core.ts:356-370 | From any drained state with a subscribed backend whose owner is connected, six actions after which the backend is ready and a listener believes it merely visible |
| EndToEndListening.ListenerInStepIff | shared/src/facade/runtime-core.ts:340-410 | In every run a listener that starts in step is in step at every point exactly when the run reads no confirmation that is withheld |
| EndToEndListening.ReadinessMissed | shared/src/facade/runtime-core.ts:356-370 | A whole such run, from a gateway reached by two hellos and a subscribe |
| EndToEndDelivery.RelayOpensStream | gateway/src/server.ts:622-656 | From a drained state, a relay of the owner is the one message that a subscribed client has to read, and reading a run event or a patch leaves its stream open unless it was closed |
| EndToEndDelivery.RelayArrives | gateway/src/server.ts:622-656 | Drained, every relay of the owner of a subscribed backend, of each of the six kinds, becomes exactly what the client has not read |
| EndToEndDelivery.LossReadIff | shared/src/facade/runtime-core.ts:371-389 | Reading an unsubscribe puts a stream in error exactly when the records know its backend without showing it and the stream is wanted and not closed |
| EndToEndDelivery.SubscribedLossRecovers | shared/src/facade/stream-manager.ts:220-259 | In every run, the loss of a backend that the client has read to be subscribed puts none of its streams in error |
| EndToEndDelivery.LossRecorded | shared/src/facade/registry-store.ts:234-253 | Reading an unsubscribe leaves a known backend unsubscribed, without data or capabilities, and with the gateway's reason |
| EndToEndDelivery.DataResumesExactly | shared/src/facade/runtime-core.ts:391-410 | Reading the data of a backend resumes its wanted streams when it is subscribed and registered, and otherwise leaves all streams as they are |
| EndToEndClosing.ClosedStaysIff | shared/src/facade/runtime-core.ts:211-225 | In every run, a backend the user closes is still subscribed once the queues have drained exactly when it was not subscribed in the records at that moment and a subscription of it was on its way |
| EndToEndClosing.ClosedWhileOpening | shared/src/facade/runtime-core.ts:195-225 | From any drained state, opening a registered backend and closing it at once leaves it subscribed on both sides, however the queues drain |
| EndToEndClosing.ClosedAfterGreeting | shared/src/facade/runtime-core.ts:195-225 | So it does for every newly connected client of every reachable gateway, with any backend it is shown |
| EndToEndFacade.ReadIsReceived | shared/src/facade/runtime-core.ts:283-354 | What the facade makes of an adapter event, its streams and the subscribes it sends included, is what reading the message makes of the client in the end-to-end runs, in whatever order the adapter lists a registry |
| EndToEndFacade.ReadsAreReceived | shared/src/facade/runtime-core.ts:82-128 | So is replaying any number of buffered events |
| Listening.MessageHeardIff | shared/src/facade/runtime-core.ts:356-410 | A message leaves a listener in step exactly unless it confirms a subscription for a visible, unsubscribed record that already has its data |
| Listening.SnapshotHeard | shared/src/facade/runtime-core.ts:340-354 | The events of a registry snapshot and of the reopening it starts leave a listener in step |
| Listening.OpeningHeard | shared/src/facade/runtime-core.ts:195-209 | The state event that openBackend withholds would have changed nothing |
| Listening.SnapshotErrors | shared/src/facade/runtime-core.ts:545-558 | Of the state changes of a snapshot, exactly those to offline and to failed carry an error, the reason why the backend changed |
| EndToEndRuns.ReadsFenced | gateway/src/server.ts:622-656 | A broadcast the client reads for a subscribed backend was sent by the peer granted the epoch in the client's record |
| EndToEndRuns.RunKeepsOk | shared/src/facade/runtime-core.ts:283-319 | The joint invariant of gateway, queues and client holds after any sequence of actions |
| EndToEndRuns.ActKeepsOk | shared/src/facade/runtime-core.ts:195-225 | Each single action of the gateway, the client, its user or the queues keeps the joint invariant |
| EndToEndRuns.StartOk | shared/src/facade/runtime-core.ts:82-128 | A bootstrap that lists what the adapter has seen establishes the joint invariant |
| EndToEndRuns.GreetingStarts | gateway/src/server.ts:563-568 | Every newly connected peer, client or backend, that lists the registry of its greeting is a start of these runs |
| EndToEndRuns.BeliefShown | gateway/src/server.ts:676-708 | A reader is only ever subscribed to backends it has been shown, at the epoch shown |
| EndToEndRuns.SubKeepsClient | gateway/src/server.ts:676-708 | Answering a subscribe, granted or refused, leaves every desired visible backend with something on its way that opens it |
| EndToEndRuns.UnsubKeepsClient | gateway/src/server.ts:710-721 | Answering an unsubscribe leaves a backend that was reopened meanwhile with its subscribe still in the queue |
| EndToEndRuns.ForeignKeepsClient | gateway/src/server.ts:932-944 | Whatever the gateway writes unasked, every lost subscription of the client is followed by a registry snapshot |
| EndToEnd.ConsumeCore | shared/src/facade/registry-store.ts:117-270 | Reading any message keeps the records in line with the registry and the subscriptions shown so far |
| EndToEnd.ReadKeepsClient | shared/src/facade/runtime-core.ts:340-354 | Reading one message, with the reopening it starts, keeps the client's half of the joint invariant |
| EndToEnd.OpenKeepsClient | shared/src/facade/runtime-core.ts:195-209 | openBackend, also on a subscribed or invisible backend, keeps it |
| EndToEnd.CloseKeepsClient | shared/src/facade/runtime-core.ts:211-225 | closeBackend, also while the subscription is still being opened, keeps it |
| EndToEnd.CollectKeepsClient | shared/src/facade/registry-store.ts:292-298 | Collecting zombie records keeps it |
| GatewayRuns.StepKeepsInv | gateway/src/server.ts:523-978 | Every handler keeps the whole gateway invariant: the redundant indexes agree with each other and with what each connection has been told |
| GatewayRuns.RunKeepsInv | gateway/src/server.ts:523-978 | So does every run |
| GatewayHistory.ReachableIndexes | gateway/src/state.ts:72-284 | In every reachable state the subscription index mirrors the peers' sets, counters are cardinalities, no set is empty, leases, registry and demand share keys and epochs, a peer carries (b, e) iff it holds that lease, and proxy tables are disjoint over leased backends |
| GatewayHistory.ReachableFencing | gateway/src/server.ts:622-656 | Between backend_subscribed(b, e) and the next backend_unsubscribed(b), every relay a connection receives for b came from the peer granted epoch e |
| GatewayHistory.ReachableDemand | gateway/src/server.ts:611-620 | What a connected owner was last told is whether its backend has a subscriber, and every heartbeat_ack repeated what it already knew |
| GatewayHistory.TakeoverBySameInstance | gateway/src/server.ts:548-556 | A held lease is taken over only by the same instance, at a strictly larger epoch |
| GatewayHistory.RunConservesRequests | gateway/src/server.ts:794-832 | An issued proxy request stays in exactly one of the three tables, a pending one names a leased backend, one that has left the pending table does not come back, and the way it ended never changes |
| GatewayHistory.StepExtends | gateway/src/server.ts:81-85 | A step only appends to a connection's log, and answers only the unsubscribe it was asked for |
| GatewayLogs.FencedBetween | gateway/src/server.ts:952-957 | Fencing read off one connection's log |
| GatewayLogs.EpochStable | gateway/src/server.ts:676-708 | Repeated backend_subscribed messages never move a reader to another epoch without an unsubscribe |
| GatewayLogs.AckRepeatsDemand | gateway/src/server.ts:611-620 | A heartbeat_ack never contradicts the demand already announced |
| GatewayLogs.SettledMeansFollowed | gateway/src/server.ts:854-862 | In a settled log every subscription taken away is followed by a registry snapshot |
| GatewayLogs.RegistryChangedBetween | gateway/src/server.ts:927-930 | A backend that was shown and no longer is was left out of a snapshot in between |
| GatewayJoining.HelloBackendKeepsInv | gateway/src/server.ts:547-572 | A backend's hello, with or without a previous owner, keeps the invariant |
| GatewaySteps.DisconnectKeepsInv | gateway/src/server.ts:895-921 | A disconnect, of an owner or not, keeps the invariant |
| GatewaySteps.ExpireKeepsInv | gateway/src/server.ts:854-878 | A lease expiry keeps the invariant |
| GatewayHandling.SubscribeKeepsInv | gateway/src/server.ts:676-708 | A first or repeated subscribe keeps the invariant |
| GatewayHandling.UnsubscribeKeepsInv | gateway/src/server.ts:710-721 | An unsubscribe, of a subscriber or not, keeps the invariant |
| GatewayNotices.LeaseEndsIff | gateway/src/server.ts:854-978 | A lease stays with its owner at its epoch exactly until the owner disconnects, the lease timer runs out or its instance says hello again, and only a heartbeat of that owner at that epoch renews it |
| GatewayNotices.SnapshotAskedOnce | gateway/src/server.ts:694-707 | A new subscriber makes the owner send a snapshot; a repeated subscribe writes nothing to the owner |
| GatewayNotices.DisconnectTellsOwners | gateway/src/server.ts:907-917 | A disconnecting subscriber is announced to the connected owner of every backend it was subscribed to |
| GatewayNotices.SubscriptionEnds | gateway/src/server.ts:710-921 | A subscription to a backend that stays leased is ended by exactly three steps: the subscriber unsubscribes, disconnects, or loses a lease of its own |
| GatewayNotices.LossAnnouncedIff | gateway/src/server.ts:710-921 | Whatever ends a subscription to a backend that stays leased to a connected peer announces it to that peer exactly unless it is a lease expiry |
| GatewayNotices.ExpiryAnnouncesIff | gateway/src/server.ts:854-878 | An expiry announces the lost peer to every connected owner serving it exactly when nobody serves it |
| GatewayNotices.ExpiryTellsNoOwner | gateway/src/server.ts:866-873 | An expiry writes no subscriber_disconnected to anyone |
| GatewayNotices.LossUnannounced | gateway/src/server.ts:866-873 | A reachable state in which a peer subscribed to a connected owner's backend expires, and the owner never hears of it |
| GatewayDelivery.RelayReaches | gateway/src/server.ts:622-656 | A relay of the owner, of each of the six kinds with its claim test met, appends one message to the log of every subscriber whose socket is open, and nothing to any other |
| GatewayDelivery.RelayRefused | gateway/src/server.ts:622-656 | A relay of anyone else, or with a failed claim test, writes nothing to anyone |
| GatewayDelivery.TargetedReaches | gateway/src/server.ts:738-749 | A targeted message of the owner goes to the peer it names alone, subscribed or not |
| GatewayDelivery.ForwardReaches | gateway/src/server.ts:723-736 | A subscriber's message goes to the connected owner alone, with its sender; otherwise the sender alone hears which error it is |
| GatewayDelivery.RequestsReach | gateway/src/server.ts:662-674 | A data request goes to the connected owner or comes back as an error; a registry request is answered with the registry |
| GatewayDelivery.PollReaches | gateway/src/server.ts:400-404 | The periodic push shows the registry to every open connection |
| GatewayDelivery.HeartbeatReaches | gateway/src/server.ts:611-620 | A heartbeat of an owner is acknowledged exactly at its own epoch, with whether its backend has a subscriber |
| GatewayDelivery.HeartbeatRefused | gateway/src/server.ts:611-620 | A heartbeat of a peer that owns nothing is answered with nothing |
| GatewayDelivery.SubscribeReaches | gateway/src/server.ts:676-708 | The exact growth of every log by a subscribe: granted or refused, first or repeated |
| GatewayDelivery.UnsubscribeReaches | gateway/src/server.ts:710-721 | The exact growth of every log by an unsubscribe |
| GatewayDelivery.DisconnectReaches | gateway/src/server.ts:895-921 | The exact growth of every log by a disconnect: the subscribers of the lost backend, everyone's new registry, and the owners the lost peer was subscribed to |
| GatewayDelivery.ExpireReaches | gateway/src/server.ts:854-878 | The same of a lease expiry |
| GatewayDelivery.HelloReaches | gateway/src/server.ts:547-578 | A backend's hello takes a fresh epoch, greets the owner with a registry that lists it, tells the subscribers of a former owner, and shows that registry to everyone else but the former owner |
| GatewayDelivery.HelloClientReaches | gateway/src/server.ts:563-568 | A client's hello greets it with the registry and writes to nobody else |
| GatewayDelivery.OthersReach | gateway/src/server.ts:338-342 | An issued proxy request is written to the connected owner of its backend; no other proxy event writes anything |
| GatewayDelivery.ConnectedIff | gateway/src/server.ts:895-978 | A peer is connected exactly from its hello until its disconnect or its expiry, and its socket is open until one of these, its own closing or a takeover of its backend |
| GatewayDelivery.ListedAs | gateway/src/server.ts:547-572 | A backend is listed as its last hello described it, at the epoch it was given then, until that owner disconnects or expires |
| GatewayRequests.RequestMoves | gateway/src/server.ts:794-832 | Where every proxy request is after every event: it enters the pending table exactly when issued to a connected owner, and moves to the other two with the outcome of the event that moves it |
| GatewayRequests.WaitingEndsIff | gateway/src/server.ts:794-832 | A request leaves the pending table, or the streaming one, exactly with its answer, timeout, head, completion or client's departure, or with the loss of its backend's owner |
| GatewayRequests.WaitsIff | gateway/src/server.ts:880-893 | At the end of any run a request still waits exactly when nothing in the run ended its wait |
| GatewayRequests.RunMoves | gateway/src/server.ts:794-832 | Folding the moves of a run gives every request's place at its end |
| GatewayTables.GatewayState.IncrementSubscriberCount | gateway/src/state.ts:255-270 | Counts one more, and reports exactly the change from inactive to active |
| GatewayTables.GatewayState.DecrementSubscriberCount | gateway/src/state.ts:272-284 | Counts one less, never below zero, and reports exactly the change from active to inactive |
| GatewayTables.GatewayState.AddSubscription | gateway/src/state.ts:184-202 | Adds the peer in all three indexes, also when it is not connected or the backend has no demand entry; for a connected peer the indexes stay in agreement and the first subscriber is reported |
| GatewayTables.GatewayState.RemoveSubscription | gateway/src/state.ts:205-219 | Leaves all three indexes as for the set without the peer, or untouched; reports the last subscriber |
| GatewayTables.GatewayState.RemoveAllSubscriptions | gateway/src/state.ts:228-244 | Removes the peer everywhere, recounts every demand, and returns its backends once each |
| GatewayTables.GatewayState.RemovePeer | gateway/src/state.ts:121-131 | Forgets the peer and all its subscriptions |
| GatewayServing.GatewayServer.SendToWs | gateway/src/server.ts:81-85 | Writes to an open socket only |
| GatewayServing.GatewayServer.BroadcastRegistrySnapshot | gateway/src/server.ts:927-930 | The loop over peers is one broadcast to all but the excluded |
| GatewayServing.GatewayServer.NotifySubscribersBackendGone | gateway/src/server.ts:932-944 | The two loops tell every subscriber and leave the backend without any |
| GatewayServing.GatewayServer.RejectPendingProxyRequests | gateway/src/server.ts:880-893 | The two loops settle exactly the backend's requests in both tables |
| GatewayServing.GatewayServer.NotifyAffected | gateway/src/server.ts:907-917 | The loop over a lost peer's backends tells each owner about its own backend |
| GatewayServing.GatewayServer.HandlePeerHello | gateway/src/server.ts:523-578 | Hello of a client refines the atomic step and keeps the invariant |
| GatewayServing.GatewayServer.HandleBackendHello | gateway/src/server.ts:523-578 | Hello of a backend, takeover included, refines the atomic step and keeps the invariant |
| GatewayServing.GatewayServer.HandleBackendOwnerReplaced | gateway/src/server.ts:963-978 | Subscribers are told, the lease and the previous owner's grant are gone |
| GatewayServing.GatewayServer.HandleBackendHeartbeat | gateway/src/server.ts:611-620 | Refines the atomic step: only the current owner at its own epoch renews |
| GatewayServing.GatewayServer.HandleRelay | gateway/src/server.ts:622-656 | Refines the atomic step for the six broadcast relays |
| GatewayServing.GatewayServer.HandleTargetedMessage | gateway/src/server.ts:738-749 | Refines the atomic step: the target need not be a subscriber |
| GatewayServing.GatewayServer.HandleRequestRegistrySnapshot | gateway/src/server.ts:662-664 | Refines the atomic step |
| GatewayServing.GatewayServer.HandleRequestBackendDataSnapshot | gateway/src/server.ts:666-674 | Refines the atomic step, offline answer included |
| GatewayServing.GatewayServer.HandleSubscribeBackend | gateway/src/server.ts:676-708 | Refines the atomic step, refusals and repeated subscribes included |
| GatewayServing.GatewayServer.HandleUnsubscribeBackend | gateway/src/server.ts:710-721 | Refines the atomic step |
| GatewayServing.GatewayServer.HandleBackendClientMessage | gateway/src/server.ts:723-736 | Refines the atomic step: subscribers only, with both error answers |
| GatewayServing.GatewayServer.HandleCatchUpSessionContent | gateway/src/server.ts:780-788 | Refines the atomic step: subscribers only, with both error answers |
| GatewayServing.GatewayServer.HandleBackendLeaseExpired | gateway/src/server.ts:854-878 | Refines the atomic step and keeps the invariant |
| GatewayServing.GatewayServer.HandlePeerDisconnect | gateway/src/server.ts:895-921 | Refines the atomic step and keeps the invariant |
| GatewayServing.GatewayServer.IssueProxyRequest | gateway/src/server.ts:338-342 | Refines the atomic step: pending only when an owner is connected |
| GatewayServing.GatewayServer.SettlePendingRequest | gateway/src/server.ts:794-797 | Refines the atomic step: settles a request once |
| GatewayServing.GatewayServer.HandleHttpProxyResponseStart | gateway/src/server.ts:798-814 | Refines the atomic step: moves a request between the tables |
| GatewayServing.GatewayServer.SettleStreamingRequest | gateway/src/server.ts:827-832 | Refines the atomic step: settles a streaming request once |
| GatewayServing.GatewayServer.LoseSocket | gateway/src/server.ts:81-85 | A socket that leaves the open state before its close event arrives keeps the invariant |
| GatewayServing.GatewayServer.PollRegistry | gateway/src/server.ts:400-404 | Refines the atomic step |
| Storage.GatewayStorage.GetOrCreateBackendId | gateway/src/storage.ts:132-180 | Returns the device's binding, creating it once |
| Storage.GatewayStorage.GetOrCreateBackendIdByInstance | gateway/src/storage.ts:187-279 | Returns the instance's binding: its own, the unclaimed legacy one on the default channel, or the new identifier |
| Storage.GatewayStorage.GetInstanceByBackendId | gateway/src/storage.ts:284-292 | The scan inverts the binding |
| Storage.GatewayStorage.AllocateEpoch | gateway/src/storage.ts:319-333 | The counter grows by one |
| Storage.ClaimKeepsIdentity | gateway/src/storage.ts:187-223 | Claiming keeps both tables injective and rebinds nobody |
| Storage.IdentityIsForever | gateway/src/storage.ts:187-279 | Over any calls with fresh identifiers, bindings are injective and never change, and the epoch never goes back |
| Storage.LegacyInheritedOnce | gateway/src/storage.ts:198-214 | A legacy identifier ends up with at most one instance |
| Storage.ClaimedAs | gateway/src/storage.ts:187-223 | A new instance gets its device's legacy identifier exactly when it comes on the default channel and that identifier is registered and unclaimed, and the drawn one otherwise; an instance that has one keeps it |
| Storage.UnclaimedUntil | gateway/src/storage.ts:198-214 | Over any run, a device's identifier stays unclaimed exactly until the first new instance of that device comes on the default channel |
| Storage.InheritedByTheFirst | gateway/src/storage.ts:198-223 | After any run, a new instance inherits exactly when it comes on the default channel before any other has inherited; every later one, and every one on another channel, gets a new identifier |
| Storage.RegisteredAs | gateway/src/storage.ts:132-180 | Registering a device gives it the drawn identifier unless it has one, and touches no other binding |
| RegistryStore.DiffReplay | shared/src/facade/registry-store.ts:117-298 | Over any run of store operations, collection included, the cached state is the derived one and an observer that folds the returned diffs reports the store's state of every backend |
| RegistryStore.SnapshotIdempotent | shared/src/facade/registry-store.ts:117-191 | Applying a snapshot again changes no record and returns no diff |
| RegistryStore.ListingIrrelevant | shared/src/facade/registry-store.ts:117-191 | The order in which a snapshot lists the registry does not matter |
| RegistryStore.RemovalsComplete | shared/src/facade/registry-store.ts:121-142 | The first loop has the same effect in every iteration order |
| RegistryStore.DoTracks | shared/src/facade/registry-store.ts:117-285 | One operation keeps the cache and the observer in step, each diff starting from what was announced before |
| RegistryStore.FacadeRegistryStore.ApplyBootstrap | shared/src/facade/registry-store.ts:93-111 | The loops compute the bootstrap records, caches right |
| RegistryStore.FacadeRegistryStore.ApplyRegistrySnapshot | shared/src/facade/registry-store.ts:117-191 | The two loops compute the snapshot's records and its diffs in order |
| RegistryStore.FacadeRegistryStore.MarkRecord | shared/src/facade/registry-store.ts:197-285 | Each mark operation and its diff |
| RegistryStore.FacadeRegistryStore.CollectZombies | shared/src/facade/registry-store.ts:292-298 | Deletes exactly the records without presence and subscription |
| RecordStates.StateMeans | shared/src/facade/registry-store.ts:23-41 | Which of the five runtime states a record shows: offline without a registration, ready with a subscription and its data, failed after an opening that did not succeed |
| RecordStates.ReturnsAsFailed | shared/src/facade/registry-store.ts:117-191 | A backend that was open, or being opened, when it left the registry shows as failed when it is back |
| RecordStates.ListedMeans | shared/src/facade/registry-store.ts:142-188 | A listed backend is registered at its listed epoch; a new epoch ends its subscription, and shows as failed where it was open |
| RecordStates.UnlistedMeans | shared/src/facade/registry-store.ts:122-140 | A backend that is not listed goes offline, once, and an opening it interrupts has failed |
| RecordStates.CapabilitiesGranted | shared/src/facade/registry-store.ts:211-253 | Over any run, a subscribed backend carries the epoch and capabilities of its last confirmation, and any other backend none |
| RecordStates.MarkMeans | shared/src/facade/registry-store.ts:197-286 | A mark changes its own backend alone, keeps its registration and creates no record |
| RecordStates.CollectMeans | shared/src/facade/registry-store.ts:292-298 | Exactly the records that are neither registered nor subscribed go |
| RecordStates.BootstrapMeans | shared/src/facade/registry-store.ts:93-111 | A bootstrap lists exactly the registered backends, waiting for data where they are subscribed and visible elsewhere |
| RecordStates.SnapshotReasons | shared/src/facade/registry-store.ts:117-191 | Each diff of a snapshot gives the reason why its backend's state changed |
| RecordStates.MarkReasons | shared/src/facade/registry-store.ts:197-286 | A mark reports at most its own backend, for its own reason |
| RuntimeCore.BackendFacadeRuntimeCore.Start | shared/src/facade/runtime-core.ts:82-128 | Both stores start from the bootstrap, and the events buffered meanwhile are replayed one by one |
| RuntimeCore.BackendFacadeRuntimeCore.OpenBackend | shared/src/facade/runtime-core.ts:195-209 | Refines the client's step, sends exactly its request and emits exactly its state events |
| RuntimeCore.BackendFacadeRuntimeCore.CloseBackend | shared/src/facade/runtime-core.ts:211-225 | Refines the client's step, sends exactly its request, emits its state event, and ends the backend's streams only when it was subscribed |
| RuntimeCore.BackendFacadeRuntimeCore.ReopenDesiredBackends | shared/src/facade/runtime-core.ts:476-493 | The loop subscribes once to each desired visible closed backend, with its state events |
| RuntimeCore.BackendFacadeRuntimeCore.HandleRegistrySnapshot | shared/src/facade/runtime-core.ts:340-354 | Refines the client's step for however the registry is listed, and emits its state events |
| RuntimeCore.BackendFacadeRuntimeCore.HandleMessage | shared/src/facade/runtime-core.ts:356-410 | Refines the client's and the streams' steps for the other messages, and emits exactly their state events |
| RuntimeCore.BackendFacadeRuntimeCore.EmitBackendDiffs | shared/src/facade/runtime-core.ts:545-560 | The loop emits one state event per diff |
| RuntimeCore.BackendFacadeRuntimeCore.HandleAdapterEvent | shared/src/facade/runtime-core.ts:283-319 | The dispatch is one step of the client and its streams, with the requests and the state events of that step |
| RuntimeCore.BackendFacadeRuntimeCore.CollectGarbage | shared/src/facade/runtime-core.ts:272-277 | Both stores are collected |
| Streams.RunKeepsValid | shared/src/facade/stream-manager.ts:74-473 | In every run each stream is wanted and opening, open or in error; or known, unwanted and closed; or ephemeral and open or closed; and every desired key has a stream |
| Streams.SourceKeptIff | shared/src/facade/stream-manager.ts:101-126 | An operation keeps "source is desired iff there is a desired entry" exactly when it does not open a stream that is already open and ephemeral |
| Streams.SourcesTellIff | shared/src/facade/stream-manager.ts:101-126 | The sources tell at every point of a run exactly when the run never opens a stream that is already open and ephemeral |
| Streams.SourceMayLie | shared/src/facade/stream-manager.ts:116-118 | A run after which a desired stream still has the ephemeral source |
| Streams.RequestedIsDesired | shared/src/facade/stream-manager.ts:101-126 | A stream with the desired source has a desired entry |
| Streams.DeadCollectorArms | shared/src/facade/stream-manager.ts:429-456 | From the bootstrap on, no unwanted stream times out while opening and no error tombstone is collected |
| Streams.CollectsExactly | shared/src/facade/stream-manager.ts:418-473 | Collection keeps exactly what is wanted, open or within its lifetime |
| Streams.CollectionsCompose | shared/src/facade/stream-manager.ts:418-473 | Collecting twice equals collecting once at the later time |
| Streams.OffsetIsMaximum | shared/src/facade/stream-manager.ts:298-354 | latestOffset is the maximum of the offsets patched since the entry was created |
| Streams.ObserverFollows | shared/src/facade/stream-manager.ts:74-463 | Folding one operation's events keeps a listener at the state and error of every live stream |
| Streams.RunFollowed | shared/src/facade/stream-manager.ts:74-463 | So does folding a whole run's |
| Streams.FacadeStreamManager.RequestOpenStream | shared/src/facade/stream-manager.ts:74-135 | requestOpen and its event |
| Streams.FacadeStreamManager.RequestCloseStream | shared/src/facade/stream-manager.ts:137-169 | requestClose and its event |
| Streams.FacadeStreamManager.HandleBackendBecameReady | shared/src/facade/stream-manager.ts:175-218 | The loop resumes each wanted stream of the backend once |
| Streams.FacadeStreamManager.HandleBackendUnsubscribed | shared/src/facade/stream-manager.ts:220-259 | The loop closes, suspends or fails each active stream of the backend |
| Streams.FacadeStreamManager.HandleSessionStreamClosed | shared/src/facade/stream-manager.ts:265-296 | Closes or fails the stream |
| Streams.FacadeStreamManager.HandleContentPatch | shared/src/facade/stream-manager.ts:298-358 | Creates or promotes the stream, moves the offset forward, and passes the patch on |
| Streams.FacadeStreamManager.HandleRunEvent | shared/src/facade/stream-manager.ts:360-412 | Creates or promotes the stream and passes the event on |
| Streams.FacadeStreamManager.Collect | shared/src/facade/stream-manager.ts:418-473 | The two loops compute the collection and its events |
| StreamStates.LossMeans | shared/src/facade/stream-manager.ts:220-259 | The loss of a backend closes its unwanted streams with the reason; a wanted one waits, opening, when the backend recovers and is in error with the reason when it does not; closed streams stay |
| StreamStates.SessionClosedMeans | shared/src/facade/stream-manager.ts:265-296 | A session the gateway closes puts a wanted stream in error with the reason, and closes any other with it |
| StreamStates.OpenMeans | shared/src/facade/stream-manager.ts:69-132 | After opening, a stream is wanted and to be resumed and, unless it was open, opening without an error |
| StreamStates.CloseMeans | shared/src/facade/stream-manager.ts:134-170 | After closing, a stream is not wanted and is closed, now unless it was closed before |
| StreamStates.ReadyMeans | shared/src/facade/stream-manager.ts:172-218 | A backend that becomes ready resumes exactly the wanted, resumable streams that are not open |
| StreamStates.ArrivalMeans | shared/src/facade/stream-manager.ts:298-399 | A patch or a run event leaves its stream open and without an error, new or not, exactly unless it was closed |
| StreamStates.OthersUntouched | shared/src/facade/stream-manager.ts:69-399 | An operation on a stream or a backend touches nothing of the others |
| StreamStates.ErroredIff | shared/src/facade/stream-manager.ts:220-296 | A stream is in error after an operation exactly when the operation fails it, or it was in error and nothing takes it out |
| StreamStates.EventsTell | shared/src/facade/stream-manager.ts:69-399 | The events of an operation report exactly the streams it touches, of those a patch or a run event reaches the ones it promotes, and none that stays as it is |
| StreamStates.EventsShow | shared/src/facade/stream-manager.ts:298-359 | Each event shows its stream as the operation leaves it, except that the one of a patch still shows the offset before it |
| StreamStates.ArrivalsPassedOn | shared/src/facade/stream-manager.ts:298-399 | A patch and a run event are passed on once, as they came |
| StreamStates.NoErrorWithoutCause | shared/src/facade/stream-manager.ts:220-296 | From the bootstrap, a stream in error was closed by the gateway while wanted, or lost with a backend that does not recover |
| McpStreams.FramingRoundTrip | server/src/utils/mcp-client.ts:208-312 | For any messages in either framing and any cutting into chunks, the client delivers exactly those messages and its buffer ends empty |
| McpStreams.FramingInStep | server/src/utils/mcp-client.ts:238-262 | At every moment it has delivered exactly the complete messages and holds a proper prefix of the next frame |
| McpStreams.PaddedLinesRead | server/src/utils/mcp-client.ts:273-282 | Lines with white space around their messages, and so with either line end, give the messages without it |
| McpHeaders.LengthFound | server/src/utils/mcp-client.ts:289-304 | The length a header block announces is the number in its first length field, in whatever line it stands, its name in any case, behind any white space and sign, and whatever follows it |
| McpHeaders.LengthUnreadable | server/src/utils/mcp-client.ts:289-304 | A first length field without a number announces nothing, whatever later lines say |
| McpHeaders.LengthMissing | server/src/utils/mcp-client.ts:294-297 | A header block without a length field announces nothing |
| McpHeaders.HeadersInStep | server/src/utils/mcp-client.ts:284-312 | With any header fields before and after the lengths, in any case and cut in any way, the complete messages have been delivered and the buffer is a proper prefix of the next frame |
| McpHeaders.HeadersReadIff | server/src/utils/mcp-client.ts:227-312 | At the end of such a stream every message has been delivered exactly unless the first chunk that is not empty shows an opening brace first |
| McpHeaders.BraceField | server/src/utils/mcp-client.ts:227-236 | A field that starts with a brace before the length loses the message, although the frame itself parses |
| McpFraming.LengthAnnounced | server/src/utils/mcp-client.ts:284-312 | The printed header block is read back as the length it announces |
| McpFraming.DecimalRead | server/src/utils/mcp-client.ts:208-215 | Decimal printing and parsing are inverse |
| McpDelivery.NothingLost | server/src/utils/mcp-client.ts:96-312 | Of any bytes in any chunks nothing is lost, repeated or reordered: what has been delivered and what the buffer still holds are together what the bytes hold in the framing of the first chunk |
| McpDelivery.HeldBackIff | server/src/utils/mcp-client.ts:238-312 | Something is held back exactly when, in header framing, a complete frame is in the buffer behind any number of header blocks without a usable length |
| McpDelivery.PumpLeavesMessageIff | server/src/utils/mcp-client.ts:238-312 | For every buffer, the pump fails to deliver the messages the buffer holds exactly when, in header framing, the complete frames at its start are followed by a header block without a usable length and that, after any number of further such blocks, by a complete frame |
| McpDelivery.NoiseHidesFrame | server/src/utils/mcp-client.ts:294-303 | For every message, its frame is delivered on its own and kept back by any number of stray header blocks before it, of which each run of the pump removes one |
| McpDelivery.LinesDetectedIff | server/src/utils/mcp-client.ts:227-236 | Lines after white space are at every moment, in any chunks, taken for lines exactly when the first chunk that is not empty reaches beyond the white space |
| McpDelivery.LinesRoundTripIff | server/src/utils/mcp-client.ts:227-282 | Of lines after white space, in any chunks, every message is delivered when the first chunk that is not empty reaches beyond the white space, and none when it does not |
| McpDelivery.BlankLineFirst | server/src/utils/mcp-client.ts:227-236 | A blank line in a chunk of its own loses a message that is delivered when both come in one chunk |
| McpFraming.McpStdioClient.WriteMessage | server/src/utils/mcp-client.ts:208-223 | Writes the frame of the current framing |
| McpFraming.McpStdioClient.HandleData | server/src/utils/mcp-client.ts:96-99 | A chunk is one step of the reader |
| McpFraming.McpStdioClient.PumpResponses | server/src/utils/mcp-client.ts:238-262 | The loop terminates with every message the buffer yields |
| McpFraming.McpStdioClient.ParseNextMessage | server/src/utils/mcp-client.ts:227-271 | Detects the framing once, then parses with it |
| McpFraming.McpStdioClient.ParseNewlineMessage | server/src/utils/mcp-client.ts:273-282 | Skips empty lines and terminates |
| McpFraming.McpStdioClient.ParseContentLengthMessage | server/src/utils/mcp-client.ts:284-312 | All branches of the header parser |
| McpFraming.DecimalOnly | server/src/utils/mcp-client.ts:208-223 | A printed length is the only decimal that reads back as it |
| WorkflowLayout.AutoLayoutGraph | server/src/utils/workflow-layout.ts:18-91 | A reachable node is at its distance from the entry, the unreachable ones share the layer below, no two ids share a position, and within a row they stand from left to right as the breadth-first loop meets them |
| WorkflowLayout.BuildAdjacency | server/src/utils/workflow-layout.ts:25-33 | Lists exactly the targets of the edges that leave a node, once each, in the order of the first edges to them |
| WorkflowLayout.AssignLayers | server/src/utils/workflow-layout.ts:35-53 | The queue loop terminates with layers that are walks and that no edge can shorten, and meets the nodes in the order of the first places that lead to them |
| WorkflowLayout.DeepestLayer | server/src/utils/workflow-layout.ts:55-59 | The maximum layer |
| WorkflowLayout.AddUnreachable | server/src/utils/workflow-layout.ts:60-64 | Exactly the nodes without a layer get the bottom one, after the others and as they are listed |
| WorkflowLayout.GroupByLayer | server/src/utils/workflow-layout.ts:66-71 | Rows list their layer's ids in order |
| WorkflowLayout.PlaceRows | server/src/utils/workflow-layout.ts:73-85 | Every id of every row gets its slot |
| WorkflowLayout.SlotsCentred | server/src/utils/workflow-layout.ts:75-85 | The slots of a row are a gap apart and symmetric around the centre |
| Reachability.LayersAreDistances | server/src/utils/workflow-layout.ts:35-53 | A layering of walks that no edge can shorten assigns exactly the distances, to exactly the reachable nodes |
| ProcessTree.ListDescendantProcesses | server/src/utils/process-tree.ts:57-83 | Exactly the processes reachable from the root by parent links, once each, parents first, for any table |
| ProcessTree.ChildrenSignalledFirst | server/src/utils/process-tree.ts:110-113 | The kill order has every process once, each before its parent, the root last |
| ProcessTree.WaitForProcessesToExit | server/src/utils/process-tree.ts:41-55 | Leaves, once each and in order, exactly the processes every look found alive |
| ProcessTree.KillProcessTree | server/src/utils/process-tree.ts:110-143 | Sends SIGTERM to exactly the processes of the tree that exist, children first, SIGKILL to those alive through the whole first wait, reports as failed those alive through both, and reports every signalled process once |
| TerminalSessions.AppendKeepsLongestIff | server/src/terminal-manager.ts:240-253 | Appending keeps the scrollback the longest suffix within both limits exactly when nothing over the limits follows an empty chunk |
| TerminalSessions.EmptyChunkOverflows | server/src/terminal-manager.ts:249-251 | A new terminal that outputs an empty chunk and then two chunks that fit alone but not together stays over its limit |
| TerminalSessions.ScrollbackLongestIff | server/src/terminal-manager.ts:240-253 | The scrollback is the longest suffix of the output within both limits at every point of a run exactly when no event of the run stops the trimming early |
| TerminalSessions.NonEmptyOutput | server/src/terminal-manager.ts:60-180 | From its creation on, over any run without empty chunks, a terminal keeps the longest suffix within both limits and its last client a gap-free view |
| TerminalSessions.ViewsAreContiguous | server/src/terminal-manager.ts:105-180 | Over any run the byte counter adds up, and the scrollback handed over with the output sent since is one gap-free slice of the full output |
| TerminalSessions.ManagedTerminal.AppendScrollback | server/src/terminal-manager.ts:240-253 | The trimming loop, its early stop included |
| TerminalSessions.ManagedTerminal.HandleData | server/src/terminal-manager.ts:105-114 | Appends and delivers to the owner |
| TerminalSessions.ManagedTerminal.HandleExit | server/src/terminal-manager.ts:116-137 | An owned exit is delivered and ends the entry; a detached one is kept |
| TerminalSessions.ManagedTerminal.AttachClient | server/src/terminal-manager.ts:141-173 | Hands over scrollback and a pending exit, which it consumes |
| TerminalSessions.ManagedTerminal.DetachTerminal | server/src/terminal-manager.ts:175-180 | Only the named client is detached |
| TerminalOwners.OwnerIff | server/src/terminal-manager.ts:141-180 | A client owns a terminal exactly when it attached and nothing has taken the terminal away since; the detach of a stale client does not |
| TerminalOwners.OutputReaches | server/src/terminal-manager.ts:105-114 | Output is sent once to its owner, and to nobody else |
| TerminalOwners.ExitToldOnce | server/src/terminal-manager.ts:116-172 | The exit code is told exactly once: to the owner at the exit, or else to the first client that attaches afterwards, and the entry ends with that |
| ShellQuoting.JoinRoundTrip | ntfy-bridge/sse.go:196-213 | Tokenizing a joined command line gives back exactly the arguments |
| ShellQuoting.EscapeRoundTrip | server/src/terminal-manager.ts:267-270 | Tokenizing an escaped path gives back exactly the path |
| ShellQuoting.EscapedAfterCommand | server/src/terminal-manager.ts:88-92 | After cd the escaped path is still one word |
| ShellQuoting.ShellJoin | ntfy-bridge/sse.go:196-202 | The loop's line tokenizes to the arguments |
| ShellQuoting.IsSafeShellWord | ntfy-bridge/sse.go:214-226 | True exactly for words of safe characters |
| ShellQuoting.UnquotedIff | ntfy-bridge/sse.go:204-212 | A word is left as it is exactly when it is not empty and all of it is safe |
| RateLimiting.RateBound | gateway/src/server.ts:138-152 | Whatever other keys and the cleanup do, in any interval of the window's length a key is admitted less than two windows' quotas, a quota being the limit and at least one |
| RateLimiting.RateBoundReached | gateway/src/server.ts:138-152 | Two bursts around the end of a window reach that bound, for every limit |
| RateLimiting.WindowBound | gateway/src/server.ts:138-152 | A window admits at most its quota |
| RateLimiting.CleanupInvisible | gateway/src/server.ts:162-170 | Dropping every cleanup from a run changes no decision |
| RateLimiting.RateLimiter.CheckLimit | gateway/src/server.ts:138-152 | The decision and the new table |
| RateLimiting.RateLimiter.Clean | gateway/src/server.ts:162-170 | Removes exactly the entries that have run out |

## Left out

- McpFraming.McpStdioClient.ParseContentLengthMessage: lengths are unbounded integers, so rounding above 2^53 and infinity are not modelled; white space is ASCII white space, also in the detection of the framing.
- McpStreams.FramingRoundTrip: messages are byte sequences; JSON printing and parsing, UTF-8 decoding and the table of pending requests are not modelled.
- ShellQuoting.JoinRoundTrip: covers token recognition and quote removal; a first word of the form name=value, which a shell would take for an assignment, is one token here.
- TerminalSessions.ViewsAreContiguous: one terminal at a time; the table of terminals by id, idle timers, resizing, and late output of a PTY whose entry was destroyed are not modelled.
- RuntimeCore.BackendFacadeRuntimeCore.HandleMessage: states the stores, the commands sent and the backend state events; the other UI events, the snapshots published with them, errors thrown by listeners and the local backend id are not modelled, nor a local backend that answers a command before it returns.
- GatewayServing.GatewayServer.HandlePeerHello: secret and protocol version checks, recovery tokens, the socket-to-peer table and the ping bookkeeping are not modelled; a peer session is a value in the peers map, so aliasing of session objects is not captured.
- GatewayServing.GatewayServer.SettlePendingRequest: response bodies, headers and the timers themselves are not modelled; a timeout is one of the outcomes.
- ProcessTree.ListDescendantProcesses: the process table is given; running ps, parsing its output and its failure, which yields no descendants, are not modelled.
- ProcessTree.KillProcessTree: a wait is the sequence of its looks at the processes; the clock that ends it is not modelled.
- Timestamps other than heartbeats and stream times, names, payload contents and the meaning of capabilities.
- SQLite: the two tables are maps, as in the in-memory branch; random identifiers are assumed fresh.
- The facade's transport: its events are taken as an in-order image of the gateway's messages on one connection; reconnection and stop/start are not modelled.
- lastError of a registry record, which no function above reads.
- Push notifications, authentication, address limits, CORS, HTTP bodies, desktop UI, scripts and configuration.
