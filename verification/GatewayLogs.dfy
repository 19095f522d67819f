/**
 * What a connection's reader can conclude from the messages written to it so far.  The four folds
 * below are the reader's side of the gateway's indexes; GatewayInvariants.dfy proves they agree.
 */
module GatewayLogs {
  import opened Options
  import opened Storage
  import opened Gateway

  function Front<T>(s: seq<T>): seq<T>
    requires s != []
  {
    s[..|s| - 1]
  }

  function Last<T>(s: seq<T>): T
    requires s != []
  {
    s[|s| - 1]
  }

  function BeliefAfter(before: Option<Epoch>, m: Msg, b: BackendId): Option<Epoch> {
    match m
    case BackendSubscribed(b', e, _) => if b' == b then Some(e) else before
    case BackendUnsubscribed(b', _) => if b' == b then None else before
    case _ => before
  }

  /** The epoch under which the reader is subscribed to b. */
  function Belief(log: seq<Msg>, b: BackendId): Option<Epoch> {
    if log == [] then None else BeliefAfter(Belief(Front(log), b), Last(log), b)
  }

  /** The registry last shown to the reader. */
  function LogRegistry(log: seq<Msg>): map<BackendId, Presence> {
    if log == [] then map[]
    else if Last(log).RegistrySnapshot? || Last(log).PeerReady? then Last(log).items
    else LogRegistry(Front(log))
  }

  /** The latest stream demand a backend has read; inactive until told otherwise. */
  function DemandView(log: seq<Msg>): bool {
    if log == [] then false
    else if Last(log).StreamDemand? || Last(log).HeartbeatAck? then Last(log).active
    else DemandView(Front(log))
  }

  /** A subscription was taken away and no registry snapshot has followed yet. */
  predicate Unsettled(log: seq<Msg>) {
    if log == [] then false
    else if Last(log).RegistrySnapshot? then false
    else (Last(log).BackendUnsubscribed? && Last(log).reason != ClientUnsubscribed) || Unsettled(Front(log))
  }

  /** When m may follow log: relays are fenced by epoch, and no message contradicts the earlier ones. */
  predicate GoodNext(log: seq<Msg>, m: Msg, granted: map<Epoch, (BackendId, PeerId)>) {
    match m
    case Relayed(b, _, _, sender) =>
      Belief(log, b).Some? && Lookup(granted, Belief(log, b).value) == Some((b, sender))
    case BackendSubscribed(b, e, _) =>
      && (Belief(log, b) == None || Belief(log, b) == Some(e))
      && b in LogRegistry(log) && LogRegistry(log)[b].epoch == e
    case HeartbeatAck(_, active) => DemandView(log) == active
    case PeerReady(_, _, _) => log == []
    case RegistrySnapshot(items) => log != []
    case _ => log != []
  }

  /** No snapshot drops, or moves to another epoch, a backend its reader is subscribed to. */
  ghost predicate Consistent(log: seq<Msg>, items: map<BackendId, Presence>) {
    forall b :: Belief(log, b).Some? ==> b in items && items[b].epoch == Belief(log, b).value
  }

  ghost predicate GoodLog(log: seq<Msg>, granted: map<Epoch, (BackendId, PeerId)>) {
    log == [] ||
    (&& GoodLog(Front(log), granted)
     && GoodNext(Front(log), Last(log), granted)
     && (Last(log).RegistrySnapshot? ==> Consistent(Front(log), Last(log).items)))
  }

  /** How one more message changes every fold. */
  lemma Appended(log: seq<Msg>, m: Msg)
    ensures forall b :: Belief(log + [m], b) == BeliefAfter(Belief(log, b), m, b)
    ensures LogRegistry(log + [m]) == if m.RegistrySnapshot? || m.PeerReady? then m.items else LogRegistry(log)
    ensures DemandView(log + [m]) == if m.StreamDemand? || m.HeartbeatAck? then m.active else DemandView(log)
    ensures Unsettled(log + [m]) <==> !m.RegistrySnapshot? &&
                                      ((m.BackendUnsubscribed? && m.reason != ClientUnsubscribed) || Unsettled(log))
    ensures forall granted {:trigger GoodLog(log + [m], granted)} ::
              GoodLog(log + [m], granted) <==>
              && GoodLog(log, granted)
              && GoodNext(log, m, granted)
              && (m.RegistrySnapshot? ==> Consistent(log, m.items))
  {
  }

  /** Granting a new epoch does not disturb what was already written. */
  lemma {:induction false} GrantsOnlyGrow(log: seq<Msg>, granted: map<Epoch, (BackendId, PeerId)>, e: Epoch,
                                          to: (BackendId, PeerId))
    requires GoodLog(log, granted) && e !in granted
    ensures GoodLog(log, granted[e := to])
  {
    if log != [] {
      GrantsOnlyGrow(Front(log), granted, e, to);
    }
  }

  /** Every prefix of a good log is good, and its next message is a good one. */
  lemma {:induction false} GoodPrefix(log: seq<Msg>, granted: map<Epoch, (BackendId, PeerId)>, k: nat)
    requires GoodLog(log, granted) && k <= |log|
    ensures GoodLog(log[..k], granted)
    ensures k < |log| ==> GoodNext(log[..k], log[k], granted)
    ensures k < |log| && log[k].RegistrySnapshot? ==> Consistent(log[..k], log[k].items)
  {
    if k == |log| {
      assert log[..k] == log;
    } else if k == |log| - 1 {
      assert log[..k] == Front(log);
    } else {
      GoodPrefix(Front(log), granted, k);
      assert Front(log)[..k] == log[..k];
    }
  }

  /**
   * Until the next backend_unsubscribed for b, a reader subscribed at epoch e stays subscribed at e,
   * even across repeated backend_subscribed messages.
   */
  lemma {:induction false} EpochStable(log: seq<Msg>, granted: map<Epoch, (BackendId, PeerId)>, b: BackendId, e: Epoch,
                                       i: nat, j: nat)
    requires GoodLog(log, granted) && i <= j <= |log|
    requires Belief(log[..i], b) == Some(e)
    requires forall k :: i <= k < j ==> log[k].BackendUnsubscribed? ==> log[k].backendId != b
    ensures Belief(log[..j], b) == Some(e)
    decreases j - i
  {
    if i < j {
      EpochStable(log, granted, b, e, i, j - 1);
      GoodPrefix(log, granted, j - 1);
      assert log[..j] == log[..j - 1] + [log[j - 1]];
      Appended(log[..j - 1], log[j - 1]);
    }
  }

  /**
   * Epoch fencing on one connection: between a backend_subscribed(b, e) and the next
   * backend_unsubscribed(b), every broadcast relay for b was sent by the peer granted epoch e of b.
   */
  lemma FencedBetween(log: seq<Msg>, granted: map<Epoch, (BackendId, PeerId)>, i: nat, j: nat)
    requires GoodLog(log, granted) && i < j < |log|
    requires log[i].BackendSubscribed? && log[j].Relayed? && log[j].backendId == log[i].backendId
    requires forall k :: i < k < j ==> log[k].BackendUnsubscribed? ==> log[k].backendId != log[i].backendId
    ensures Lookup(granted, log[i].epoch) == Some((log[i].backendId, log[j].sender))
  {
    assert log[..i + 1] == log[..i] + [log[i]];
    Appended(log[..i], log[i]);
    EpochStable(log, granted, log[i].backendId, log[i].epoch, i + 1, j);
    GoodPrefix(log, granted, j);
  }

  /** Every heartbeat_ack repeats the demand the backend had already been told. */
  lemma AckRepeatsDemand(log: seq<Msg>, granted: map<Epoch, (BackendId, PeerId)>, j: nat)
    requires GoodLog(log, granted) && j < |log| && log[j].HeartbeatAck?
    ensures DemandView(log[..j]) == log[j].active == DemandView(log[..j + 1])
  {
    GoodPrefix(log, granted, j);
    assert log[..j + 1] == log[..j] + [log[j]];
    Appended(log[..j], log[j]);
  }

  /** In a settled log every taken-away subscription is followed by a registry snapshot. */
  lemma {:induction false} SettledMeansFollowed(log: seq<Msg>, i: nat)
    requires !Unsettled(log) && i < |log|
    requires log[i].BackendUnsubscribed? && log[i].reason != ClientUnsubscribed
    ensures exists j :: i < j < |log| && log[j].RegistrySnapshot?
  {
    if Last(log).RegistrySnapshot? {
      assert i < |log| - 1;
    } else {
      SettledMeansFollowed(Front(log), i);
      var j :| i < j < |Front(log)| && Front(log)[j].RegistrySnapshot?;
      assert log[j].RegistrySnapshot?;
    }
  }

  /** A backend that was shown and no longer is was left out of, or moved by, a snapshot since then. */
  lemma {:induction false} RegistryChangedBetween(log: seq<Msg>, b: BackendId, i: nat)
    requires 0 < i <= |log| && b in LogRegistry(log[..i])
    requires b !in LogRegistry(log)
    requires forall j :: 0 < j < |log| ==> !log[j].PeerReady?
    ensures exists j :: i <= j < |log| && log[j].RegistrySnapshot? && b !in log[j].items
  {
    assert log[..|log|] == log;
    if i == |log| {
    } else if !Last(log).RegistrySnapshot? {
      assert log[..i] == Front(log)[..i];
      RegistryChangedBetween(Front(log), b, i);
      var j :| i <= j < |Front(log)| && Front(log)[j].RegistrySnapshot? && b !in Front(log)[j].items;
      assert log[j].RegistrySnapshot? && b !in log[j].items;
    } else {
      assert log[|log| - 1].RegistrySnapshot?;
    }
  }
}
