/** The facade's event loop is the client of the end-to-end runs: what it makes of an event is what reading makes of it. */
module EndToEndFacade {
  import opened Options
  import opened Gateway
  import opened Client
  import opened EndToEnd
  import opened EndToEndRuns
  import opened RuntimeCore
  import Store = RegistryStore

  /** What the adapter makes of a message: a registry becomes a list of it, in some order. */
  ghost predicate Carries(e: AdapterEvent, m: Msg, arrival: Arrival) {
    match e
    case RegistryReceived(items) => m.RegistrySnapshot? && Store.ListsRegistry(items, m.items)
    case MessageReceived(x, a) => x == m && !m.RegistrySnapshot? && a == arrival
  }

  function ClientOf(s: System): Facade {
    Facade(s.client, s.streams)
  }

  /** The events and actions of reading the messages from the front on. */
  ghost predicate Reads(events: seq<AdapterEvent>, messages: seq<Msg>, actions: seq<Action>) {
    && |events| == |actions| <= |messages|
    && forall i :: 0 <= i < |events| ==> actions[i].ClientReads? && Carries(events[i], messages[i], actions[i].arrival)
  }

  /** Reading one message is receiving its event, and asks for what the event reopens. */
  lemma ReadIsReceived(s: System, a: Action, e: AdapterEvent)
    requires CanAct(s, a) && a.ClientReads? && Carries(e, Unread(s)[0], a.arrival)
    ensures ClientOf(Act(s, a)) == Received(ClientOf(s), e)
    ensures Visits(a.order, ReopenedBy(ClientOf(s), e)) && Act(s, a).up == s.up + SubAll(a.order)
    ensures Act(s, a).g == s.g && Act(s, a).p == s.p && Unread(Act(s, a)) == Unread(s)[1..]
  {
    hide ToReopen, Reopen, Visits;
    var m := Unread(s)[0];
    if m.RegistrySnapshot? { Store.ListingIrrelevant(s.client.records, e.items, m.items); }
  }

  lemma {:induction false} ReceivedFirst(f: Facade, events: seq<AdapterEvent>)
    requires events != []
    ensures ReceivedAll(f, events) == ReceivedAll(Received(f, events[0]), events[1..])
    decreases |events|
  {
    hide Received;
    var n := |events| - 1;
    if n == 0 {
      assert events[..0] == [] && events[1..] == [];
    } else {
      ReceivedFirst(f, events[..n]);
      assert events[..n][1..] == events[1..][..n - 1] && events[1..][n - 1] == events[n];
    }
  }

  /** Reading any number of messages is receiving their events one after the other, as the replay at the start does. */
  lemma {:induction false} ReadsAreReceived(s: System, actions: seq<Action>, events: seq<AdapterEvent>)
    requires CanRun(s, actions) && Reads(events, Unread(s), actions)
    ensures ClientOf(Run(s, actions)) == ReceivedAll(ClientOf(s), events)
    decreases |actions|
  {
    hide CanAct, Act, Received, Carries, Unread;
    if actions != [] {
      var t := Act(s, actions[0]);
      ReadIsReceived(s, actions[0], events[0]);
      ReceivedFirst(ClientOf(s), events);
      assert Reads(events[1..], Unread(t), actions[1..]) by { Later(events, Unread(s), actions); }
      ReadsAreReceived(t, actions[1..], events[1..]);
    }
  }

  lemma Later(events: seq<AdapterEvent>, messages: seq<Msg>, actions: seq<Action>)
    requires actions != [] && Reads(events, messages, actions)
    ensures Reads(events[1..], messages[1..], actions[1..])
  {
    hide Carries;
  }
}
