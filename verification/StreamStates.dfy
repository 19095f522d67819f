/** What each operation makes of a stream, stream by stream, and how a stream comes to be in error. */
module StreamStates {
  import opened Options
  import opened Storage
  import opened Streams

  /** The user wants the stream open. */
  predicate Wants(m: Manager, key: Key) {
    key in m.desired && m.desired[key].shouldBeOpen
  }

  predicate InState(m: Manager, key: Key, state: StreamState) {
    key in m.streams && m.streams[key].state == state
  }

  /** Nothing about the key has changed. */
  predicate Untouched(m: Manager, m': Manager, key: Key) {
    Lookup(m'.desired, key) == Lookup(m.desired, key) && Lookup(m'.streams, key) == Lookup(m.streams, key)
  }

  /** An operation on one stream leaves the others alone, and one on a backend the streams of the others. */
  lemma OthersUntouched(m: Manager, op: Op, key: Key)
    requires op.RequestOpen? || op.RequestClose? || op.SessionClosed? || op.PatchArrived? || op.RunArrived? ==> op.key != key
    requires op.BecameReady? || op.Unsubscribed? ==> op.backendId != key.backendId
    requires !op.CollectGarbage?
    ensures Untouched(m, Step(m, op), key)
  {
    hide Step;
    StepAt(m, op, key);
  }

  /** Opening: wanted and to be resumed, and, unless it is open, opening without an error. */
  lemma OpenMeans(m: Manager, key: Key, now: Time)
    ensures var m' := Step(m, RequestOpen(key, now));
            && Wants(m', key) && m'.desired[key].autoResume && m'.desired[key].updatedAt == now
            && m'.desired[key].openedAt == (if key in m.desired then m.desired[key].openedAt else now)
            && key in m'.streams
            && if InState(m, key, Open) then m'.streams[key] == m.streams[key]
               else && m'.streams[key].state == Opening && m'.streams[key].source == Requested
                    && m'.streams[key].lastError == None && m'.streams[key].openedAt == Some(now)
                    && m'.streams[key].updatedAt == now
  {
    hide Step;
    StepAt(m, RequestOpen(key, now), key);
  }

  /** Closing: not wanted, and closed now unless it was closed before. */
  lemma CloseMeans(m: Manager, key: Key, now: Time)
    ensures var m' := Step(m, RequestClose(key, now));
            && !Wants(m', key) && (key in m'.desired <==> key in m.desired) && (key in m'.streams <==> key in m.streams)
            && (key in m.streams ==> m'.streams[key].state == Closed)
            && (key in m.desired ==>
                  && m'.desired[key].updatedAt == now && m'.desired[key].openedAt == m.desired[key].openedAt
                  && m'.desired[key].autoResume == m.desired[key].autoResume)
            && (key in m.streams && m.streams[key].state != Closed ==>
                  && m'.streams[key].closedAt == Some(now) && m'.streams[key].updatedAt == now
                  && m'.streams[key].lastError == m.streams[key].lastError)
            && (InState(m, key, Closed) ==> m'.streams[key] == m.streams[key])
  {
    hide Step;
    StepAt(m, RequestClose(key, now), key);
  }

  /** A backend that becomes ready resumes exactly the wanted streams that are to be resumed and are not open. */
  lemma ReadyMeans(m: Manager, b: BackendId, now: Time, key: Key)
    requires key.backendId == b
    ensures var m' := Step(m, BecameReady(b, now));
            && Lookup(m'.desired, key) == Lookup(m.desired, key)
            && if Wants(m, key) && m.desired[key].autoResume && !InState(m, key, Open)
               then && InState(m', key, Opening) && m'.streams[key].lastError == None
                    && m'.streams[key].openedAt == Some(now) && m'.streams[key].updatedAt == now
                    && m'.streams[key].source == (if key in m.streams then m.streams[key].source else Requested)
               else Untouched(m, m', key)
  {
    hide Step;
    StepAt(m, BecameReady(b, now), key);
  }

  /**
   * The loss of a backend closes its unwanted streams with the reason; a wanted one waits, opening, when the backend will
   * recover, and is in error with the reason when it will not.  Closed streams stay as they are.
   */
  lemma LossMeans(m: Manager, b: BackendId, reason: string, willAutoRecover: bool, now: Time, key: Key)
    requires key.backendId == b
    ensures var m' := Step(m, Unsubscribed(b, reason, willAutoRecover, now));
            && Lookup(m'.desired, key) == Lookup(m.desired, key)
            && if key in m.streams && m.streams[key].state != Closed then
                 && key in m'.streams && m'.streams[key].updatedAt == now
                 && if !Wants(m, key) then
                      && m'.streams[key].state == Closed && m'.streams[key].lastCloseReason == Some(reason)
                      && m'.streams[key].closedAt == Some(now) && m'.streams[key].lastError == m.streams[key].lastError
                    else if willAutoRecover then
                      m'.streams[key].state == Opening && m'.streams[key].lastError == m.streams[key].lastError
                    else
                      m'.streams[key].state == Errored && m'.streams[key].lastError == Some(reason)
               else Untouched(m, m', key)
  {
    hide Step;
    StepAt(m, Unsubscribed(b, reason, willAutoRecover, now), key);
  }

  /** A session the gateway closes puts a wanted stream in error with the reason, and closes any other with it. */
  lemma SessionClosedMeans(m: Manager, key: Key, reason: string, now: Time)
    ensures var m' := Step(m, SessionClosed(key, reason, now));
            && Lookup(m'.desired, key) == Lookup(m.desired, key) && (key in m'.streams <==> key in m.streams)
            && (key in m.streams ==>
                  && m'.streams[key].updatedAt == now
                  && if Wants(m, key) then m'.streams[key].state == Errored && m'.streams[key].lastError == Some(reason)
                     else && m'.streams[key].state == Closed && m'.streams[key].lastCloseReason == Some(reason)
                          && m'.streams[key].closedAt == Some(now))
  {
    hide Step;
    StepAt(m, SessionClosed(key, reason, now), key);
  }

  /** A patch or a run event leaves its stream open and without an error, new or not, exactly unless it was closed. */
  lemma ArrivalMeans(m: Manager, op: Op, key: Key)
    requires (op.PatchArrived? || op.RunArrived?) && op.key == key
    ensures var m' := Step(m, op);
            && Lookup(m'.desired, key) == Lookup(m.desired, key)
            && key in m'.streams && m'.streams[key].lastActivityAt == op.now && m'.streams[key].updatedAt == op.now
            && m'.streams[key].state == (if InState(m, key, Closed) then Closed else Open)
            && (key !in m.streams ==>
                  && m'.streams[key].source == Ephemeral && m'.streams[key].openedAt == None
                  && m'.streams[key].closedAt == None && m'.streams[key].lastCloseReason == None)
            && (key in m.streams ==> m'.streams[key].source == m.streams[key].source)
            && (key !in m.streams || m.streams[key].state == Opening || m.streams[key].state == Errored ==>
                  m'.streams[key].lastError == None)
  {
    hide Step;
    StepAt(m, op, key);
  }

  // ---------------------------------------------------------------- what is said of a stream

  /** One of the events reports the state of the stream. */
  ghost predicate Told(events: seq<StreamEvent>, key: Key) {
    exists e :: e in events && e.StateChanged? && e.key == key
  }

  lemma {:induction false} ToldIff(m: Manager, op: Op, order: seq<Key>, key: Key)
    requires forall i, j :: 0 <= i < j < |order| ==> order[i] != order[j]
    ensures Told(Announcements(m, op, order), key) <==> key in order && Announced(At(m, key), op, key)
    decreases |order|
  {
    hide Shown, Announced;
    if order != [] {
      var n := |order| - 1;
      var last := order[n];
      var before, now := Announcements(m, op, order[..n]), AnnouncedAt(At(m, last), op, last);
      ToldIff(m, op, order[..n], key);
      ToldConcat(before, now, key);
      assert key in order <==> key == last || key in order[..n];
      if Announced(At(m, last), op, last) {
        var e := Announcement(last, Shown(At(m, last), op, last));
        assert now == [e];
        assert Told([e], last) by { assert e in [e]; }
      }
    }
  }

  lemma ToldConcat(first: seq<StreamEvent>, second: seq<StreamEvent>, key: Key)
    ensures Told(first + second, key) <==> Told(first, key) || Told(second, key)
  {
    if Told(first, key) {
      var e :| e in first && e.StateChanged? && e.key == key;
      assert e in first + second;
    }
    if Told(second, key) {
      var e :| e in second && e.StateChanged? && e.key == key;
      assert e in first + second;
    }
  }

  lemma {:induction false} FromACell(m: Manager, op: Op, order: seq<Key>, e: StreamEvent) returns (key: Key)
    requires e in Announcements(m, op, order)
    ensures Announced(At(m, key), op, key) && e == Announcement(key, Shown(At(m, key), op, key))
    decreases |order|
  {
    hide Shown, Announced;
    var n := |order| - 1;
    if e in Announcements(m, op, order[..n]) { key := FromACell(m, op, order[..n], e); } else { key := order[n]; }
  }

  /** Each event shows its stream as the operation leaves it; a patch is only counted in the event that passes it on. */
  lemma EventsShow(m: Manager, op: Op, order: seq<Key>, e: StreamEvent)
    requires e in Announcements(m, op, order)
    ensures var m' := Step(m, op);
            && e.StateChanged? && e.key in m'.streams
            && e.state == m'.streams[e.key].state && e.lastError == m'.streams[e.key].lastError
            && e.updatedAt == m'.streams[e.key].updatedAt
            && e.latestOffset == (if op.PatchArrived? && e.key in m.streams then m.streams[e.key].latestOffset
                                  else m'.streams[e.key].latestOffset)
  {
    hide Step;
    var key := FromACell(m, op, order, e);
    StepAt(m, op, key);
  }

  /**
   * The events of an operation report exactly the streams it touches, the new state of those a patch or a run event
   * promotes, and none that stays as it is.
   */
  lemma EventsTell(m: Manager, op: Op, order: seq<Key>, key: Key)
    requires Meets(order, m, op) && !op.CollectGarbage?
    ensures var m' := Step(m, op);
            var told := Told(Announcements(m, op, order), key);
            && (told ==> key in m'.streams && m'.streams[key].updatedAt == op.now)
            && (!op.PatchArrived? && !op.RunArrived? && !told ==> Lookup(m'.streams, key) == Lookup(m.streams, key))
            && (op.PatchArrived? || op.RunArrived? ==>
                  (told <==> op.key == key && (key !in m.streams || m'.streams[key].state != m.streams[key].state)))
  {
    hide Step, Announcements, Told;
    StepAt(m, op, key);
    ToldIff(m, op, order, key);
  }

  /** A patch and a run event are passed on once, as they came; nothing else is. */
  lemma ArrivalsPassedOn(op: Op)
    ensures |PassedOn(op)| == if op.PatchArrived? || op.RunArrived? then 1 else 0
    ensures op.PatchArrived? ==> ContentPatched(op.key, op.offset) in PassedOn(op)
    ensures op.RunArrived? ==> RunReported(op.key) in PassedOn(op)
  {
  }

  // ---------------------------------------------------------------- how a stream comes to be in error

  /** The gateway closes a session that is wanted open, or its backend is lost for good. */
  predicate Fails(m: Manager, op: Op, key: Key) {
    && Wants(m, key) && key in m.streams
    && (|| (op.SessionClosed? && op.key == key)
        || (op.Unsubscribed? && op.backendId == key.backendId && !op.willAutoRecover && m.streams[key].state != Closed))
  }

  /** Opening, closing, data, recovery and a resumption take a stream out of error. */
  predicate Recovers(m: Manager, op: Op, key: Key) {
    || ((op.RequestOpen? || op.RequestClose? || op.PatchArrived? || op.RunArrived?) && op.key == key)
    || (op.BecameReady? && op.backendId == key.backendId && key in m.desired && m.desired[key].autoResume)
    || (op.Unsubscribed? && op.backendId == key.backendId && op.willAutoRecover)
  }

  /** A stream is in error exactly when it fails, or was in error and nothing takes it out. */
  lemma ErroredIff(m: Manager, op: Op, key: Key)
    requires Streams.Valid(m)
    ensures InState(m, key, Errored) ==> Wants(m, key)
    ensures InState(Step(m, op), key, Errored) <==>
            Fails(m, op, key) || (InState(m, key, Errored) && !Recovers(m, op, key))
  {
    hide Step;
    StepAt(m, op, key);
    assert Classified(At(m, key));
  }

  /** The operation at k fails the stream. */
  ghost predicate FailsAt(m: Manager, ops: seq<Op>, k: int, key: Key) {
    0 <= k < |ops| && Fails(Run(m, ops[..k]), ops[k], key)
  }

  /** A stream in error after a run has failed in it. */
  lemma {:induction false} ErrorHasCause(m: Manager, ops: seq<Op>, key: Key) returns (k: int)
    requires Streams.Valid(m) && !InState(m, key, Errored) && InState(Run(m, ops), key, Errored)
    ensures FailsAt(m, ops, k, key)
    decreases |ops|
  {
    hide Step, Streams.Valid, Fails, Recovers;
    ErroredIff(m, ops[0], key);
    if Fails(m, ops[0], key) {
      k := 0;
      assert Run(m, ops[..0]) == m;
    } else {
      StepKeepsValid(m, ops[0]);
      var j := ErrorHasCause(Step(m, ops[0]), ops[1..], key);
      k := j + 1;
      assert ops[..k][0] == ops[0] && ops[..k][1..] == ops[1..][..j];
    }
  }

  /** From the bootstrap, no stream is ever in error unless its session was closed or its backend lost for good. */
  lemma NoErrorWithoutCause(ops: seq<Op>, key: Key)
    requires forall k :: !FailsAt(EMPTY, ops, k, key)
    ensures !InState(Run(EMPTY, ops), key, Errored)
  {
    hide Run;
    assert Streams.Valid(EMPTY);
    if InState(Run(EMPTY, ops), key, Errored) { var k := ErrorHasCause(EMPTY, ops, key); }
  }
}
