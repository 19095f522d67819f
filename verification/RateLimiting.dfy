/** The gateway's fixed-window rate limiter: checkLimit and its cleanup timer in gateway/src/server.ts. */
module RateLimiting {
  import opened Options

  type Time = int
  type Key = string

  datatype Entry = Entry(count: nat, resetAt: Time)

  type Entries = map<Key, Entry>

  datatype Op = Call(key: Key, now: Time) | Cleanup(now: Time)

  // ---------------------------------------------------------------- one key at a time

  /** The key's entry starts a new window. */
  predicate Restarts(e: Option<Entry>, now: Time) {
    e.None? || now > e.value.resetAt
  }

  /** checkLimit, on the key's entry. */
  function Checked(e: Option<Entry>, window: Time, now: Time): Entry {
    if Restarts(e, now) then Entry(1, now + window) else e.value.(count := e.value.count + 1)
  }

  predicate Admits(e: Option<Entry>, limit: nat, now: Time) {
    Restarts(e, now) || e.value.count + 1 <= limit
  }

  function CellNext(e: Option<Entry>, window: Time, op: Op, key: Key): Option<Entry> {
    match op
    case Call(k, now) => if k == key then Some(Checked(e, window, now)) else e
    case Cleanup(now) => if Restarts(e, now) then None else e
  }

  /** An admitted call for the key inside the interval. */
  function Counted(e: Option<Entry>, limit: nat, op: Op, key: Key, lo: Time, hi: Time): nat {
    if op.Call? && op.key == key && Admits(e, limit, op.now) && lo <= op.now <= hi then 1 else 0
  }

  /** How many calls for the key are admitted between lo and hi. */
  function Admitted(e: Option<Entry>, limit: nat, window: Time, ops: seq<Op>, key: Key, lo: Time, hi: Time): nat
    decreases |ops|
  {
    if ops == [] then 0
    else Counted(e, limit, ops[0], key, lo, hi) + Admitted(CellNext(e, window, ops[0], key), limit, window, ops[1..], key, lo, hi)
  }

  /** The clock never goes back. */
  predicate Ordered(ops: seq<Op>) {
    forall i, j :: 0 <= i < j < |ops| ==> ops[i].now <= ops[j].now
  }

  predicate From(ops: seq<Op>, time: Time) {
    forall i :: 0 <= i < |ops| ==> time <= ops[i].now
  }

  lemma OrderedRest(ops: seq<Op>)
    requires ops != [] && Ordered(ops)
    ensures Ordered(ops[1..]) && From(ops[1..], ops[0].now)
  {
  }

  lemma {:induction false} NothingAfter(e: Option<Entry>, limit: nat, window: Time, ops: seq<Op>, key: Key, lo: Time,
                                        hi: Time)
    requires forall i :: 0 <= i < |ops| ==> hi < ops[i].now
    ensures Admitted(e, limit, window, ops, key, lo, hi) == 0
    decreases |ops|
  {
    if ops != [] {
      assert forall i :: 0 <= i < |ops[1..]| ==> ops[1..][i] == ops[i + 1];
      NothingAfter(CellNext(e, window, ops[0], key), limit, window, ops[1..], key, lo, hi);
    }
  }

  /** How many more calls an entry admits. */
  function Capacity(e: Option<Entry>, limit: nat): nat {
    if e.Some? && e.value.count <= limit then limit - e.value.count else 0
  }

  /** What a window admits: a call that opens one always passes. */
  function Quota(limit: nat): nat {
    if limit == 0 then 1 else limit
  }

  /** An entry counts the call that made it. */
  predicate Begun(e: Option<Entry>) {
    e.Some? ==> e.value.count >= 1
  }

  /** Until an entry resets, it admits no more than its remaining capacity. */
  lemma {:induction false} OneWindow(e: Option<Entry>, limit: nat, window: Time, ops: seq<Op>, key: Key, lo: Time,
                                     hi: Time)
    requires Ordered(ops) && e.Some? && hi <= e.value.resetAt
    ensures Admitted(e, limit, window, ops, key, lo, hi) <= Capacity(e, limit)
    decreases |ops|
  {
    if ops != [] {
      OrderedRest(ops);
      var e' := CellNext(e, window, ops[0], key);
      if ops[0].now > e.value.resetAt {
        NothingAfter(e', limit, window, ops[1..], key, lo, hi);
      } else {
        OneWindow(e', limit, window, ops[1..], key, lo, hi);
      }
    }
  }

  /** From the start of the interval on: what the current entry has left, and one more window. */
  lemma {:induction false} TwoWindows(e: Option<Entry>, limit: nat, window: Time, ops: seq<Op>, key: Key, lo: Time,
                                      hi: Time)
    requires hi - lo <= window && Ordered(ops) && From(ops, lo)
    ensures Admitted(e, limit, window, ops, key, lo, hi) <= Capacity(e, limit) + Quota(limit)
    decreases |ops|
  {
    if ops != [] {
      OrderedRest(ops);
      assert lo <= ops[0].now;
      var e' := CellNext(e, window, ops[0], key);
      if ops[0].Call? && ops[0].key == key && Restarts(e, ops[0].now) {
        OneWindow(e', limit, window, ops[1..], key, lo, hi);
      } else {
        assert From(ops[1..], lo);
        TwoWindows(e', limit, window, ops[1..], key, lo, hi);
      }
    }
  }

  /** No interval of the window's length sees more than two windows' calls, wherever it starts, and begun entries one less. */
  lemma {:induction false} AtMostTwice(e: Option<Entry>, limit: nat, window: Time, ops: seq<Op>, key: Key, lo: Time,
                                       hi: Time)
    requires hi - lo <= window && Ordered(ops)
    ensures Admitted(e, limit, window, ops, key, lo, hi) <= 2 * Quota(limit)
    ensures Begun(e) ==> Admitted(e, limit, window, ops, key, lo, hi) <= 2 * Quota(limit) - 1
    decreases |ops|
  {
    if ops != [] {
      OrderedRest(ops);
      if ops[0].now < lo {
        AtMostTwice(CellNext(e, window, ops[0], key), limit, window, ops[1..], key, lo, hi);
      } else {
        forall i | 0 <= i < |ops| ensures lo <= ops[i].now { if i > 0 { assert ops[0].now <= ops[i].now; } }
        TwoWindows(e, limit, window, ops, key, lo, hi);
      }
    }
  }

  /** A window that a call opens admits at most its quota, that call included, until it resets. */
  lemma WindowBound(e: Option<Entry>, limit: nat, window: Time, ops: seq<Op>, key: Key)
    requires ops != [] && Ordered(ops)
    requires ops[0].Call? && ops[0].key == key && Restarts(e, ops[0].now)
    ensures Admitted(e, limit, window, ops, key, ops[0].now, ops[0].now + window) <= Quota(limit)
  {
    OrderedRest(ops);
    OneWindow(CellNext(e, window, ops[0], key), limit, window, ops[1..], key, ops[0].now, ops[0].now + window);
  }

  // ---------------------------------------------------------------- the whole table

  function Next(entries: Entries, window: Time, op: Op): Entries {
    match op
    case Call(key, now) => entries[key := Checked(Lookup(entries, key), window, now)]
    case Cleanup(now) => map key | key in entries && !(now > entries[key].resetAt) :: entries[key]
  }

  /** An operation acts on each key by itself. */
  lemma NextAt(entries: Entries, window: Time, op: Op, key: Key)
    ensures Lookup(Next(entries, window, op), key) == CellNext(Lookup(entries, key), window, op, key)
  {
  }

  /** How many calls for the key the table admits between lo and hi. */
  function TableAdmitted(entries: Entries, limit: nat, window: Time, ops: seq<Op>, key: Key, lo: Time, hi: Time): nat
    decreases |ops|
  {
    if ops == [] then 0
    else
      var op := ops[0];
      (if op.Call? && op.key == key && lo <= op.now <= hi && Admits(Lookup(entries, op.key), limit, op.now) then 1 else 0) +
      TableAdmitted(Next(entries, window, op), limit, window, ops[1..], key, lo, hi)
  }

  lemma {:induction false} KeysIndependent(entries: Entries, limit: nat, window: Time, ops: seq<Op>, key: Key,
                                           lo: Time, hi: Time)
    ensures TableAdmitted(entries, limit, window, ops, key, lo, hi) ==
            Admitted(Lookup(entries, key), limit, window, ops, key, lo, hi)
    decreases |ops|
  {
    hide Next, CellNext, Admits;
    if ops != [] {
      NextAt(entries, window, ops[0], key);
      KeysIndependent(Next(entries, window, ops[0]), limit, window, ops[1..], key, lo, hi);
    }
  }

  /**
   * Whatever other keys and the cleanup do, in any interval of the window's length a key gets less than two windows'
   * calls, once its entry, if it has one, counts the call that made it.
   */
  lemma RateBound(entries: Entries, limit: nat, window: Time, ops: seq<Op>, key: Key, lo: Time, hi: Time)
    requires hi - lo <= window && Ordered(ops)
    ensures TableAdmitted(entries, limit, window, ops, key, lo, hi) <= 2 * Quota(limit)
    ensures Begun(Lookup(entries, key)) ==> TableAdmitted(entries, limit, window, ops, key, lo, hi) <= 2 * Quota(limit) - 1
  {
    KeysIndependent(entries, limit, window, ops, key, lo, hi);
    AtMostTwice(Lookup(entries, key), limit, window, ops, key, lo, hi);
  }

  function Repeated(n: nat, key: Key, now: Time): seq<Op> {
    seq(n, _ => Call(key, now))
  }

  /** n calls within the window of e and within its limit are all admitted. */
  lemma {:induction false} BurstLeft(e: Entry, limit: nat, window: Time, n: nat, now: Time, rest: seq<Op>, key: Key,
                                     lo: Time, hi: Time)
    requires now <= e.resetAt && e.count + n <= limit && lo <= now <= hi
    ensures Admitted(Some(e), limit, window, Repeated(n, key, now) + rest, key, lo, hi) ==
            n + Admitted(Some(Entry(e.count + n, e.resetAt)), limit, window, rest, key, lo, hi)
    decreases n
  {
    var ops := Repeated(n, key, now) + rest;
    if n == 0 {
      assert ops == rest;
    } else {
      assert ops[0] == Call(key, now) && ops[1..] == Repeated(n - 1, key, now) + rest;
      BurstLeft(Entry(e.count + 1, e.resetAt), limit, window, n - 1, now, rest, key, lo, hi);
    }
  }

  /** A call that opens a window, and as many more at `later`, within it, as it admits. */
  function Burst(limit: nat, key: Key, now: Time, later: Time): seq<Op> {
    [Call(key, now)] + Repeated(Quota(limit) - 1, key, later)
  }

  /** How much of a burst that starts a window falls between lo and hi. */
  lemma BurstAdmitted(e: Option<Entry>, limit: nat, window: Time, now: Time, later: Time, rest: seq<Op>, key: Key, lo: Time,
                      hi: Time)
    requires Restarts(e, now) && now <= later <= now + window && lo <= later <= hi && now <= hi
    ensures Admitted(e, limit, window, Burst(limit, key, now, later) + rest, key, lo, hi) ==
            (if lo <= now then Quota(limit) else Quota(limit) - 1) +
            Admitted(Some(Entry(Quota(limit), now + window)), limit, window, rest, key, lo, hi)
  {
    var n := Quota(limit) - 1;
    var ops := Burst(limit, key, now, later) + rest;
    var more := Repeated(n, key, later) + rest;
    assert ops[0] == Call(key, now) && ops[1..] == more;
    if n == 0 {
      assert more == rest;
    } else {
      BurstLeft(Entry(1, now + window), limit, window, n, later, rest, key, lo, hi);
    }
  }

  /** A window opened by one call and filled at its end, and the next one filled at once. */
  function TwoBursts(limit: nat, window: Time, key: Key): seq<Op> {
    Burst(limit, key, 0, window) + Burst(limit, key, window + 1, window + 1)
  }

  /** The bound is reached, from an empty table, by two bursts around the end of a window. */
  lemma RateBoundReached(limit: nat, window: Time, key: Key)
    requires window >= 1
    ensures Ordered(TwoBursts(limit, window, key))
    ensures TableAdmitted(map[], limit, window, TwoBursts(limit, window, key), key, window, 2 * window) == 2 * Quota(limit) - 1
  {
    hide Burst, Admitted, TableAdmitted, Ordered;
    var second := Burst(limit, key, window + 1, window + 1);
    KeysIndependent(map[], limit, window, TwoBursts(limit, window, key), key, window, 2 * window);
    BurstAdmitted(None, limit, window, 0, window, second, key, window, 2 * window);
    BurstAdmitted(Some(Entry(Quota(limit), window)), limit, window, window + 1, window + 1, [], key, window, 2 * window);
    assert second + [] == second;
    NoneLeft(Some(Entry(Quota(limit), 2 * window + 1)), limit, window, key, window, 2 * window);
    BurstsOrdered(limit, window, key);
  }

  lemma NoneLeft(e: Option<Entry>, limit: nat, window: Time, key: Key, lo: Time, hi: Time)
    ensures Admitted(e, limit, window, [], key, lo, hi) == 0
  {
  }

  lemma BurstsOrdered(limit: nat, window: Time, key: Key)
    requires window >= 0
    ensures Ordered(TwoBursts(limit, window, key))
  {
  }

  /** The answers of the calls, in order. */
  function Decisions(entries: Entries, limit: nat, window: Time, ops: seq<Op>): seq<bool>
    decreases |ops|
  {
    if ops == [] then []
    else (if ops[0].Call? then [Admits(Lookup(entries, ops[0].key), limit, ops[0].now)] else []) +
         Decisions(Next(entries, window, ops[0]), limit, window, ops[1..])
  }

  function CallsOnly(ops: seq<Op>): seq<Op> {
    if ops == [] then [] else (if ops[0].Call? then [ops[0]] else []) + CallsOnly(ops[1..])
  }

  /** Two tables that answer alike from `now` on: where they differ, an entry has run out. */
  ghost predicate Alike(entries: Entries, others: Entries, now: Time) {
    forall key :: Lookup(entries, key) == Lookup(others, key) ||
                  (Restarts(Lookup(entries, key), now) && Restarts(Lookup(others, key), now))
  }

  lemma AlikeNext(entries: Entries, others: Entries, window: Time, op: Op)
    requires Alike(entries, others, op.now)
    ensures op.Call? ==> Alike(Next(entries, window, op), Next(others, window, op), op.now)
    ensures op.Cleanup? ==> Alike(Next(entries, window, op), others, op.now)
    ensures op.Call? ==> forall limit ::
              Admits(Lookup(entries, op.key), limit, op.now) == Admits(Lookup(others, op.key), limit, op.now)
  {
    assert op.Call? ==> Lookup(entries, op.key) == Lookup(others, op.key) ||
                        (Restarts(Lookup(entries, op.key), op.now) && Restarts(Lookup(others, op.key), op.now));
    forall key
      ensures op.Call? ==> Lookup(Next(entries, window, op), key) == Lookup(Next(others, window, op), key) ||
                           (Restarts(Lookup(Next(entries, window, op), key), op.now) && Restarts(Lookup(Next(others, window, op), key), op.now))
      ensures op.Cleanup? ==> Lookup(Next(entries, window, op), key) == Lookup(others, key) ||
                              (Restarts(Lookup(Next(entries, window, op), key), op.now) && Restarts(Lookup(others, key), op.now))
    {
      NextAt(entries, window, op, key);
      NextAt(others, window, op, key);
      assert Lookup(entries, key) == Lookup(others, key) ||
             (Restarts(Lookup(entries, key), op.now) && Restarts(Lookup(others, key), op.now));
    }
  }

  lemma AlikeLater(entries: Entries, others: Entries, now: Time, later: Time)
    requires Alike(entries, others, now) && now <= later
    ensures Alike(entries, others, later)
  {
  }

  /** Dropping every cleanup from a run changes none of its decisions. */
  lemma {:induction false} CleanupInvisible(entries: Entries, others: Entries, limit: nat, window: Time, ops: seq<Op>,
                                            now: Time)
    requires Alike(entries, others, now) && Ordered(ops) && From(ops, now)
    ensures Decisions(entries, limit, window, ops) == Decisions(others, limit, window, CallsOnly(ops))
    decreases |ops|
  {
    hide Alike, Next, Admits;
    if ops != [] {
      OrderedRest(ops);
      AlikeLater(entries, others, now, ops[0].now);
      AlikeNext(entries, others, window, ops[0]);
      if ops[0].Call? {
        CleanupInvisible(Next(entries, window, ops[0]), Next(others, window, ops[0]), limit, window, ops[1..],
                         ops[0].now);
        assert CallsOnly(ops)[0] == ops[0] && CallsOnly(ops)[1..] == CallsOnly(ops[1..]);
      } else {
        CleanupInvisible(Next(entries, window, ops[0]), others, limit, window, ops[1..], ops[0].now);
        assert CallsOnly(ops) == CallsOnly(ops[1..]);
      }
    }
  }

  // ---------------------------------------------------------------- the object

  class RateLimiter {
    const limit: nat
    const window: Time
    var entries: Entries

    constructor (limit: nat, window: Time)
      ensures this.limit == limit && this.window == window && entries == map[]
    {
      this.limit := limit;
      this.window := window;
      entries := map[];
    }

    method CheckLimit(key: Key, now: Time) returns (admitted: bool)
      modifies this
      ensures entries == Next(old(entries), window, Call(key, now))
      ensures admitted == Admits(Lookup(old(entries), key), limit, now)
    {
      if key !in entries || now > entries[key].resetAt {
        entries := entries[key := Entry(1, now + window)];
        return true;
      }
      var entry := entries[key];
      entry := entry.(count := entry.count + 1);
      entries := entries[key := entry];
      admitted := !(entry.count > limit);
    }

    method Clean(now: Time)
      modifies this
      ensures entries == Next(old(entries), window, Cleanup(now))
    {
      var rest := entries.Keys;
      while rest != {}
        invariant rest <= entries.Keys <= old(entries).Keys
        invariant forall key :: key in entries ==> entries[key] == old(entries)[key]
        invariant forall key :: key in old(entries) && key !in rest ==> (key in entries <==> !(now > old(entries)[key].resetAt))
        decreases rest
      {
        var key :| key in rest;
        if now > entries[key].resetAt {
          entries := entries - {key};
        }
        rest := rest - {key};
      }
    }
  }
}
