/** Who owns a terminal, and who is told that its process has exited: server/src/terminal-manager.ts. */
module TerminalOwners {
  import opened Options
  import opened TerminalSessions

  /** The entry after some events; once it is gone, they find nothing. */
  function Live(t: Option<Terminal>, events: seq<Event>): Option<Terminal>
    decreases |events|
  {
    if events == [] || t.None? then t else Live(After(t.value, events[0]), events[1..])
  }

  /** Everything clients are given meanwhile. */
  function Play(t: Option<Terminal>, events: seq<Event>): seq<Delivery>
    decreases |events|
  {
    if events == [] || t.None? then [] else Delivered(t.value, events[0]) + Play(After(t.value, events[0]), events[1..])
  }

  lemma {:induction false} LiveConcat(t: Option<Terminal>, first: seq<Event>, second: seq<Event>)
    ensures Live(t, first + second) == Live(Live(t, first), second)
    ensures Play(t, first + second) == Play(t, first) + Play(Live(t, first), second)
    decreases |first|
  {
    hide After, Delivered;
    if first == [] {
      assert first + second == second;
    } else if t.Some? {
      assert (first + second)[0] == first[0] && (first + second)[1..] == first[1..] + second;
      LiveConcat(After(t.value, first[0]), first[1..], second);
    }
  }

  lemma LiveOne(t: Terminal, e: Event)
    ensures Live(Some(t), [e]) == After(t, e) && Play(Some(t), [e]) == Delivered(t, e)
  {
    assert [e][1..] == [];
  }

  lemma LiveLast(t: Terminal, events: seq<Event>)
    requires events != []
    ensures var n := |events| - 1; var before := Live(Some(t), events[..n]);
            Live(Some(t), events) == if before.Some? then After(before.value, events[n]) else None
  {
    hide After;
    var n := |events| - 1;
    assert events == events[..n] + [events[n]];
    LiveConcat(Some(t), events[..n], [events[n]]);
    if Live(Some(t), events[..n]).Some? { LiveOne(Live(Some(t), events[..n]).value, events[n]); }
  }

  // ---------------------------------------------------------------- the owner

  /** Another client attaches, the owner is detached whoever it is, or c is. */
  predicate TakesFrom(e: Event, c: ClientId) {
    e.Attach? || e == Detach(None) || e == Detach(Some(c))
  }

  /** c has attached at i, or owned the terminal from the start, and nothing has taken it away since. */
  predicate HoldsSince(t: Terminal, events: seq<Event>, i: int, c: ClientId) {
    && -1 <= i < |events|
    && (if i == -1 then t.owner == Some(c) else events[i] == Attach(c))
    && forall j :: i < j < |events| ==> !TakesFrom(events[j], c)
  }

  ghost predicate Holds(t: Terminal, events: seq<Event>, c: ClientId) {
    exists i :: HoldsSince(t, events, i, c)
  }

  lemma HoldsNext(t: Terminal, events: seq<Event>, c: ClientId)
    requires events != []
    ensures var n := |events| - 1;
            Holds(t, events, c) <==> events[n] == Attach(c) || (Holds(t, events[..n], c) && !TakesFrom(events[n], c))
  {
    var n := |events| - 1;
    if events[n] == Attach(c) { assert HoldsSince(t, events, n, c); }
    if Holds(t, events[..n], c) && !TakesFrom(events[n], c) {
      var i :| HoldsSince(t, events[..n], i, c);
      assert HoldsSince(t, events, i, c);
    }
    if Holds(t, events, c) && events[n] != Attach(c) {
      var i :| HoldsSince(t, events, i, c);
      assert HoldsSince(t, events[..n], i, c);
    }
  }

  /**
   * A client owns a terminal exactly when it attached and nothing has taken the terminal away since: a stale client's
   * detaching does not.
   */
  lemma {:induction false} OwnerIff(t: Terminal, events: seq<Event>, c: ClientId)
    requires Live(Some(t), events).Some?
    ensures Live(Some(t), events).value.owner == Some(c) <==> Holds(t, events, c)
    decreases |events|
  {
    hide Live, Holds;
    if events == [] {
      NothingYet(t, c);
    } else {
      var n := |events| - 1;
      LiveLast(t, events);
      HoldsNext(t, events, c);
      OwnerIff(t, events[..n], c);
    }
  }

  lemma NothingYet(t: Terminal, c: ClientId)
    ensures Live(Some(t), []) == Some(t) && (Holds(t, [], c) <==> t.owner == Some(c))
  {
    if t.owner == Some(c) { assert HoldsSince(t, [], -1, c); }
  }

  /** Output is sent to its owner, once, and to nobody else. */
  lemma OutputReaches(t: Terminal, events: seq<Event>, data: Chunk, c: ClientId)
    requires Live(Some(t), events).Some?
    ensures var ds := Delivered(Live(Some(t), events).value, Output(data));
            && |ds| <= 1 && (ds == [Sent(c, data)] <==> Holds(t, events, c))
            && forall d :: d in ds ==> d.Sent? && d.data == data
  {
    hide Live, Holds;
    OwnerIff(t, events, c);
  }

  // ---------------------------------------------------------------- the exit code

  /** The exit codes clients are told, in order. */
  function Told(ds: seq<Delivery>): seq<int>
    decreases |ds|
  {
    if ds == [] then []
    else (match ds[0]
          case ExitSent(_, code) => [code]
          case Handed(_, _, Some(code)) => [code]
          case _ => []) + Told(ds[1..])
  }

  lemma {:induction false} ToldConcat(first: seq<Delivery>, second: seq<Delivery>)
    ensures Told(first + second) == Told(first) + Told(second)
    decreases |first|
  {
    if first == [] {
      assert first + second == second;
    } else {
      assert (first + second)[0] == first[0] && (first + second)[1..] == first[1..] + second;
      ToldConcat(first[1..], second);
    }
  }

  predicate NoExit(events: seq<Event>) {
    forall i :: 0 <= i < |events| ==> !events[i].Exit?
  }

  predicate Attaches(events: seq<Event>) {
    exists i :: 0 <= i < |events| && events[i].Attach?
  }

  lemma ToldOne(t: Terminal, e: Event)
    ensures Told(Delivered(t, e)) ==
            if (e.Exit? && t.owner.Some?) then [e.code]
            else if e.Attach? && t.exited.Some? then [t.exited.value] else []
  {
    var ds := Delivered(t, e);
    if ds != [] { assert ds[1..] == []; }
  }

  /** While its process runs, an entry stays and no exit is told. */
  lemma {:induction false} RunningStays(t: Terminal, events: seq<Event>)
    requires t.exited.None? && NoExit(events)
    ensures Live(Some(t), events).Some? && Live(Some(t), events).value.exited.None?
    ensures Told(Play(Some(t), events)) == []
    decreases |events|
  {
    hide Told, Delivered;
    if events == [] {
      NobodyTold();
    } else {
      ToldOne(t, events[0]);
      RunningStays(After(t, events[0]).value, events[1..]);
      ToldConcat(Delivered(t, events[0]), Play(After(t, events[0]), events[1..]));
    }
  }

  lemma NobodyTold()
    ensures Told([]) == []
  {
  }

  /** An exit that nobody was told waits for the first client to attach, who ends the entry. */
  lemma {:induction false} PendingTold(t: Terminal, events: seq<Event>)
    requires t.exited.Some? && NoExit(events)
    ensures Told(Play(Some(t), events)) == if Attaches(events) then [t.exited.value] else []
    ensures Live(Some(t), events).None? <==> Attaches(events)
    decreases |events|
  {
    hide Told, Delivered;
    if events == [] {
      NobodyTold();
    } else {
      var e := events[0];
      ToldOne(t, e);
      ToldConcat(Delivered(t, e), Play(After(t, e), events[1..]));
      if e.Attach? {
        NobodyTold();
        assert Attaches(events);
      } else {
        PendingTold(After(t, e).value, events[1..]);
        AttachesLater(events);
      }
    }
  }

  lemma AttachesLater(events: seq<Event>)
    requires events != [] && !events[0].Attach?
    ensures Attaches(events) <==> Attaches(events[1..])
  {
    if Attaches(events) {
      var i :| 0 <= i < |events| && events[i].Attach?;
      assert events[1..][i - 1].Attach?;
    }
    if Attaches(events[1..]) {
      var i :| 0 <= i < |events[1..]| && events[1..][i].Attach?;
      assert events[i + 1].Attach?;
    }
  }

  ghost predicate Held(t: Terminal, events: seq<Event>) {
    exists c :: Holds(t, events, c)
  }

  lemma OwnedIff(t: Terminal, events: seq<Event>)
    requires Live(Some(t), events).Some?
    ensures Live(Some(t), events).value.owner.Some? <==> Held(t, events)
  {
    hide Live, Holds;
    var owner := Live(Some(t), events).value.owner;
    if owner.Some? { OwnerIff(t, events, owner.value); }
    if Held(t, events) {
      var c :| Holds(t, events, c);
      OwnerIff(t, events, c);
    }
  }

  /**
   * The exit code of a process is told exactly once: to the owner if there is one, or else to the first client that attaches
   * afterwards; if there is none it is not told, and the entry stays.
   */
  lemma ExitToldOnce(t: Terminal, before: seq<Event>, code: int, after: seq<Event>)
    requires t.exited.None? && NoExit(before) && NoExit(after)
    ensures var events := before + [Exit(code)] + after;
            var told := Held(t, before) || Attaches(after);
            && Told(Play(Some(t), events)) == (if told then [code] else [])
            && (Live(Some(t), events).None? <==> told)
            && forall c :: Holds(t, before, c) ==> ExitSent(c, code) in Play(Some(t), events)
  {
    hide Told, Live, Play, Held, Holds, NoExit, Attaches, Delivered;
    RunningStays(t, before);
    OwnedIff(t, before);
    forall c | Holds(t, before, c) ensures Live(Some(t), before).value.owner == Some(c) { OwnerIff(t, before, c); }
    var now := Live(Some(t), before).value;
    LiveConcat(Some(t), before, [Exit(code)]);
    LiveConcat(Some(t), before + [Exit(code)], after);
    LiveOne(now, Exit(code));
    ToldOne(now, Exit(code));
    SentTo(now, code);
    var left := After(now, Exit(code));
    if left.Some? { PendingTold(left.value, after); } else { GoneSilent(after); }
    ToldConcat(Play(Some(t), before), Delivered(now, Exit(code)));
    ToldConcat(Play(Some(t), before + [Exit(code)]), Play(left, after));
  }

  lemma SentTo(t: Terminal, code: int)
    ensures t.owner.Some? ==> Delivered(t, Exit(code)) == [ExitSent(t.owner.value, code)]
  {
  }

  lemma GoneSilent(events: seq<Event>)
    ensures Live(None, events) == None && Told(Play(None, events)) == []
  {
  }
}
