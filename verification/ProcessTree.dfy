/** Descendants of a process in one process table: server/src/utils/process-tree.ts. */
module ProcessTree {
  import opened Reachability
  import Discovery

  type Pid = nat

  datatype Process = Process(pid: Pid, ppid: Pid, command: string, args: string, elapsedSeconds: nat)

  /** From parent to child. */
  function Edges(table: seq<Process>): set<(Pid, Pid)> {
    set i | 0 <= i < |table| :: (table[i].ppid, table[i].pid)
  }

  function Pids(processes: seq<Process>): set<Pid> {
    set i | 0 <= i < |processes| :: processes[i].pid
  }

  ghost predicate DistinctPids(processes: seq<Process>) {
    forall i, j :: 0 <= i < j < |processes| ==> processes[i].pid != processes[j].pid
  }

  predicate Precedes(processes: seq<Process>, parent: Pid, k: nat)
    requires k <= |processes|
  {
    exists j :: 0 <= j < k && processes[j].pid == parent
  }

  /** Each process is a child of the root or of a process listed before it. */
  ghost predicate ParentsFirst(processes: seq<Process>, root: Pid) {
    forall k :: 0 <= k < |processes| ==> processes[k].ppid == root || Precedes(processes, processes[k].ppid, k)
  }

  /** What the search has found: distinct processes of the table, reachable, after their parents. */
  ghost predicate Found(table: seq<Process>, root: Pid, found: seq<Process>, visited: set<Pid>) {
    && visited == {root} + Pids(found) && root !in Pids(found)
    && DistinctPids(found) && ParentsFirst(found, root)
    && (forall k :: 0 <= k < |found| ==> found[k] in table)
    && (forall p :: p in visited ==> Reachable(Edges(table), root, p))
  }

  /** The children of every process taken from the frontier have been visited. */
  ghost predicate Closed(table: seq<Process>, done: set<Pid>, visited: set<Pid>) {
    forall u, v :: (u, v) in Edges(table) && u in done ==> v in visited
  }

  lemma ChildReachable(table: seq<Process>, root: Pid, i: nat)
    requires i < |table| && Reachable(Edges(table), root, table[i].ppid)
    ensures Reachable(Edges(table), root, table[i].pid)
  {
    var n: nat :| ReachesIn(Edges(table), root, table[i].ppid, n);
    assert (table[i].ppid, table[i].pid) in Edges(table);
    OneStepFurther(Edges(table), root, table[i].ppid, table[i].pid, n);
  }

  lemma PidsAppend(found: seq<Process>, p: Process)
    ensures Pids(found + [p]) == Pids(found) + {p.pid}
  {
    assert (found + [p])[|found|] == p;
    forall q | q in Pids(found) ensures q in Pids(found + [p]) {
      var i :| 0 <= i < |found| && found[i].pid == q;
      assert (found + [p])[i].pid == q;
    }
  }

  lemma ParentsFirstAppend(found: seq<Process>, p: Process, root: Pid)
    requires ParentsFirst(found, root) && (p.ppid == root || p.ppid in Pids(found))
    ensures ParentsFirst(found + [p], root)
  {
    var found' := found + [p];
    forall k | 0 <= k < |found'| ensures found'[k].ppid == root || Precedes(found', found'[k].ppid, k) {
      if k < |found| {
        if found[k].ppid != root {
          assert Precedes(found, found[k].ppid, k);
          var j :| 0 <= j < k && found[j].pid == found[k].ppid;
          assert found'[j].pid == found'[k].ppid;
        }
      } else if p.ppid != root {
        var j :| 0 <= j < |found| && found[j].pid == p.ppid;
        assert found'[j].pid == p.ppid;
      }
    }
  }

  lemma FoundAppend(table: seq<Process>, root: Pid, found: seq<Process>, visited: set<Pid>, i: nat)
    requires Found(table, root, found, visited) && i < |table|
    requires table[i].ppid in visited && table[i].pid !in visited
    ensures Found(table, root, found + [table[i]], visited + {table[i].pid})
  {
    var p := table[i];
    PidsAppend(found, p);
    ParentsFirstAppend(found, p, root);
    ChildReachable(table, root, i);
    forall k | 0 <= k < |found| ensures found[k].pid != p.pid { assert found[k].pid in Pids(found); }
  }

  /** Children of `current` among the rows scanned so far have been visited. */
  ghost predicate Scanned(table: seq<Process>, current: Pid, n: nat, visited: set<Pid>)
    requires n <= |table|
  {
    forall i :: 0 <= i < n && table[i].ppid == current ==> table[i].pid in visited
  }

  lemma ScannedAll(table: seq<Process>, done: set<Pid>, current: Pid, visited: set<Pid>)
    requires Closed(table, done, visited) && Scanned(table, current, |table|, visited)
    ensures Closed(table, done + {current}, visited)
  {
  }

  /**
   * listDescendantProcesses on the table `ps` printed.  Whatever the table, parent cycles included, the result is
   * exactly the processes reachable from the root by parent links, once each, parents first.
   */
  method ListDescendantProcesses(table: seq<Process>, root: Pid) returns (descendants: seq<Process>)
    ensures Found(table, root, descendants, {root} + Pids(descendants))
    ensures forall p :: p in Pids(descendants) <==> p != root && Reachable(Edges(table), root, p)
  {
    hide Found, Closed, Scanned, Pids, Edges, Reachable, Waiting;
    descendants := [];
    var frontier := [root];
    var visited := {root};
    ghost var done: set<Pid> := {};
    SearchStarts(table, root);
    while frontier != []
      invariant Found(table, root, descendants, visited)
      invariant Waiting(frontier, done, visited)
      invariant visited <= {root} + Pids(table)
      invariant Closed(table, done, visited)
      decreases ({root} + Pids(table)) - done
    {
      var current := frontier[0];
      WaitingNext(frontier, done, visited);
      frontier := frontier[1..];
      ghost var done' := done + {current};
      NothingScanned(table, current, visited);
      var i := 0;
      while i < |table|
        invariant 0 <= i <= |table|
        invariant Found(table, root, descendants, visited)
        invariant Waiting(frontier, done', visited)
        invariant current in visited && visited <= {root} + Pids(table)
        invariant Closed(table, done, visited) && Scanned(table, current, i, visited)
      {
        var proc := table[i];
        ScannedNext(table, done, current, i, visited);
        if proc.ppid == current && proc.pid !in visited {
          FoundAppend(table, root, descendants, visited, i);
          WaitingAppend(frontier, done', visited, proc.pid);
          visited := visited + {proc.pid};
          frontier := frontier + [proc.pid];
          descendants := descendants + [proc];
        }
        i := i + 1;
      }
      ScannedAll(table, done, current, visited);
      done := done';
    }
    SearchEnds(table, root, descendants, done, visited);
  }

  lemma SearchStarts(table: seq<Process>, root: Pid)
    ensures Found(table, root, [], {root}) && Waiting([root], {}, {root}) && Closed(table, {}, {root})
  {
    assert ReachesIn(Edges(table), root, root, 0);
  }

  lemma NothingScanned(table: seq<Process>, current: Pid, visited: set<Pid>)
    ensures Scanned(table, current, 0, visited)
  {
  }

  /** One more row; visiting its process, if it is a child, leaves everything visited before visited. */
  lemma ScannedNext(table: seq<Process>, done: set<Pid>, current: Pid, i: nat, visited: set<Pid>)
    requires i < |table| && Closed(table, done, visited) && Scanned(table, current, i, visited)
    ensures table[i].pid in Pids(table)
    ensures var visited' := if table[i].ppid == current then visited + {table[i].pid} else visited;
            Closed(table, done, visited') && Scanned(table, current, i + 1, visited')
    ensures table[i].pid in visited ==> visited + {table[i].pid} == visited
  {
  }

  lemma SearchEnds(table: seq<Process>, root: Pid, descendants: seq<Process>, done: set<Pid>, visited: set<Pid>)
    requires Found(table, root, descendants, visited) && Waiting([], done, visited) && Closed(table, done, visited)
    ensures visited == {root} + Pids(descendants)
    ensures forall p :: p in Pids(descendants) <==> p != root && Reachable(Edges(table), root, p)
  {
    forall p | Reachable(Edges(table), root, p) ensures p in visited {
      var n: nat :| ReachesIn(Edges(table), root, p, n);
      ClosedHoldsWalks(Edges(table), root, visited, p, n);
    }
  }

  // ---------------------------------------------------------------- signals

  function Reversed<T>(s: seq<T>): (r: seq<T>)
    ensures |r| == |s| && forall k :: 0 <= k < |s| ==> r[k] == s[|s| - 1 - k]
  {
    if s == [] then [] else Reversed(s[1..]) + [s[0]]
  }

  /** The order in which killProcessTree signals. */
  function KillOrder(descendants: seq<Process>, root: Pid): seq<Pid> {
    Reversed(seq(|descendants|, i requires 0 <= i < |descendants| => descendants[i].pid)) + [root]
  }

  /** Every process is signalled once, each child before its parent, and the root last. */
  lemma ChildrenSignalledFirst(descendants: seq<Process>, root: Pid)
    requires DistinctPids(descendants) && ParentsFirst(descendants, root) && root !in Pids(descendants)
    ensures var order := KillOrder(descendants, root);
            && |order| == |descendants| + 1 && order[|descendants|] == root
            && (forall i, j :: 0 <= i < j < |order| ==> order[i] != order[j])
            && (forall k :: 0 <= k < |descendants| ==>
                  var at := |descendants| - 1 - k;
                  order[at] == descendants[k].pid && exists later :: at < later < |order| && order[later] == descendants[k].ppid)
  {
    var n := |descendants|;
    var order := KillOrder(descendants, root);
    forall k | 0 <= k < n ensures order[k] == descendants[n - 1 - k].pid && order[k] != root {
      assert descendants[n - 1 - k].pid in Pids(descendants);
    }
    forall k | 0 <= k < n
      ensures exists later :: n - 1 - k < later < |order| && order[later] == descendants[k].ppid
    {
      if descendants[k].ppid == root {
        assert order[n] == root;
      } else {
        assert Precedes(descendants, descendants[k].ppid, k);
        var j :| 0 <= j < k && descendants[j].pid == descendants[k].ppid;
        assert order[n - 1 - j] == descendants[k].ppid;
      }
    }
  }

  function Selected(pids: seq<Pid>, among: set<Pid>): seq<Pid> {
    if pids == [] then []
    else Selected(pids[..|pids| - 1], among) + (if pids[|pids| - 1] in among then [pids[|pids| - 1]] else [])
  }

  lemma {:induction false} SelectedMembers(pids: seq<Pid>, among: set<Pid>)
    ensures forall p :: p in Selected(pids, among) <==> p in pids && p in among
  {
    if pids != [] {
      SelectedMembers(pids[..|pids| - 1], among);
      assert forall p :: p in pids <==> p in pids[..|pids| - 1] || p == pids[|pids| - 1];
    }
  }

  lemma {:induction false} SelectedTwice(pids: seq<Pid>, a: set<Pid>, b: set<Pid>)
    ensures Selected(Selected(pids, a), b) == Selected(pids, a * b)
  {
    if pids != [] {
      var rest, last := pids[..|pids| - 1], pids[|pids| - 1];
      SelectedTwice(rest, a, b);
      var mine := Selected(rest, a);
      if last in a {
        assert (mine + [last])[..|mine|] == mine;
      } else {
        assert mine + [] == mine;
      }
    }
  }

  lemma {:induction false} SelectedApart(pids: seq<Pid>, among: set<Pid>)
    requires forall i, j :: 0 <= i < j < |pids| ==> pids[i] != pids[j]
    ensures forall i, j :: 0 <= i < j < |Selected(pids, among)| ==> Selected(pids, among)[i] != Selected(pids, among)[j]
  {
    if pids != [] {
      SelectedApart(pids[..|pids| - 1], among);
      SelectedMembers(pids[..|pids| - 1], among);
    }
  }

  lemma {:induction false} SelectedFewer(pids: seq<Pid>, a: set<Pid>, b: set<Pid>)
    requires a <= b
    ensures |Selected(pids, a)| <= |Selected(pids, b)|
  {
    if pids != [] { SelectedFewer(pids[..|pids| - 1], a, b); }
  }

  lemma SelectedLast(pids: seq<Pid>, among: set<Pid>)
    requires pids != []
    ensures var rest, last := pids[..|pids| - 1], pids[|pids| - 1];
            Selected(pids, among) == Selected(rest, among) + (if last in among then [last] else [])
  {
  }

  lemma {:induction false} SelectedParts(pids: seq<Pid>, a: set<Pid>, b: set<Pid>)
    requires forall p :: p in pids ==> (p in a <==> p !in b)
    ensures multiset(Selected(pids, a)) + multiset(Selected(pids, b)) == multiset(pids)
  {
    if pids != [] {
      var rest, last := pids[..|pids| - 1], pids[|pids| - 1];
      assert forall p :: p in rest ==> p in pids;
      SelectedParts(rest, a, b);
      SelectedLast(pids, a);
      SelectedLast(pids, b);
      hide Selected;
      assert last in pids;
      LastCounted(Selected(rest, a), Selected(rest, b), rest, last);
      assert pids == rest + [last];
    }
  }

  lemma LastCounted(s: seq<Pid>, t: seq<Pid>, all: seq<Pid>, last: Pid)
    requires multiset(s) + multiset(t) == multiset(all)
    ensures multiset(s + [last]) + multiset(t + []) == multiset(all + [last])
    ensures multiset(s + []) + multiset(t + [last]) == multiset(all + [last])
  {
    assert s + [] == s && t + [] == t;
  }

  lemma KillOrderMembers(descendants: seq<Process>, root: Pid)
    ensures forall p :: p in KillOrder(descendants, root) <==> p == root || p in Pids(descendants)
  {
    var order := KillOrder(descendants, root);
    var n := |descendants|;
    forall p | p == root || p in Pids(descendants) ensures p in order {
      if p == root { assert order[n] == root; }
      else {
        var i :| 0 <= i < n && descendants[i].pid == p;
        assert order[n - 1 - i] == p;
      }
    }
    forall p | p in order ensures p == root || p in Pids(descendants) {
      var i :| 0 <= i < |order| && order[i] == p;
      if i < n { assert order[i] == descendants[n - 1 - i].pid; }
    }
  }

  // ---------------------------------------------------------------- waiting

  /** [...new Set(pids)]. */
  function Deduped(pids: seq<Pid>): seq<Pid> {
    if pids == [] then []
    else
      var rest := pids[..|pids| - 1];
      Deduped(rest) + (if pids[|pids| - 1] in rest then [] else [pids[|pids| - 1]])
  }

  lemma {:induction false} DedupedOnce(pids: seq<Pid>)
    ensures forall p :: p in Deduped(pids) <==> p in pids
    ensures forall i, j :: 0 <= i < j < |Deduped(pids)| ==> Deduped(pids)[i] != Deduped(pids)[j]
    ensures (forall i, j :: 0 <= i < j < |pids| ==> pids[i] != pids[j]) ==> Deduped(pids) == pids
  {
    if pids != [] {
      var rest := pids[..|pids| - 1];
      DedupedOnce(rest);
      assert pids == rest + [pids[|pids| - 1]];
    }
  }

  /** The first occurrences stay where they are. */
  lemma {:induction false} DedupedInOrder(pids: seq<Pid>)
    ensures Discovery.ByFirst(Deduped(pids), pids)
  {
    if pids != [] {
      var n := |pids| - 1;
      var rest, last := pids[..n], pids[n];
      DedupedInOrder(rest);
      assert pids == rest + [last];
      Discovery.RowStays(Deduped(rest), rest, [last]);
      if last !in rest { Discovery.RowGrows(Deduped(rest), rest, last); }
    }
  }

  lemma {:induction false} SelectedInOrder(row: seq<Pid>, among: set<Pid>, all: seq<Pid>)
    requires Discovery.ByFirst(row, all)
    ensures Discovery.ByFirst(Selected(row, among), all)
  {
    hide Discovery.FirstAt;
    if row != [] {
      var n := |row| - 1;
      SelectedInOrder(row[..n], among, all);
      SelectedMembers(row[..n], among);
      var kept := Selected(row[..n], among);
      forall j | 0 <= j < |kept| ensures Discovery.FirstAt(all, kept[j]) < Discovery.FirstAt(all, row[n]) {
        assert kept[j] in kept;
        var i :| 0 <= i < n && row[..n][i] == kept[j];
        assert row[i] == kept[j];
      }
    }
  }

  /** The processes every poll found alive. */
  function Lasting(polls: seq<set<Pid>>): set<Pid>
    requires polls != []
  {
    if |polls| == 1 then polls[0] else Lasting(polls[..|polls| - 1]) * polls[|polls| - 1]
  }

  lemma {:induction false} LastingAll(polls: seq<set<Pid>>, p: Pid)
    requires polls != []
    ensures p in Lasting(polls) <==> forall i :: 0 <= i < |polls| ==> p in polls[i]
  {
    if |polls| > 1 { LastingAll(polls[..|polls| - 1], p); }
  }

  /**
   * waitForProcessesToExit: the processes alive at the first look, then at each later one before the deadline.  Those
   * left at the end, each once and in order, are the ones no look found gone.
   */
  method WaitForProcessesToExit(pids: seq<Pid>, polls: seq<set<Pid>>) returns (survivors: seq<Pid>)
    requires polls != []
    ensures survivors == Selected(Deduped(pids), Lasting(polls)) && Discovery.ByFirst(survivors, pids)
    ensures forall p :: p in survivors <==> p in pids && forall i :: 0 <= i < |polls| ==> p in polls[i]
  {
    hide Deduped, Selected, Lasting, Discovery.ByFirst;
    LastingFirst(polls);
    survivors := Selected(Deduped(pids), polls[0]);
    var i := 1;
    while survivors != [] && i < |polls|
      invariant 1 <= i <= |polls|
      invariant survivors == Selected(Deduped(pids), Lasting(polls[..i]))
      decreases |polls| - i
    {
      LastingNext(polls, i);
      SelectedTwice(Deduped(pids), Lasting(polls[..i]), polls[i]);
      survivors := Selected(survivors, polls[i]);
      i := i + 1;
    }
    if i < |polls| { NoneLast(Deduped(pids), polls, i); } else { assert polls[..i] == polls; }
    Survived(pids, polls);
  }

  lemma LastingFirst(polls: seq<set<Pid>>)
    requires polls != []
    ensures Lasting(polls[..1]) == polls[0]
  {
  }

  lemma Survived(pids: seq<Pid>, polls: seq<set<Pid>>)
    requires polls != []
    ensures var survivors := Selected(Deduped(pids), Lasting(polls));
            && Discovery.ByFirst(survivors, pids)
            && forall p :: p in survivors <==> p in pids && forall i :: 0 <= i < |polls| ==> p in polls[i]
  {
    hide Deduped, Selected, Lasting, Discovery.ByFirst;
    DedupedOnce(pids);
    DedupedInOrder(pids);
    SelectedInOrder(Deduped(pids), Lasting(polls), pids);
    SelectedMembers(Deduped(pids), Lasting(polls));
    forall p ensures p in Lasting(polls) <==> forall i :: 0 <= i < |polls| ==> p in polls[i] { LastingAll(polls, p); }
  }

  lemma LastingNext(polls: seq<set<Pid>>, i: nat)
    requires 1 <= i < |polls|
    ensures Lasting(polls[..i + 1]) == Lasting(polls[..i]) * polls[i]
  {
    assert polls[..i + 1][..i] == polls[..i];
  }

  lemma {:induction false} LastingShrinks(polls: seq<set<Pid>>, i: nat)
    requires 1 <= i <= |polls|
    ensures Lasting(polls) <= Lasting(polls[..i])
  {
    if i == |polls| {
      assert polls[..i] == polls;
    } else {
      assert polls[..|polls| - 1][..i] == polls[..i];
      LastingShrinks(polls[..|polls| - 1], i);
    }
  }

  /** Once nobody is left, later looks find nobody. */
  lemma NoneLast(pids: seq<Pid>, polls: seq<set<Pid>>, i: nat)
    requires 1 <= i <= |polls| && Selected(pids, Lasting(polls[..i])) == []
    ensures Selected(pids, Lasting(polls)) == []
  {
    LastingShrinks(polls, i);
    SelectedFewer(pids, Lasting(polls), Lasting(polls[..i]));
  }

  // ---------------------------------------------------------------- killing

  /** Every signalled process is reported once. */
  ghost predicate Reported(signaled: seq<Pid>, killed: seq<Pid>, failed: seq<Pid>) {
    multiset(killed) + multiset(failed) == multiset(signaled)
  }

  /**
   * killProcessTree.  `termed` and `forcible` are the processes that SIGTERM and SIGKILL still find, and the polls are what
   * the two waits see.  A process is forced when the whole first wait saw it alive, and has failed when both did.
   */
  method KillProcessTree(table: seq<Process>, root: Pid, termed: set<Pid>, polls: seq<set<Pid>>, forcible: set<Pid>,
                         lastPolls: seq<set<Pid>>)
    returns (signaled: seq<Pid>, forced: seq<Pid>, killed: seq<Pid>, failed: seq<Pid>)
    requires polls != [] && lastPolls != []
    ensures exists descendants :: && Found(table, root, descendants, {root} + Pids(descendants))
                                  && signaled == Selected(KillOrder(descendants, root), termed)
    ensures forall p :: p in signaled <==> p in termed && (p == root || Reachable(Edges(table), root, p))
    ensures forced == Selected(signaled, Lasting(polls) * forcible)
    ensures failed == Selected(signaled, Lasting(polls) * Lasting(lastPolls))
    ensures Reported(signaled, killed, failed) && forall p :: p in killed <==> p in signaled && p !in failed
  {
    hide Found, Reachable, Edges, Pids, KillOrder, Selected, Lasting, Reported;
    var descendants := ListDescendantProcesses(table, root);
    signaled := SignalEach(KillOrder(descendants, root), termed);
    KillOrderMembers(descendants, root);
    SelectedMembers(KillOrder(descendants, root), termed);
    SignalledOnce(table, descendants, root, termed);
    if signaled == [] {
      NothingReported(Lasting(polls) * forcible, Lasting(polls) * Lasting(lastPolls));
      return signaled, [], [], [];
    }
    forced, killed, failed := KillSurvivors(signaled, polls, forcible, lastPolls);
  }

  /** The second half: wait, SIGKILL what is left, and wait again. */
  method KillSurvivors(signaled: seq<Pid>, polls: seq<set<Pid>>, forcible: set<Pid>, lastPolls: seq<set<Pid>>)
    returns (forced: seq<Pid>, killed: seq<Pid>, failed: seq<Pid>)
    requires polls != [] && lastPolls != []
    requires forall i, j :: 0 <= i < j < |signaled| ==> signaled[i] != signaled[j]
    ensures forced == Selected(signaled, Lasting(polls) * forcible)
    ensures failed == Selected(signaled, Lasting(polls) * Lasting(lastPolls))
    ensures Reported(signaled, killed, failed) && forall p :: p in killed <==> p in signaled && p !in failed
  {
    hide Deduped, Selected, Lasting, Reported;
    DedupedOnce(signaled);
    var survivors := WaitForProcessesToExit(signaled, polls);
    forced := SignalEach(survivors, forcible);
    SelectedTwice(signaled, Lasting(polls), forcible);
    SelectedTwice(signaled, Lasting(polls), Lasting(lastPolls));
    SelectedApart(signaled, Lasting(polls));
    DedupedOnce(survivors);
    failed := WaitForProcessesToExit(survivors, lastPolls);
    var gone := (set p | p in signaled) - (set p | p in failed);
    killed := Selected(signaled, gone);
    SelectedMembers(signaled, gone);
    AllReported(signaled, Lasting(polls) * Lasting(lastPolls), gone);
  }

  /** A signal to each process; the ones it finds are returned. */
  method SignalEach(pids: seq<Pid>, found: set<Pid>) returns (signaled: seq<Pid>)
    ensures signaled == Selected(pids, found)
  {
    signaled := [];
    var i := 0;
    while i < |pids|
      invariant 0 <= i <= |pids|
      invariant signaled == Selected(pids[..i], found)
    {
      assert pids[..i + 1][..i] == pids[..i];
      if pids[i] in found {
        signaled := signaled + [pids[i]];
      }
      i := i + 1;
    }
    assert pids[..|pids|] == pids;
  }

  lemma NothingReported(a: set<Pid>, b: set<Pid>)
    ensures Reported([], [], []) && Selected([], a) == [] && Selected([], b) == []
  {
  }

  lemma SignalledOnce(table: seq<Process>, descendants: seq<Process>, root: Pid, termed: set<Pid>)
    requires Found(table, root, descendants, {root} + Pids(descendants))
    ensures var signaled := Selected(KillOrder(descendants, root), termed);
            forall i, j :: 0 <= i < j < |signaled| ==> signaled[i] != signaled[j]
  {
    hide KillOrder, Selected;
    ChildrenSignalledFirst(descendants, root);
    SelectedApart(KillOrder(descendants, root), termed);
  }

  lemma AllReported(signaled: seq<Pid>, alive: set<Pid>, gone: set<Pid>)
    requires gone == (set p | p in signaled) - (set p | p in Selected(signaled, alive))
    ensures Reported(signaled, Selected(signaled, gone), Selected(signaled, alive))
  {
    SelectedMembers(signaled, alive);
    SelectedParts(signaled, gone, alive);
  }
}
