/** Walks in a directed graph, as the yardstick for the breadth-first loops of the server. */
module Reachability {

  /** There is a walk of exactly n edges. */
  ghost predicate ReachesIn<N(!new)>(edges: set<(N, N)>, from: N, to: N, n: nat) {
    if n == 0 then from == to
    else exists mid :: ReachesIn(edges, from, mid, n - 1) && (mid, to) in edges
  }

  ghost predicate Reachable<N(!new)>(edges: set<(N, N)>, from: N, to: N) {
    exists n: nat :: ReachesIn(edges, from, to, n)
  }

  /** The shortest walk has d edges. */
  ghost predicate Distance<N(!new)>(edges: set<(N, N)>, from: N, to: N, d: nat) {
    ReachesIn(edges, from, to, d) && forall n: nat :: ReachesIn(edges, from, to, n) ==> d <= n
  }

  lemma OneStepFurther<N(!new)>(edges: set<(N, N)>, from: N, mid: N, to: N, n: nat)
    requires ReachesIn(edges, from, mid, n) && (mid, to) in edges
    ensures ReachesIn(edges, from, to, n + 1)
  {
  }

  /** A layering that no edge can shorten bounds the length of every walk from below. */
  ghost predicate Relaxed<N(!new)>(edges: set<(N, N)>, from: N, layer: map<N, nat>) {
    && from in layer && layer[from] == 0
    && forall u, v :: (u, v) in edges && u in layer ==> v in layer && layer[v] <= layer[u] + 1
  }

  lemma {:induction false} WalksAreLonger<N(!new)>(edges: set<(N, N)>, from: N, layer: map<N, nat>, to: N, n: nat)
    requires Relaxed(edges, from, layer) && ReachesIn(edges, from, to, n)
    ensures to in layer && layer[to] <= n
  {
    if n > 0 {
      var mid :| ReachesIn(edges, from, mid, n - 1) && (mid, to) in edges;
      WalksAreLonger(edges, from, layer, mid, n - 1);
    }
  }

  /** A relaxed layering whose layers are walks assigns exactly the distances, and only to reachable nodes. */
  lemma LayersAreDistances<N(!new)>(edges: set<(N, N)>, from: N, layer: map<N, nat>)
    requires Relaxed(edges, from, layer)
    requires forall v :: v in layer ==> ReachesIn(edges, from, v, layer[v])
    ensures forall v :: v in layer ==> Distance(edges, from, v, layer[v])
    ensures forall v :: v in layer <==> Reachable(edges, from, v)
  {
    forall v, n: nat | ReachesIn(edges, from, v, n) ensures v in layer && layer[v] <= n {
      WalksAreLonger(edges, from, layer, v, n);
    }
  }

  /** Nothing outside a closed set is reachable from inside it. */
  lemma {:induction false} ClosedHoldsWalks<N(!new)>(edges: set<(N, N)>, from: N, seen: set<N>, to: N, n: nat)
    requires from in seen && forall u, v :: (u, v) in edges && u in seen ==> v in seen
    requires ReachesIn(edges, from, to, n)
    ensures to in seen
  {
    if n > 0 {
      var mid :| ReachesIn(edges, from, mid, n - 1) && (mid, to) in edges;
      ClosedHoldsWalks(edges, from, seen, mid, n - 1);
    }
  }

  // ---------------------------------------------------------------- the queue of a breadth-first loop

  /** The queue lists once each visited node that has not been taken from it. */
  ghost predicate Waiting<N(!new)>(queue: seq<N>, done: set<N>, visited: set<N>) {
    && done <= visited
    && (forall i :: 0 <= i < |queue| ==> queue[i] in visited && queue[i] !in done)
    && (forall i, j :: 0 <= i < j < |queue| ==> queue[i] != queue[j])
    && (forall v :: v in visited ==> v in done || v in queue)
  }

  lemma WaitingNext<N(!new)>(queue: seq<N>, done: set<N>, visited: set<N>)
    requires queue != [] && Waiting(queue, done, visited)
    ensures queue[0] in visited && queue[0] !in done
    ensures Waiting(queue[1..], done + {queue[0]}, visited)
  {
  }

  lemma WaitingAppend<N(!new)>(queue: seq<N>, done: set<N>, visited: set<N>, v: N)
    requires Waiting(queue, done, visited) && v !in visited
    ensures Waiting(queue + [v], done, visited + {v})
  {
  }
}
